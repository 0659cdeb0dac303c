# Bank-account core, modelled in Dafny

This project models the core of a Spring banking microservice that manages bank
accounts (`CuentaBancaria`). It covers:

- **The account entity** (`Entidad`). The persisted row is the value `Cuenta`, with Java
  nulls as `Option`. The class `CuentaBancaria` has the same fields and guarded mutators
  that update them in place: `setSaldo`, `setTitular`, `activar`, `desactivar`, `debitar`,
  `acreditar`, and the JPA callbacks `onCreate` and `onUpdate`. Each mutator is proved to
  follow a pure transition on `Cuenta`. The module also has equality and `hashCode` by
  account number, the constraints Bean Validation checks when a row is written, and the
  `Builder` class with its defaults and mandatory-field checks.
- **The account type** (`TipoCuentas`). The module holds the five variants and their
  labels, the overdraft flag and the monthly fee.
- **The request body** (`Solicitudes`). The `@Valid` constraints of
  `CuentaBancariaRequestDTO` are written as predicates. A body is rejected as a whole with
  one field error per broken rule. The module also has the defaulting constructors.
- **The mapper** (`Mapper`):
  - the minimal check `isValidRequestDTO`;
  - `toEntity` through the builder;
  - `updateEntityFromDTO`, which only changes the holder and the balance;
  - the full, list and basic response DTOs.
- **The repository** (`Repositorio`):
  - The store is a `map` from id to row, plus the next identity value.
  - Every query is a filter or fold over that map: the finders, the multi-criteria native
    query with SQL `LIKE`, counts, the active-balance sum, the group-by-type statistics and
    the duplicate holders.
  - `save` runs the JPA callbacks, checks the entity's constraints and the unique account
    number, and inserts or rewrites the row. `deleteById` and the two `@Modifying`
    updates are methods of the class `RepositorioCuentas`.
- **The service** (`Servicio`):
  - Every operation of `CuentaBancariaServiceImpl` is a transition of the store. Each one
    fixes the order of its checks, the failure each check raises, what a success writes,
    and that a failure writes nothing.
  - The class `ServicioCuentas` runs the same steps over the repository object and a
    loaded entity. It is proved to follow those transitions.
  - Properties that relate several operations are in `PropiedadesServicio`.
- **The global exception handler** (`Manejador`). It maps every failure to an HTTP status
  and an error body with a stable code. The field-error map is built by a loop, and a later
  error for a field overwrites an earlier one.

Some conventions hold throughout:

- Money is an exact `real`, as `BigDecimal` values compare.
- The clock (`LocalDateTime.now()`) is a parameter `ahora`.
- The request path of an error response is a parameter.
- Failures are the datatype `Errores.Falla`, with one constructor per exception kind that
  reaches the handler.
- Anything that fails inside one of the service's `try` blocks surfaces as `Interna` with
  that block's fixed message, because the service wraps it in a `RuntimeException`.

Where the code and its documentation disagree, the model follows the code. The service
interface calls deletion a logical delete, but `eliminarCuenta` removes the row. The model
removes it.

## Model

| member | source | states |
|---|---|---|
| `TipoCuentas.Valores` | src/main/java/com/santander/banking/entity/TipoCuenta.java:6-11 | there are exactly five account types, all distinct |
| `TipoCuentas.ValoresCompletos` | src/main/java/com/santander/banking/entity/TipoCuenta.java:6-11 | every account type is among the five listed |
| `TipoCuentas.NombreInyectivo` | src/main/java/com/santander/banking/entity/TipoCuenta.java:6-11 | two types have the same enum name iff they are the same type (what `EnumType.STRING` stores) |
| `TipoCuentas.DescripcionInyectiva` | src/main/java/com/santander/banking/entity/TipoCuenta.java:7-23 | two types have the same label iff they are the same type |
| `TipoCuentas.ComisionMantenimiento` | src/main/java/com/santander/banking/entity/TipoCuenta.java:39-54 | the monthly fee is never negative, and is zero exactly for NOMINA and ESTUDIANTE |
| `TipoCuentas.SobregiroConComision` | src/main/java/com/santander/banking/entity/TipoCuenta.java:32-54 | every type that allows overdraft (CORRIENTE, EMPRESARIAL) has a higher fee than every type that does not |
| `Texto.RecortarInicio` | src/main/java/com/santander/banking/entity/CuentaBancaria.java:94-95 | the front-trimmed string is never longer than the input |
| `Texto.RecortarFin` | src/main/java/com/santander/banking/entity/CuentaBancaria.java:94-95 | the end-trimmed string is never longer than the input |
| `Texto.Trim` | src/main/java/com/santander/banking/entity/CuentaBancaria.java:94-95 | `trim` never lengthens a string |
| `Texto.RecortarInicioDeja` | src/main/java/com/santander/banking/entity/CuentaBancaria.java:94-95 | trimming the front drops exactly a prefix of characters `trim` removes (code point at most U+0020) and leaves none at the start |
| `Texto.RecortarFinDeja` | src/main/java/com/santander/banking/entity/CuentaBancaria.java:94-95 | trimming the end drops exactly such a suffix and leaves none at the end |
| `Texto.TrimSinBordes` | src/main/java/com/santander/banking/entity/CuentaBancaria.java:94-95 | the result of `trim` is empty or starts and ends with a character `trim` keeps |
| `Texto.EsBlancoSii` | src/main/java/com/santander/banking/util/CuentaBancariaMapper.java:141-143 | `trim().isEmpty()` holds iff every character of the string is one `trim` removes |
| `Texto.TrimIdempotente` | src/main/java/com/santander/banking/entity/CuentaBancaria.java:93-100 | trimming a trimmed holder changes nothing |
| `Texto.Mayuscula` | src/main/java/com/santander/banking/repository/CuentaBancariaRepository.java:44 | a lower-case ASCII letter upper-cases to an upper-case ASCII letter; outside `a`–`z`, the Latin-1 lower-case letters and `ÿ`, a character is kept (see Left out) |
| `Texto.Mayusculas` | src/main/java/com/santander/banking/repository/CuentaBancariaRepository.java:121-122 | `UPPER` keeps the length and upper-cases character by character |
| `Texto.LikeTodo` | src/main/java/com/santander/banking/repository/CuentaBancariaRepository.java:121-122 | the pattern `%` matches every string |
| `Texto.LikePrefijo` | src/main/java/com/santander/banking/repository/CuentaBancariaRepository.java:121-122 | for a wildcard-free `t`, `s LIKE t%` iff `t` is a prefix of `s` |
| `Texto.LikeSufijo` | src/main/java/com/santander/banking/repository/CuentaBancariaRepository.java:121-122 | `s LIKE %q` iff some suffix of `s` matches `q` |
| `Texto.LikeContiene` | src/main/java/com/santander/banking/repository/CuentaBancariaRepository.java:121-122 | for a wildcard-free `t`, `s LIKE %t%` iff `s` contains `t` |
| `Texto.Digito` | src/main/java/com/santander/banking/exception/CuentaBancariaNotFoundException.java:18-20 | a decimal digit renders as a character from `0` to `9` |
| `Texto.NatATexto` | src/main/java/com/santander/banking/exception/CuentaBancariaNotFoundException.java:18-20 | the decimal rendering of a natural is a non-empty string of digits, one character long iff the number is below 10 |
| `Texto.NatATextoInyectiva` | src/main/java/com/santander/banking/exception/CuentaBancariaNotFoundException.java:18-20 | two naturals with the same decimal rendering are equal |
| `Texto.EnteroATextoInyectiva` | src/main/java/com/santander/banking/exception/CuentaBancariaNotFoundException.java:18-20 | two ids with the same decimal rendering (as string concatenation of a `Long` gives) are equal |
| `Texto.UnidadesCaracter` | src/main/java/com/santander/banking/entity/CuentaBancaria.java:24 | a character is one UTF-16 unit, or two (a surrogate pair) iff it lies outside the Basic Multilingual Plane; every unit is below 0x10000 |
| `Texto.UnidadesUtf16` | src/main/java/com/santander/banking/entity/CuentaBancaria.java:24 | a string has between one and two UTF-16 units per character (what `@Size` counts) |
| `Texto.LongitudJavaBmp` | src/main/java/com/santander/banking/dto/CuentaBancariaRequestDTO.java:17 | for characters in the Basic Multilingual Plane, the Java length equals the number of characters |
| `Texto.LongitudJavaConcat` | src/main/java/com/santander/banking/entity/CuentaBancaria.java:27-30 | the Java length of a concatenation is the sum of the lengths |
| `Texto.LongitudTrim` | src/main/java/com/santander/banking/entity/CuentaBancaria.java:93-100 | `trim` never makes a string longer in UTF-16 units, so a holder within `@Size` stays within it once trimmed |
| `Errores.MensajeNoEncontradaInyectivo` | src/main/java/com/santander/banking/exception/CuentaBancariaNotFoundException.java:18-20 | two not-found messages for ids are equal only for the same id |
| `Errores.MensajeNoEncontradaContieneId` | src/main/java/com/santander/banking/exception/CuentaBancariaNotFoundException.java:18-20 | the not-found message contains the id that was looked up |
| `Entidad.ViolacionesNumero` | src/main/java/com/santander/banking/entity/CuentaBancaria.java:22-25 | an account number breaks no constraint iff it is not blank and is 10 to 20 UTF-16 units long; every violation names `numeroCuenta` |
| `Entidad.ViolacionesTitular` | src/main/java/com/santander/banking/entity/CuentaBancaria.java:27-30 | a holder breaks no constraint iff it is not blank and at most 100 units long; every violation names `titular` |
| `Entidad.ViolacionesSaldo` | src/main/java/com/santander/banking/entity/CuentaBancaria.java:32-36 | a balance breaks no constraint iff it is present, not negative, and has at most 13 integer and 2 decimal digits |
| `Entidad.ViolacionesMoneda` | src/main/java/com/santander/banking/entity/CuentaBancaria.java:43-46 | a currency breaks no constraint iff it is present and is three upper-case ASCII letters |
| `Entidad.Violaciones` | src/main/java/com/santander/banking/entity/CuentaBancaria.java:22-46 | an entity has no violation iff it meets every constraint on its fields |
| `Entidad.CambioSaldo` | src/main/java/com/santander/banking/entity/CuentaBancaria.java:84-91 | `setSaldo` succeeds iff the value is present and ≥ 0; it stores it exactly with the new update time; otherwise it fails with IllegalArgument |
| `Entidad.CambioTitular` | src/main/java/com/santander/banking/entity/CuentaBancaria.java:93-100 | `setTitular` succeeds iff the name is present and not blank; it stores the trimmed name with the new update time; otherwise it fails with IllegalArgument |
| `Entidad.Debito` | src/main/java/com/santander/banking/entity/CuentaBancaria.java:113-122 | a non-positive or null amount fails with IllegalArgument before the balance is read; a null balance fails with a null dereference; an amount above the balance fails with IllegalState; it succeeds iff the amount is positive and the balance covers it, and then the balance drops by the amount and the update time is now |
| `Entidad.Credito` | src/main/java/com/santander/banking/entity/CuentaBancaria.java:124-130 | a non-positive or null amount fails with IllegalArgument; a null balance fails with a null dereference; it succeeds iff the amount is positive and the balance present, and then the balance rises by the amount and the update time is now |
| `Entidad.AlCrear` | src/main/java/com/santander/banking/entity/CuentaBancaria.java:133-140 | after `onCreate` the active flag is never null |
| `Entidad.SoloCambiaLoNombrado` | src/main/java/com/santander/banking/entity/CuentaBancaria.java:84-130 | each mutator changes only its own field and the update time; `activar`/`desactivar` set the flag and leave balance, holder and identity alone |
| `Entidad.CeroEsSaldoValido` | src/main/java/com/santander/banking/entity/CuentaBancaria.java:84-91 | `setSaldo(0)` is accepted |
| `Entidad.DebitoTotalDejaCero` | src/main/java/com/santander/banking/entity/CuentaBancaria.java:113-122 | debiting the whole positive balance succeeds and leaves zero |
| `Entidad.DebitoLuegoCredito` | src/main/java/com/santander/banking/entity/CuentaBancaria.java:113-130 | a successful debit followed by a credit of the same amount succeeds and restores the balance |
| `Entidad.CreditoLuegoDebito` | src/main/java/com/santander/banking/entity/CuentaBancaria.java:113-130 | on a non-negative balance, a credit followed by a debit of the same amount succeeds and restores the balance |
| `Entidad.SaldoNoNegativoSePreserva` | src/main/java/com/santander/banking/entity/CuentaBancaria.java:84-145 | no successful mutator or callback takes a non-negative balance below zero |
| `Entidad.ActivacionIdempotente` | src/main/java/com/santander/banking/entity/CuentaBancaria.java:102-110 | activating twice is activating once, and likewise for deactivating |
| `Entidad.Callbacks` | src/main/java/com/santander/banking/entity/CuentaBancaria.java:133-145 | `onCreate` sets both dates to now and defaults a null flag to true, changing nothing else; `onUpdate` changes only the update time |
| `Entidad.AInt32` | src/main/java/com/santander/banking/entity/CuentaBancaria.java:156-159 | the 32-bit wrap of an integer is in the `int` range and congruent to it modulo 2^32 |
| `Entidad.HashUnidades` | src/main/java/com/santander/banking/entity/CuentaBancaria.java:156-159 | the polynomial string hash stays in the `int` range |
| `Entidad.HashCoherente` | src/main/java/com/santander/banking/entity/CuentaBancaria.java:148-159 | two equal accounts have equal hash codes |
| `Entidad.CuentaBancaria.constructor` | src/main/java/com/santander/banking/entity/CuentaBancaria.java:61-70 | the new object holds exactly the given field values |
| `Entidad.CuentaBancaria.Asignar` | src/main/java/com/santander/banking/entity/CuentaBancaria.java:57-70 | the object's fields become exactly the given row |
| `Entidad.CuentaBancaria.SetSaldo` | src/main/java/com/santander/banking/entity/CuentaBancaria.java:84-91 | the object follows `CambioSaldo`: the new state on success, the untouched old state and the exception on failure |
| `Entidad.CuentaBancaria.SetTitular` | src/main/java/com/santander/banking/entity/CuentaBancaria.java:93-100 | the object follows `CambioTitular` |
| `Entidad.CuentaBancaria.Activar` | src/main/java/com/santander/banking/entity/CuentaBancaria.java:102-105 | the flag becomes true and the update time now; nothing else changes |
| `Entidad.CuentaBancaria.Desactivar` | src/main/java/com/santander/banking/entity/CuentaBancaria.java:107-110 | the flag becomes false and the update time now; nothing else changes |
| `Entidad.CuentaBancaria.Debitar` | src/main/java/com/santander/banking/entity/CuentaBancaria.java:113-122 | the object follows `Debito` |
| `Entidad.CuentaBancaria.Acreditar` | src/main/java/com/santander/banking/entity/CuentaBancaria.java:124-130 | the object follows `Credito` |
| `Entidad.CuentaBancaria.OnCreate` | src/main/java/com/santander/banking/entity/CuentaBancaria.java:133-140 | the object follows `AlCrear` |
| `Entidad.CuentaBancaria.OnUpdate` | src/main/java/com/santander/banking/entity/CuentaBancaria.java:142-145 | the object follows `AlActualizar` |
| `Entidad.EqualsEsEquivalencia` | src/main/java/com/santander/banking/entity/CuentaBancaria.java:148-159 | `equals` is reflexive, symmetric and transitive, agrees with `hashCode`, and holds iff the account numbers are equal |
| `Entidad.Construir` | src/main/java/com/santander/banking/entity/CuentaBancaria.java:221-234 | `build` succeeds iff the number and holder are present and not blank and the type is present; the number is checked first, then the holder; the other fields are copied unchanged and the id is unset |
| `Entidad.ValoresPorDefecto` | src/main/java/com/santander/banking/entity/CuentaBancaria.java:179-187 | a builder given only the mandatory fields yields balance 0, currency EUR, active, no id |
| `Entidad.Builder.constructor` | src/main/java/com/santander/banking/entity/CuentaBancaria.java:179-189 | a new builder holds the defaults |
| `Entidad.Builder.NumeroCuenta` | src/main/java/com/santander/banking/entity/CuentaBancaria.java:191-194 | the setter replaces only the number and returns the same builder |
| `Entidad.Builder.Titular` | src/main/java/com/santander/banking/entity/CuentaBancaria.java:196-199 | the setter replaces only the holder and returns the same builder |
| `Entidad.Builder.Saldo` | src/main/java/com/santander/banking/entity/CuentaBancaria.java:201-204 | the setter replaces only the balance, even with null, and returns the same builder |
| `Entidad.Builder.TipoCuenta` | src/main/java/com/santander/banking/entity/CuentaBancaria.java:206-209 | the setter replaces only the type and returns the same builder |
| `Entidad.Builder.Moneda` | src/main/java/com/santander/banking/entity/CuentaBancaria.java:211-214 | the setter replaces only the currency and returns the same builder |
| `Entidad.Builder.Activa` | src/main/java/com/santander/banking/entity/CuentaBancaria.java:216-219 | the setter replaces only the flag and returns the same builder |
| `Entidad.Builder.Build` | src/main/java/com/santander/banking/entity/CuentaBancaria.java:221-234 | `build` fails as `Construir` does, or returns a fresh entity holding `Construir`'s row |
| `Solicitudes.Defectos` | src/main/java/com/santander/banking/dto/CuentaBancariaRequestDTO.java:41-54 | the default constructor gives balance 0 and EUR; the full constructor replaces only a null balance or currency and keeps every other field |
| `Solicitudes.ErroresNumero` | src/main/java/com/santander/banking/dto/CuentaBancariaRequestDTO.java:16-19 | the number has no error iff it is not blank, 10 to 20 units long and all ASCII digits; every error names `numeroCuenta` |
| `Solicitudes.ErroresTitular` | src/main/java/com/santander/banking/dto/CuentaBancariaRequestDTO.java:22-25 | the holder has no error iff it is not blank, 2 to 100 units long, and only letters, the listed accented letters and whitespace; every error names `titular` |
| `Solicitudes.ErroresSaldo` | src/main/java/com/santander/banking/dto/CuentaBancariaRequestDTO.java:27-30 | the balance has no error iff it is absent, or ≥ 0 with at most 13 integer and 2 decimal digits |
| `Solicitudes.ErroresTipo` | src/main/java/com/santander/banking/dto/CuentaBancariaRequestDTO.java:32-34 | the type has no error iff it is present |
| `Solicitudes.ErroresMoneda` | src/main/java/com/santander/banking/dto/CuentaBancariaRequestDTO.java:36-38 | the currency has no error iff it is absent or three upper-case ASCII letters |
| `Solicitudes.ErroresSolicitud` | src/main/java/com/santander/banking/dto/CuentaBancariaRequestDTO.java:15-38 | a body has no field error iff it meets every constraint |
| `Solicitudes.ValidarCuerpo` | src/main/java/com/santander/banking/dto/CuentaBancariaRequestDTO.java:15-38 | `@Valid` passes iff the body meets every constraint; otherwise it fails as a whole with the non-empty list of field errors |
| `Solicitudes.CamposConcat` | src/main/java/com/santander/banking/dto/CuentaBancariaRequestDTO.java:15-38 | the fields in error of two error lists together are the union of their fields |
| `Solicitudes.CamposDeUnCampo` | src/main/java/com/santander/banking/dto/CuentaBancariaRequestDTO.java:15-38 | a non-empty error list about one field names exactly that field |
| `Solicitudes.EjemploNumero` | src/main/java/com/santander/banking/dto/CuentaBancariaRequestDTO.java:16-19 | the number "123" is refused, on `numeroCuenta` only |
| `Solicitudes.EjemploTitular` | src/main/java/com/santander/banking/dto/CuentaBancariaRequestDTO.java:22-25 | the empty holder is refused, on `titular` only |
| `Solicitudes.EjemploSaldo` | src/main/java/com/santander/banking/dto/CuentaBancariaRequestDTO.java:27-30 | the balance -100 is refused, on `saldo` only |
| `Solicitudes.EjemploTipo` | src/main/java/com/santander/banking/dto/CuentaBancariaRequestDTO.java:32-34 | a missing type is refused, on `tipoCuenta` only |
| `Solicitudes.EjemploMoneda` | src/main/java/com/santander/banking/dto/CuentaBancariaRequestDTO.java:36-38 | the currency "INVALID" is refused, on `moneda` only |
| `Solicitudes.CamposDeSolicitud` | src/main/java/com/santander/banking/dto/CuentaBancariaRequestDTO.java:15-38 | the fields in error of a body are the union of those of its five fields |
| `Solicitudes.CuerpoInvalidoCincoCampos` | src/test/java/com/santander/banking/integration/CuentaBancariaControllerIntegrationTest.java:88-108 | the body with a short number, empty holder, negative balance, no type and a bad currency is refused, with an error on each of the five fields |
| `Mapper.ValidaImplicaMinima` | src/main/java/com/santander/banking/util/CuentaBancariaMapper.java:138-145 | every body that passes `@Valid` passes `isValidRequestDTO` |
| `Mapper.MinimaNoImplicaValida` | src/main/java/com/santander/banking/util/CuentaBancariaMapper.java:138-145 | some body passes `isValidRequestDTO` but not `@Valid`, because the minimal check ignores length and pattern |
| `Mapper.ConstruccionSiiMinima` | src/main/java/com/santander/banking/util/CuentaBancariaMapper.java:26-38 | `toEntity`'s builder succeeds iff the body passes `isValidRequestDTO`, and then copies number, holder, balance, type and currency unchanged with no id |
| `Mapper.ValidaCumpleRestriccionesEntidad` | src/main/java/com/santander/banking/util/CuentaBancariaMapper.java:26-38 | a body that passes `@Valid`, with a balance and a currency, builds an entity that meets every entity constraint after `onCreate` |
| `Mapper.SaldoNuloPasaValidacionPeroNoSeGuarda` | src/main/java/com/santander/banking/util/CuentaBancariaMapper.java:26-38 | a body with a null balance passes `@Valid` and builds, but the entity then breaks the balance constraint, because the builder copies the null over its zero default |
| `Mapper.ToEntity` | src/main/java/com/santander/banking/util/CuentaBancariaMapper.java:26-38 | null maps to null; otherwise it fails as the builder does, or returns a fresh entity holding the builder's row |
| `Mapper.Actualizacion` | src/main/java/com/santander/banking/util/CuentaBancariaMapper.java:87-107 | only the holder (trimmed) and the balance change, each only when present in the body; identity, number, type, currency, dates and flag stay; a blank holder or a negative balance fails with IllegalArgument |
| `Mapper.UpdateEntityFromDTO` | src/main/java/com/santander/banking/util/CuentaBancariaMapper.java:87-107 | a null entity or body does nothing; otherwise the entity and the outcome follow `Actualizacion` |
| `Mapper.ToResponseDTO` | src/main/java/com/santander/banking/util/CuentaBancariaMapper.java:46-62 | null maps to null; otherwise every field is copied, and the type label and fee are derived from the type |
| `Mapper.ToResponseDTOInyectiva` | src/main/java/com/santander/banking/util/CuentaBancariaMapper.java:46-62 | two entities with the same response are the same entity |
| `Mapper.ToResponseDTOList` | src/main/java/com/santander/banking/util/CuentaBancariaMapper.java:70-78 | null maps to null; otherwise the length is kept and element `i` is the response of entity `i` |
| `Mapper.ToResponseDTOListConcat` | src/main/java/com/santander/banking/util/CuentaBancariaMapper.java:70-78 | mapping a concatenation is concatenating the mappings |
| `Mapper.ToBasicResponseDTO` | src/main/java/com/santander/banking/util/CuentaBancariaMapper.java:116-130 | null maps to null; otherwise only id, number, holder, balance, type (with its label and fee, which the type setter derives) and flag are set, and currency and dates are left null |
| `Repositorio.ExisteMinimo` | src/main/java/com/santander/banking/repository/CuentaBancariaRepository.java:23 | a non-empty set of ids has a least element |
| `Repositorio.Minimo` | src/main/java/com/santander/banking/repository/CuentaBancariaRepository.java:23 | the least id of a non-empty set is in it and below every other |
| `Repositorio.ClavesOrdenadas` | src/main/java/com/santander/banking/repository/CuentaBancariaRepository.java:23 | the ids of a table in ascending order, each once |
| `Repositorio.FilasEn` | src/main/java/com/santander/banking/repository/CuentaBancariaRepository.java:23 | the rows for a list of ids, one per id, in that order |
| `Repositorio.Filas` | src/main/java/com/santander/banking/repository/CuentaBancariaRepository.java:23 | the rows of a query result, as many as it has, each one of its rows (in id order) |
| `Repositorio.FilasCompletas` | src/main/java/com/santander/banking/repository/CuentaBancariaRepository.java:23 | every row of the result appears in the list |
| `Repositorio.FilasEnOrden` | src/main/java/com/santander/banking/repository/CuentaBancariaRepository.java:23 | the list is in strictly ascending id order |
| `Repositorio.Seleccion` | src/main/java/com/santander/banking/repository/CuentaBancariaRepository.java:44-79 | a filter keeps exactly the rows meeting its condition, unchanged |
| `Repositorio.FindById` | src/main/java/com/santander/banking/repository/CuentaBancariaRepository.java:23 | a row is found iff its id is stored, and it is that row |
| `Repositorio.FindByNumeroCuenta` | src/main/java/com/santander/banking/repository/CuentaBancariaRepository.java:30 | a row is found iff some stored row has that exact number, and the row found has it |
| `Repositorio.NumeroDeterminaFila` | src/main/java/com/santander/banking/entity/CuentaBancaria.java:14-15 | with unique numbers, the row found by number is the only row with that number |
| `Repositorio.FindByTitularContainingIgnoreCase` | src/main/java/com/santander/banking/repository/CuentaBancariaRepository.java:44 | exactly the rows whose upper-cased holder contains the upper-cased query |
| `Repositorio.FindByTipoCuenta` | src/main/java/com/santander/banking/repository/CuentaBancariaRepository.java:51 | exactly the rows of that type |
| `Repositorio.FindByActivaTrue` | src/main/java/com/santander/banking/repository/CuentaBancariaRepository.java:57 | exactly the active rows |
| `Repositorio.FindBySaldoGreaterThan` | src/main/java/com/santander/banking/repository/CuentaBancariaRepository.java:64 | exactly the rows whose balance is strictly above the bound |
| `Repositorio.FindBySaldoBetween` | src/main/java/com/santander/banking/repository/CuentaBancariaRepository.java:72 | exactly the rows whose balance is within both bounds, inclusive |
| `Repositorio.FindByFechaCreacionAfter` | src/main/java/com/santander/banking/repository/CuentaBancariaRepository.java:79 | exactly the rows created strictly after the date |
| `Repositorio.LimitesDeSaldo` | src/main/java/com/santander/banking/repository/CuentaBancariaRepository.java:64-72 | a row whose balance equals the bound is not "greater than" it but is "between" it and any bound on the other side |
| `Repositorio.FindByCriteriosMultiples` | src/main/java/com/santander/banking/repository/CuentaBancariaRepository.java:121-131 | exactly the rows meeting every given criterion: holder `LIKE`, type by name, balance ≥ minimum, flag equal; a null criterion is ignored |
| `Repositorio.CriteriosNulos` | src/main/java/com/santander/banking/repository/CuentaBancariaRepository.java:121-131 | with every criterion null, every row is returned |
| `Repositorio.CriteriosSonConjuncion` | src/main/java/com/santander/banking/repository/CuentaBancariaRepository.java:121-131 | the result is the intersection of the four one-criterion results |
| `Repositorio.CriteriosComoFinders` | src/main/java/com/santander/banking/repository/CuentaBancariaRepository.java:121-131 | the type criterion alone equals `findByTipoCuenta`, and the flag criterion `true` alone equals `findByActivaTrue` |
| `Repositorio.CriterioSaldoInclusivo` | src/main/java/com/santander/banking/repository/CuentaBancariaRepository.java:124 | a row is kept by the balance criterion alone iff its balance is above the minimum or equal to it |
| `Repositorio.MayusculasConcat` | src/main/java/com/santander/banking/repository/CuentaBancariaRepository.java:122 | upper-casing distributes over concatenation |
| `Repositorio.MayusculasSinComodines` | src/main/java/com/santander/banking/repository/CuentaBancariaRepository.java:122 | upper-casing adds no `%` or `_` |
| `Repositorio.CriterioTitularEsContiene` | src/main/java/com/santander/banking/repository/CuentaBancariaRepository.java:44-122 | for a holder query without `%` or `_`, the holder criterion alone equals `findByTitularContainingIgnoreCase` |
| `Repositorio.SumaEn` | src/main/java/com/santander/banking/repository/CuentaBancariaRepository.java:102 | the sum over no row is 0, and a sum of non-negative balances is non-negative |
| `Repositorio.SumaSaldos` | src/main/java/com/santander/banking/repository/CuentaBancariaRepository.java:102 | `COALESCE(SUM(saldo), 0)`: 0 on an empty result, non-negative when every balance is |
| `Repositorio.SumaEnQuitar` | src/main/java/com/santander/banking/repository/CuentaBancariaRepository.java:102 | the sum over a set is one member's balance plus the sum over the rest |
| `Repositorio.SumaEnParticion` | src/main/java/com/santander/banking/repository/CuentaBancariaRepository.java:102 | the sum over a set is the sum inside a part plus the sum outside it |
| `Repositorio.SumaEnCoincide` | src/main/java/com/santander/banking/repository/CuentaBancariaRepository.java:102 | the sum only depends on the rows summed |
| `Repositorio.SumaSeleccion` | src/main/java/com/santander/banking/repository/CuentaBancariaRepository.java:102 | the sum over a filtered result is the sum over its ids in the whole table |
| `Repositorio.ClavesParticion` | src/main/java/com/santander/banking/repository/CuentaBancariaRepository.java:95-103 | a filter and its negation split the keys into two disjoint parts that cover the table |
| `Repositorio.ParticionCantidad` | src/main/java/com/santander/banking/repository/CuentaBancariaRepository.java:95-103 | a filter and its negation split the row count |
| `Repositorio.ParticionSuma` | src/main/java/com/santander/banking/repository/CuentaBancariaRepository.java:95-103 | a filter and its negation split the balance total |
| `Repositorio.CountActiveCuentas` | src/main/java/com/santander/banking/repository/CuentaBancariaRepository.java:95-96 | the active count is at most the total, and the total minus it is the number of rows not active |
| `Repositorio.GetTotalSaldoActivo` | src/main/java/com/santander/banking/repository/CuentaBancariaRepository.java:102-103 | the active balance total is 0 when no row is active, and non-negative when no balance is negative |
| `Repositorio.SaldoTotalSeReparte` | src/main/java/com/santander/banking/repository/CuentaBancariaRepository.java:102-103 | the balance of all rows is the active total plus the total of the other rows |
| `Repositorio.ActivasEn` | src/main/java/com/santander/banking/repository/CuentaBancariaRepository.java:109-111 | the active rows of some types are rows of the table |
| `Repositorio.ActivasDeTipo` | src/main/java/com/santander/banking/repository/CuentaBancariaRepository.java:109-111 | the active rows of one type are rows of the table |
| `Repositorio.FilasPorTipo` | src/main/java/com/santander/banking/repository/CuentaBancariaRepository.java:109-111 | each group row holds its type's active count and active balance sum, and only types with an active row appear |
| `Repositorio.FilasPorTipoCabeza` | src/main/java/com/santander/banking/repository/CuentaBancariaRepository.java:109-111 | a first type with an active row heads the group rows |
| `Repositorio.FilasPorTipoCola` | src/main/java/com/santander/banking/repository/CuentaBancariaRepository.java:109-111 | the group rows of the remaining types are among the group rows |
| `Repositorio.FilasPorTipoCompletas` | src/main/java/com/santander/banking/repository/CuentaBancariaRepository.java:109-111 | every listed type with an active row has a group row |
| `Repositorio.TiposDistintosDelante` | src/main/java/com/santander/banking/repository/CuentaBancariaRepository.java:109-111 | prefixing a group row of a new type keeps the types distinct |
| `Repositorio.FilasPorTipoSinRepetir` | src/main/java/com/santander/banking/repository/CuentaBancariaRepository.java:109-111 | grouping over distinct types gives one group row per type |
| `Repositorio.TodosLosTipos` | src/main/java/com/santander/banking/entity/TipoCuenta.java:6-11 | every type is among the five the grouping visits |
| `Repositorio.GetEstadisticasPorTipoCuenta` | src/main/java/com/santander/banking/repository/CuentaBancariaRepository.java:109-111 | `GROUP BY tipoCuenta` over active rows: one row per type with an active account, carrying that type's count (> 0) and balance sum, and no other row |
| `Repositorio.TotalesConcat` | src/main/java/com/santander/banking/repository/CuentaBancariaRepository.java:109-111 | counts and sums over group rows add up across a concatenation |
| `Repositorio.ActivasEnCabeza` | src/main/java/com/santander/banking/repository/CuentaBancariaRepository.java:109-111 | the active rows of a list of types split into the first type's and the rest's, disjointly |
| `Repositorio.FilasPorTipoSuman` | src/main/java/com/santander/banking/repository/CuentaBancariaRepository.java:109-111 | the group rows' counts and sums add up to the count and sum of the active rows of those types |
| `Repositorio.EstadisticasPorTipoSuman` | src/main/java/com/santander/banking/repository/CuentaBancariaRepository.java:95-111 | the grouped counts add up to `countActiveCuentas` and the grouped sums to `getTotalSaldoActivo` |
| `Repositorio.TitularesDuplicadosSii` | src/main/java/com/santander/banking/repository/CuentaBancariaRepository.java:158-159 | a holder is returned iff two different rows, active or not, carry that exact holder |
| `Repositorio.MayusculasPrefijo` | src/main/java/com/santander/banking/repository/CuentaBancariaRepository.java:44 | upper-casing keeps prefixes |
| `Repositorio.PrefijoContenido` | src/main/java/com/santander/banking/repository/CuentaBancariaRepository.java:44 | a holder that starts with the query matches it ignoring case |
| `Repositorio.CoincidenLosJuan` | src/test/java/com/santander/banking/integration/CuentaBancariaControllerIntegrationTest.java:359-386 | "Juan" matches both "Juan Pérez" and "Juan López" ignoring case |
| `Repositorio.MayusculaJota` | src/test/java/com/santander/banking/integration/CuentaBancariaControllerIntegrationTest.java:359-386 | only `j` and `J` upper-case to `J` |
| `Repositorio.MayusculasSinJota` | src/test/java/com/santander/banking/integration/CuentaBancariaControllerIntegrationTest.java:359-386 | a string without `j` or `J` has no `J` once upper-cased |
| `Repositorio.NoContieneSinInicial` | src/test/java/com/santander/banking/integration/CuentaBancariaControllerIntegrationTest.java:359-386 | a string lacking the query's first character does not contain the query |
| `Repositorio.NoCoincideMariaGarcia` | src/test/java/com/santander/banking/integration/CuentaBancariaControllerIntegrationTest.java:359-386 | "Juan" does not match "María García" ignoring case |
| `Repositorio.FilaCoincide` | src/test/java/com/santander/banking/integration/CuentaBancariaControllerIntegrationTest.java:359-386 | a row held by "Juan Pérez" or "Juan López" is found by "Juan" |
| `Repositorio.FilaNoCoincide` | src/test/java/com/santander/banking/integration/CuentaBancariaControllerIntegrationTest.java:359-386 | a row held by "María García" is not found by "Juan" |
| `Repositorio.BusquedaPorTitularEjemplo` | src/test/java/com/santander/banking/integration/CuentaBancariaControllerIntegrationTest.java:359-386 | with the three holders of the test, "Juan" finds exactly the two Juans |
| `Repositorio.GuardarNueva` | src/main/java/com/santander/banking/entity/CuentaBancaria.java:13-46 | inserting runs `onCreate`, fails with the constraint violations if there are any, fails on a duplicate number, and otherwise stores the row under the next id and advances the counter; a failure changes nothing |
| `Repositorio.GuardarExistente` | src/main/java/com/santander/banking/entity/CuentaBancaria.java:13-46 | rewriting an unchanged row is a no-op; a changed row runs `onUpdate`, is checked against the constraints and the unique number, and replaces the stored row; the counter never moves |
| `Repositorio.Guardar` | src/main/java/com/santander/banking/repository/CuentaBancariaRepository.java:23 | `save` inserts a row without id and rewrites one with id; a success stores the returned entity under its id; a failure changes nothing |
| `Repositorio.InsercionValida` | src/main/java/com/santander/banking/entity/CuentaBancaria.java:14-20 | inserting a complete row with a fresh number under the next id keeps the table valid |
| `Repositorio.ReescrituraValida` | src/main/java/com/santander/banking/entity/CuentaBancaria.java:14-20 | rewriting a row with a complete row whose number no other row has keeps the table valid |
| `Repositorio.GuardarNuevaPreservaValidez` | src/main/java/com/santander/banking/entity/CuentaBancaria.java:14-20 | an insert keeps ids coherent, numbers unique and ids below the counter |
| `Repositorio.GuardarExistentePreservaValidez` | src/main/java/com/santander/banking/entity/CuentaBancaria.java:14-20 | a rewrite keeps the table valid |
| `Repositorio.GuardarPreservaValidez` | src/main/java/com/santander/banking/repository/CuentaBancariaRepository.java:23 | `save` keeps the table valid |
| `Repositorio.Desactivadas` | src/main/java/com/santander/banking/repository/CuentaBancariaRepository.java:149-152 | exactly the active rows with balance 0 and an update time before the limit become inactive with the new update time; every other row is unchanged |
| `Repositorio.DesactivarIdempotente` | src/main/java/com/santander/banking/repository/CuentaBancariaRepository.java:149-152 | after the update no row is a candidate for the same or an earlier limit, so running it again changes nothing |
| `Repositorio.ActivaTrasDesactivar` | src/main/java/com/santander/banking/repository/CuentaBancariaRepository.java:149-152 | a row is active after the update iff it was active and not a candidate |
| `Repositorio.ActivasTrasDesactivar` | src/main/java/com/santander/banking/repository/CuentaBancariaRepository.java:149-152 | the rows the update changes were all active, and the active rows afterwards are the earlier ones less those |
| `Repositorio.DesactivarCuentaActivas` | src/main/java/com/santander/banking/repository/CuentaBancariaRepository.java:149-152 | the active count drops by exactly the number of candidates |
| `Repositorio.RepositorioCuentas.constructor` | src/main/java/com/santander/banking/repository/CuentaBancariaRepository.java:23 | a new repository is empty, valid, with identities starting at 1 |
| `Repositorio.RepositorioCuentas.Save` | src/main/java/com/santander/banking/repository/CuentaBancariaRepository.java:23 | the store, counter, outcome and entity follow `Guardar`, and the store stays valid |
| `Repositorio.RepositorioCuentas.DeleteById` | src/main/java/com/santander/banking/repository/CuentaBancariaRepository.java:23 | a stored id is removed and nothing else changes; an absent id fails with an empty-result error and changes nothing |
| `Repositorio.RepositorioCuentas.UpdateSaldo` | src/main/java/com/santander/banking/repository/CuentaBancariaRepository.java:139-142 | an absent id updates 0 rows; a null balance fails on the `NOT NULL` column; otherwise that row's balance and update time are set with no entity check, returning 1 |
| `Repositorio.RepositorioCuentas.DesactivarCuentasInactivas` | src/main/java/com/santander/banking/repository/CuentaBancariaRepository.java:149-152 | the store becomes `Desactivadas` of the old one and the count returned is the number of candidates |
| `Servicio.Respuestas` | src/main/java/com/santander/banking/service/impl/CuentaBancariaServiceImpl.java:131-178 | a list result has one response per row found, each the response of a found row, and the response of every found row is in the list |
| `Servicio.Escribir` | src/main/java/com/santander/banking/service/impl/CuentaBancariaServiceImpl.java:191-203 | writing back a loaded entity succeeds iff it is unchanged or passes the entity checks; it then replaces that row and answers its response; otherwise it fails with the block's internal error and changes nothing; the store stays valid |
| `Servicio.FilaReemplazada` | src/main/java/com/santander/banking/service/impl/CuentaBancariaServiceImpl.java:182-356 | replacing a row changes that row only |
| `Servicio.Crear` | src/main/java/com/santander/banking/service/impl/CuentaBancariaServiceImpl.java:51-80 | the minimal check fails with IllegalArgument before the duplicate lookup; a stored number fails as a duplicate carrying it; a success stores exactly one new row under the next id, active, with the body's fields; a failure changes nothing |
| `Servicio.Actualizar` | src/main/java/com/santander/banking/service/impl/CuentaBancariaServiceImpl.java:182-204 | an absent id is not found; a blank holder or negative balance surfaces as the internal error, not IllegalArgument; with no body it succeeds; with a body it succeeds iff `updateEntityFromDTO` passes and the updated row is unchanged or writable; a success changes only that row's holder, balance and update time |
| `Servicio.ActualizarSaldo` | src/main/java/com/santander/banking/service/impl/CuentaBancariaServiceImpl.java:208-236 | a null or negative balance fails with IllegalArgument even for an absent id; then an absent id is not found; it succeeds iff the balance is present and non-negative, the id is stored and the row with that balance is unchanged or writable; a success sets exactly that balance on that row |
| `Servicio.Debitar` | src/main/java/com/santander/banking/service/impl/CuentaBancariaServiceImpl.java:241-275 | a non-positive amount fails first, then an absent id, then an insufficient balance carrying balance and amount; it succeeds iff the amount is covered and the reduced row is writable, and then only that row's balance drops by the amount |
| `Servicio.Acreditar` | src/main/java/com/santander/banking/service/impl/CuentaBancariaServiceImpl.java:280-308 | a non-positive amount fails first, then an absent id; it succeeds iff the increased row is writable, and then only that row's balance rises by the amount |
| `Servicio.CambiarActiva` | src/main/java/com/santander/banking/service/impl/CuentaBancariaServiceImpl.java:311-356 | an absent id is not found; it succeeds iff the id is stored and the row with the new flag is unchanged or writable; a success sets only that row's flag and update time |
| `Servicio.Eliminar` | src/main/java/com/santander/banking/service/impl/CuentaBancariaServiceImpl.java:359-375 | it succeeds iff the id is stored; that row is removed and every other row kept; an absent id is not found and changes nothing |
| `Servicio.CalcularEstadisticas` | src/main/java/com/santander/banking/service/impl/CuentaBancariaServiceImpl.java:379-405 | the totals are the row count and the active count; inactive = total − active; the balance is the active sum; average × active = total when there are active rows, and 0 otherwise |
| `Servicio.EntradaDe` | src/main/java/com/santander/banking/service/impl/CuentaBancariaServiceImpl.java:418-427 | an entry keeps the group's count and sum, takes the type's label, and its average × count = sum (0 when empty) |
| `Servicio.EntradasPorTipo` | src/main/java/com/santander/banking/service/impl/CuentaBancariaServiceImpl.java:417-430 | the loop filling the `HashMap` has one key per group row, holding that row's entry |
| `Servicio.ServicioCuentas.constructor` | src/main/java/com/santander/banking/service/impl/CuentaBancariaServiceImpl.java:43-46 | the service works on the given valid repository |
| `Servicio.ServicioCuentas.Cargar` | src/main/java/com/santander/banking/service/impl/CuentaBancariaServiceImpl.java:185-189 | the entity is loaded iff its id is stored, as a fresh object holding that row |
| `Servicio.ServicioCuentas.GuardarCargada` | src/main/java/com/santander/banking/service/impl/CuentaBancariaServiceImpl.java:191-203 | the store and result follow `Escribir` |
| `Servicio.ServicioCuentas.CrearCuenta` | src/main/java/com/santander/banking/service/impl/CuentaBancariaServiceImpl.java:51-80 | the store and result follow `Crear` |
| `Servicio.ServicioCuentas.ObtenerCuentaPorId` | src/main/java/com/santander/banking/service/impl/CuentaBancariaServiceImpl.java:85-96 | found iff the id is stored, answering that row's response; otherwise not found by id |
| `Servicio.ServicioCuentas.ObtenerCuentaPorNumero` | src/main/java/com/santander/banking/service/impl/CuentaBancariaServiceImpl.java:101-112 | found iff some row has the number, answering that row's response; otherwise not found by number |
| `Servicio.ServicioCuentas.ActualizarCuenta` | src/main/java/com/santander/banking/service/impl/CuentaBancariaServiceImpl.java:182-204 | the store and result follow `Actualizar` |
| `Servicio.ServicioCuentas.ActualizarSaldoCuenta` | src/main/java/com/santander/banking/service/impl/CuentaBancariaServiceImpl.java:208-236 | the store and result follow `ActualizarSaldo` |
| `Servicio.ServicioCuentas.DebitarCuenta` | src/main/java/com/santander/banking/service/impl/CuentaBancariaServiceImpl.java:241-275 | the store and result follow `Debitar` |
| `Servicio.ServicioCuentas.AcreditarCuenta` | src/main/java/com/santander/banking/service/impl/CuentaBancariaServiceImpl.java:280-308 | the store and result follow `Acreditar` |
| `Servicio.ServicioCuentas.ActivarCuenta` | src/main/java/com/santander/banking/service/impl/CuentaBancariaServiceImpl.java:311-332 | the store and result follow `CambiarActiva` with true |
| `Servicio.ServicioCuentas.DesactivarCuenta` | src/main/java/com/santander/banking/service/impl/CuentaBancariaServiceImpl.java:335-356 | the store and result follow `CambiarActiva` with false |
| `Servicio.ServicioCuentas.EliminarCuenta` | src/main/java/com/santander/banking/service/impl/CuentaBancariaServiceImpl.java:359-375 | the store and result follow `Eliminar` |
| `Servicio.ServicioCuentas.BuscarCuentasPorTitular` | src/main/java/com/santander/banking/service/impl/CuentaBancariaServiceImpl.java:131-139 | the list holds one response per account the holder search finds, each that of a found account, every found account's response present, and each shows a holder containing the searched text case-insensitively |
| `Servicio.ServicioCuentas.BuscarCuentasPorTipo` | src/main/java/com/santander/banking/service/impl/CuentaBancariaServiceImpl.java:143-151 | the list holds one response per account of the type, each that of such an account, every such account's response present, and each of that type |
| `Servicio.ServicioCuentas.ObtenerCuentasActivas` | src/main/java/com/santander/banking/service/impl/CuentaBancariaServiceImpl.java:155-163 | the list holds one response per active account, each that of an active account, every active account's response present; its length is the active count and each response is active |
| `Servicio.RespuestaCumpleCriterios` | src/main/java/com/santander/banking/util/CuentaBancariaMapper.java:46-62 | the response of a row meeting the holder, type, balance and flag criteria meets them too |
| `Servicio.FilasCumplenCriterios` | src/main/java/com/santander/banking/repository/CuentaBancariaRepository.java:121-131 | every row the multi-criteria query finds for a type given by its enum name meets the holder, type, balance and flag criteria |
| `Servicio.RespuestasCumplenCriterios` | src/main/java/com/santander/banking/service/impl/CuentaBancariaServiceImpl.java:167-178 | when every row found meets the criteria, every response in the list meets them |
| `Servicio.ServicioCuentas.BuscarConCriterios` | src/main/java/com/santander/banking/service/impl/CuentaBancariaServiceImpl.java:167-178 | the list holds one response per account the multi-criteria query finds (the type passed by its name), each that of a found account, every found account's response present, and each meeting the holder, type, balance and flag criteria given |
| `Servicio.ServicioCuentas.ObtenerEstadisticas` | src/main/java/com/santander/banking/service/impl/CuentaBancariaServiceImpl.java:379-405 | total, active and inactive counts, the non-negative active total and its average (0 with no active account), reading nothing else and changing nothing |
| `Servicio.ServicioCuentas.ObtenerEstadisticasPorTipo` | src/main/java/com/santander/banking/service/impl/CuentaBancariaServiceImpl.java:409-440 | a type is a key iff it has an active account, and its entry is built from that type's active count and sum |
| `Servicio.ServicioCuentas.ExisteNumeroCuenta` | src/main/java/com/santander/banking/service/impl/CuentaBancariaServiceImpl.java:444-447 | true iff some stored account has that exact number |
| `Servicio.ServicioCuentas.ObtenerTitularesConCuentasDuplicadas` | src/main/java/com/santander/banking/service/impl/CuentaBancariaServiceImpl.java:451-459 | exactly the holders of two or more accounts |
| `PropiedadesServicio.CrearLuegoConsultar` | src/main/java/com/santander/banking/service/impl/CuentaBancariaServiceImpl.java:51-96 | a valid body with a fresh number is stored under the next id, active, with its fields, and reading that id back gives the response the creation returned |
| `PropiedadesServicio.CrearDosVeces` | src/test/java/com/santander/banking/integration/CuentaBancariaControllerIntegrationTest.java:110-128 | after a successful creation, creating again with the same number fails as a duplicate carrying that number |
| `PropiedadesServicio.DigitosResta` | src/main/java/com/santander/banking/entity/CuentaBancaria.java:35 | the difference of two amounts with two decimals has two decimals |
| `PropiedadesServicio.SaldoTrasDebito` | src/main/java/com/santander/banking/entity/CuentaBancaria.java:32-36 | a covered debit of a two-decimal amount leaves a balance the column accepts |
| `PropiedadesServicio.SaldoEscribible` | src/main/java/com/santander/banking/entity/CuentaBancaria.java:32-36 | changing only a stored row's balance to an accepted value gives a writable row |
| `PropiedadesServicio.DebitoAdmitido` | src/main/java/com/santander/banking/service/impl/CuentaBancariaServiceImpl.java:241-275 | a positive covered amount whose reduced row is writable is debited |
| `PropiedadesServicio.CreditoAdmitido` | src/main/java/com/santander/banking/service/impl/CuentaBancariaServiceImpl.java:280-308 | a positive amount whose increased row is writable is credited |
| `PropiedadesServicio.ActivaEscribible` | src/main/java/com/santander/banking/entity/CuentaBancaria.java:22-46 | changing only a stored row's flag gives a writable row |
| `PropiedadesServicio.CambiarActivaAdmitida` | src/main/java/com/santander/banking/service/impl/CuentaBancariaServiceImpl.java:311-356 | on a valid store, activating or deactivating a stored account succeeds and leaves the flag as asked |
| `PropiedadesServicio.ActualizarSaldoAdmitido` | src/main/java/com/santander/banking/service/impl/CuentaBancariaServiceImpl.java:208-236 | on a valid store, setting a stored account's balance to a value the column accepts succeeds and stores it |
| `PropiedadesServicio.ActualizacionEscribible` | src/main/java/com/santander/banking/util/CuentaBancariaMapper.java:87-107 | `updateEntityFromDTO` with a body that passes `@Valid` passes, and the row it makes from a stored row is writable |
| `PropiedadesServicio.ActualizarAdmitida` | src/main/java/com/santander/banking/service/impl/CuentaBancariaServiceImpl.java:182-204 | on a valid store, updating a stored account with a body that passes `@Valid` succeeds, stores the trimmed holder and the given balance (or keeps the old one) and changes no other row |
| `PropiedadesServicio.DebitoEfecto` | src/main/java/com/santander/banking/service/impl/CuentaBancariaServiceImpl.java:241-275 | on a valid store, debiting a positive two-decimal amount the balance covers succeeds and writes the row with the reduced balance |
| `PropiedadesServicio.DebitoEscribible` | src/main/java/com/santander/banking/service/impl/CuentaBancariaServiceImpl.java:241-275 | the row such a debit writes is writable |
| `PropiedadesServicio.RestauracionEscribible` | src/main/java/com/santander/banking/service/impl/CuentaBancariaServiceImpl.java:280-308 | after a debit, crediting the same amount back writes a writable row |
| `PropiedadesServicio.CreditoRestaura` | src/main/java/com/santander/banking/service/impl/CuentaBancariaServiceImpl.java:280-308 | crediting back the amount a debit took succeeds and leaves the store as before the debit except for the row's update time |
| `PropiedadesServicio.RestauracionEsOriginal` | src/main/java/com/santander/banking/entity/CuentaBancaria.java:113-130 | subtracting and adding back an amount restores the row up to its update time |
| `PropiedadesServicio.DebitarLuegoAcreditar` | src/main/java/com/santander/banking/service/impl/CuentaBancariaServiceImpl.java:241-308 | a covered debit followed by a credit of the same amount both succeed, and the store ends as it was except for that row's update time |
| `PropiedadesServicio.EliminarLuegoConsultar` | src/test/java/com/santander/banking/integration/CuentaBancariaControllerIntegrationTest.java:307-328 | after a deletion, looking the id up is not found |
| `PropiedadesServicio.EstadisticasSinCuentas` | src/main/java/com/santander/banking/service/impl/CuentaBancariaServiceImpl.java:385-394 | with no account, every statistic is zero, with no division |
| `Manejador.Responder` | src/main/java/com/santander/banking/exception/GlobalExceptionHandler.java:211-241 | the body and the response carry the same status, with the given code, message, path and time |
| `Manejador.ConstruirMapa` | src/main/java/com/santander/banking/exception/GlobalExceptionHandler.java:99-104 | the loop `put`ting each field error into an empty map builds the left-to-right fold `MapaErrores` |
| `Manejador.MapaErroresClaves` | src/main/java/com/santander/banking/exception/GlobalExceptionHandler.java:99-104 | the map's keys are exactly the fields with an error |
| `Manejador.MapaErroresUltimo` | src/main/java/com/santander/banking/exception/GlobalExceptionHandler.java:128-134 | a field's value is the message of its last error: a later error overwrites an earlier one |
| `Manejador.ErrorPara` | src/main/java/com/santander/banking/exception/GlobalExceptionHandler.java:33-206 | every response's body status equals its HTTP status, which is 400, 404, 409 or 500; 404 iff not found; 409 iff duplicate or IllegalState; 500 iff no dedicated handler; each handler's error code (`CUENTA_NO_ENCONTRADA`, `CUENTA_DUPLICADA`, `SALDO_INSUFICIENTE`, `DATOS_INVALIDOS`, `RESTRICCIONES_VIOLADAS`, `ARGUMENTO_INVALIDO`, `ESTADO_INVALIDO`, `ERROR_INTERNO`); the handlers for not-found, duplicate, insufficient balance, IllegalArgument and IllegalState pass the exception's message; the two validation handlers send their fixed message and the map of their field errors, and no other handler sends a map; the generic handler sends its fixed message |
| `Manejador.CodigoIdentificaClase` | src/main/java/com/santander/banking/exception/GlobalExceptionHandler.java:33-206 | two failures answered with the same code are of the same kind |
| `Manejador.GenericaNoFiltra` | src/main/java/com/santander/banking/exception/GlobalExceptionHandler.java:191-206 | every failure without a dedicated handler gets the same response, with the fixed generic message, whatever its own message |
| `Manejador.NoEncontradaResponde` | src/main/java/com/santander/banking/exception/GlobalExceptionHandler.java:33-48 | a missing id answers 404 `CUENTA_NO_ENCONTRADA` with a message containing the id |
| `Manejador.DuplicadaResponde` | src/main/java/com/santander/banking/exception/GlobalExceptionHandler.java:53-68 | a duplicate answers 409 `CUENTA_DUPLICADA` with a message containing the number |
| `Manejador.CuerpoInvalidoResponde` | src/main/java/com/santander/banking/exception/GlobalExceptionHandler.java:93-116 | a body refused by `@Valid` answers 400 `DATOS_INVALIDOS` with one map entry per field in error |
| `Manejador.CincoCamposResponden` | src/test/java/com/santander/banking/integration/CuentaBancariaControllerIntegrationTest.java:88-108 | the five-field invalid body answers 400 `DATOS_INVALIDOS` with entries for exactly its five fields |

## Left out

- HTTP routing, Swagger and the controller's parameter guards (`@Min(1)`, `@DecimalMin("0.01")`) are framework checks outside the service. The service is modelled on any input.
- The internal consultation controller and its `RestTemplate` configuration are outbound network calls.
- `obtenerTodasLasCuentas` and `findByTitularContainingIgnoreCaseAndTipoCuenta` return a Spring Data `Page`. Their pagination and sorting by an arbitrary field name are library behaviour.
- Transactions, metrics and logging are not modelled. The model is single-threaded, and each operation is atomic: a failure restores the store it found.
- `LocalDateTime.now()` and the request path are parameters. `CURRENT_TIMESTAMP` in the `@Modifying` queries is the same clock value.
- Balances are exact `real`s. `BigDecimal` scale is ignored; two balances are equal when `compareTo` says so.
- The `ArithmeticException` that `BigDecimal.divide` raises for a non-terminating average is not modelled. It would surface as the internal error of the statistics block. The model divides exactly.
- `String.format("%.2f")` in the insufficient-balance message is modelled as half-up rounding to two decimals with `.` as the separator. Locale-dependent separators are not modelled.
- The order of Bean Validation's violations is unspecified (a `HashSet`). The model lists them in field-declaration order.
- The SQL `LIKE` escape character is database-specific and is not modelled. `%` and `_` in a query act as wildcards.
- List results of queries without `ORDER BY` have no order in the source. The model returns them in id order.
- `findTitularesConCuentasDuplicadas` returns a list in the source. Its model is the set of holders, because `GROUP BY` yields each holder once.
- Hibernate's flush timing is not modelled. A rewrite is checked and written when `save` is called.
- `PropiedadesServicio.DebitarLuegoAcreditar` requires an amount with at most two decimals. Any other amount leaves a balance the `@Digits` constraint refuses, so the debit fails as an internal error.
- `Texto` models `String.trim`, `toUpperCase` and `LIKE` over single characters. It does not model locale-specific case mappings that change length (such as `ß` to `SS`).
- `Texto.Mayuscula` upper-cases only `a`–`z`, the Latin-1 lower-case letters `à`–`þ` (except `÷`) and `ÿ`. Every other character is kept, although Java's `toUpperCase` and SQL `UPPER` also map `ı`, `ſ`, `µ`, the Latin Extended letters (`ā`, `ł`, …), Greek, Cyrillic and other scripts. Holder searches (`FindByTitularContainingIgnoreCase`, the holder criterion of `FindByCriteriosMultiples`) therefore ignore case only for Latin-1 text. Unicode's full case table is not modelled.
