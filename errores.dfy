/** The failures the banking core raises, one constructor per exception
    kind that reaches the global handler. */
module Errores {
  import opened Texto

  /** How a missing account was looked up. */
  datatype Clave = PorId(id: int) | PorNumero(numero: string)

  /** One field-level validation message. */
  datatype ErrorCampo = ErrorCampo(campo: string, mensaje: string)

  datatype Falla =
    /** `CuentaBancariaNotFoundException`. */
    | NoEncontrada(clave: Clave)
    /** `CuentaDuplicadaException`, whose message is the account number. */
    | Duplicada(numeroCuenta: string)
    /** `SaldoInsuficienteException`, raised before the entity is touched. */
    | SaldoInsuficiente(saldoActual: real, montoRequerido: real)
    /** `IllegalArgumentException`. */
    | ArgumentoInvalido(mensaje: string)
    /** `IllegalStateException`. */
    | EstadoInvalido(mensaje: string)
    /** `MethodArgumentNotValidException`: a `@Valid` request body broke its
        field constraints. */
    | DatosInvalidos(errores: seq<ErrorCampo>)
    /** `ConstraintViolationException`. */
    | RestriccionesVioladas(violaciones: seq<ErrorCampo>)
    /** A `NullPointerException`: a mutator dereferenced a null balance. */
    | ReferenciaNula
    /** A `DataIntegrityViolationException`: the database refused a write
        (duplicate account number, null in a `NOT NULL` column). */
    | ViolacionIntegridad
    /** An `EmptyResultDataAccessException`: `deleteById` found no row. */
    | ResultadoVacio(id: int)
    /** Any other exception, such as the `RuntimeException` the service wraps
        around whatever fails inside its `try` blocks. */
    | Interna(mensaje: string)

  /** The failures whose handler passes the exception's own message on to
      the client. */
  predicate PasaMensaje(f: Falla) {
    f.NoEncontrada? || f.Duplicada? || f.SaldoInsuficiente? || f.ArgumentoInvalido? || f.EstadoInvalido?
  }

  /** The exception's `getMessage()`, for the kinds whose handler uses it. */
  function Mensaje(f: Falla): string
    requires PasaMensaje(f)
  {
    match f
    case NoEncontrada(PorId(id)) => "Cuenta bancaria no encontrada con ID: " + EnteroATexto(id)
    case NoEncontrada(PorNumero(n)) => "Cuenta bancaria no encontrada con número: " + n
    case Duplicada(n) => n
    case SaldoInsuficiente(saldo, monto) =>
      "Saldo insuficiente. Saldo actual: " + FormatoDosDecimales(saldo)
      + ", Monto requerido: " + FormatoDosDecimales(monto)
    case ArgumentoInvalido(m) => m
    case EstadoInvalido(m) => m
  }

  /** The not-found message names the identifier that was looked up, so two
      different identifiers never give the same message. */
  lemma MensajeNoEncontradaInyectivo(a: int, b: int)
    requires Mensaje(NoEncontrada(PorId(a))) == Mensaje(NoEncontrada(PorId(b)))
    ensures a == b
  {
    var p := "Cuenta bancaria no encontrada con ID: ";
    assert EnteroATexto(a) == Mensaje(NoEncontrada(PorId(a)))[|p|..];
    assert EnteroATexto(b) == Mensaje(NoEncontrada(PorId(b)))[|p|..];
    EnteroATextoInyectiva(a, b);
  }

  /** The not-found message ends with the decimal rendering of the id
      (the integration test looks for "999" in it). */
  lemma MensajeNoEncontradaContieneId(id: int)
    ensures Contiene(Mensaje(NoEncontrada(PorId(id))), EnteroATexto(id))
  {
    var m := Mensaje(NoEncontrada(PorId(id)));
    var i := |"Cuenta bancaria no encontrada con ID: "|;
    assert EnteroATexto(id) <= m[i..];
  }
}
