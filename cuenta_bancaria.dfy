/** The bank-account entity: its persisted fields, the bean-validation
    constraints checked when it is written, its guarded mutators, its JPA
    lifecycle callbacks, equality by account number, and its builder.

    Every mutator is first given as a pure transition on the row value
    `Cuenta`; the methods of class `CuentaBancaria` update the object's
    fields in place and are proved to follow those transitions. */
module Entidad {
  import opened Wrappers
  import opened Texto
  import opened TipoCuentas
  import opened Errores

  /** A `LocalDateTime`, as supplied by the caller's clock. */
  type Instante = int

  /** A snapshot of every field of the entity; Java nulls are `None`.
      The account number, holder and type are never null once the builder
      has run, so they carry no option. */
  datatype Cuenta = Cuenta(
    id: Option<int>,
    numeroCuenta: string,
    titular: string,
    saldo: Option<real>,
    tipoCuenta: TipoCuenta,
    moneda: Option<string>,
    fechaCreacion: Option<Instante>,
    fechaActualizacion: Option<Instante>,
    activa: Option<bool>)

  const MSG_SALDO_NEGATIVO := "El saldo no puede ser negativo"
  const MSG_TITULAR_VACIO := "El titular no puede estar vacío"
  const MSG_DEBITO_POSITIVO := "El monto a debitar debe ser positivo"
  const MSG_SALDO_INSUFICIENTE := "Saldo insuficiente para realizar la operación"
  const MSG_CREDITO_POSITIVO := "El monto a acreditar debe ser positivo"

  // ---------------------------------------------------------------------
  // Constraints checked by Bean Validation before an insert or an update

  /** 10^13: `@Digits(integer = 13)` admits magnitudes below it. */
  const TOPE_ENTEROS: real := 10000000000000.0

  /** `@Digits(integer = 13, fraction = 2)`: at most 13 integer digits and
      at most two decimals once trailing zeros are stripped. */
  predicate DigitosValidos(v: real) {
    -TOPE_ENTEROS < v < TOPE_ENTEROS && (v * 100.0).Floor as real == v * 100.0
  }

  predicate EsMayusculaAscii(c: char) {
    'A' <= c <= 'Z'
  }

  /** `@Pattern(regexp = "[A-Z]{3}")`, matched against the whole value. */
  predicate CodigoMoneda(m: string) {
    |m| == 3 && forall k :: 0 <= k < 3 ==> EsMayusculaAscii(m[k])
  }

  predicate NumeroValido(n: string) {
    !EsBlanco(n) && 10 <= LongitudJava(n) <= 20
  }

  predicate TitularValido(t: string) {
    !EsBlanco(t) && LongitudJava(t) <= 100
  }

  predicate SaldoValido(s: Option<real>) {
    s.Some? && s.value >= 0.0 && DigitosValidos(s.value)
  }

  predicate MonedaValida(m: Option<string>) {
    m.Some? && !EsBlanco(m.value) && CodigoMoneda(m.value)
  }

  /** The constraints of the entity's annotated fields, stated field by
      field. */
  predicate CumpleRestricciones(c: Cuenta) {
    NumeroValido(c.numeroCuenta) && TitularValido(c.titular) && SaldoValido(c.saldo) && MonedaValida(c.moneda)
  }

  function ViolacionesNumero(n: string): (r: seq<ErrorCampo>)
    ensures r == [] <==> NumeroValido(n)
    ensures forall k :: 0 <= k < |r| ==> r[k].campo == "numeroCuenta"
  {
    (if EsBlanco(n) then [ErrorCampo("numeroCuenta", "El número de cuenta no puede estar vacío")] else [])
    + (if !(10 <= LongitudJava(n) <= 20)
       then [ErrorCampo("numeroCuenta", "El número de cuenta debe tener entre 10 y 20 caracteres")] else [])
  }

  function ViolacionesTitular(t: string): (r: seq<ErrorCampo>)
    ensures r == [] <==> TitularValido(t)
    ensures forall k :: 0 <= k < |r| ==> r[k].campo == "titular"
  {
    (if EsBlanco(t) then [ErrorCampo("titular", MSG_TITULAR_VACIO)] else [])
    + (if LongitudJava(t) > 100
       then [ErrorCampo("titular", "El nombre del titular no puede exceder 100 caracteres")] else [])
  }

  function ViolacionesSaldo(s: Option<real>): (r: seq<ErrorCampo>)
    ensures r == [] <==> SaldoValido(s)
    ensures forall k :: 0 <= k < |r| ==> r[k].campo == "saldo"
  {
    match s
    case None => [ErrorCampo("saldo", "El saldo no puede ser nulo")]
    case Some(v) =>
      (if v < 0.0 then [ErrorCampo("saldo", MSG_SALDO_NEGATIVO)] else [])
      + (if !DigitosValidos(v)
         then [ErrorCampo("saldo", "El saldo debe tener máximo 13 dígitos enteros y 2 decimales")] else [])
  }

  function ViolacionesMoneda(m: Option<string>): (r: seq<ErrorCampo>)
    ensures r == [] <==> MonedaValida(m)
    ensures forall k :: 0 <= k < |r| ==> r[k].campo == "moneda"
  {
    match m
    case None => [ErrorCampo("moneda", "La moneda no puede estar vacía")]
    case Some(v) =>
      (if EsBlanco(v) then [ErrorCampo("moneda", "La moneda no puede estar vacía")] else [])
      + (if !CodigoMoneda(v)
         then [ErrorCampo("moneda", "La moneda debe ser un código ISO de 3 letras mayúsculas")] else [])
  }

  /** The constraint violations Bean Validation reports for a row, with the
      annotations' messages, field by field in declaration order (the type
      is never null here, so its `@NotNull` never fires). */
  function Violaciones(c: Cuenta): (r: seq<ErrorCampo>)
    ensures r == [] <==> CumpleRestricciones(c)
  {
    ViolacionesNumero(c.numeroCuenta) + ViolacionesTitular(c.titular)
    + ViolacionesSaldo(c.saldo) + ViolacionesMoneda(c.moneda)
  }

  /** The `NOT NULL` columns that the callbacks and the builder leave to the
      row: every stored row has a balance, a currency, a creation date and
      an active flag. */
  predicate ColumnasNoNulas(c: Cuenta) {
    c.saldo.Some? && c.moneda.Some? && c.fechaCreacion.Some? && c.activa.Some?
  }

  // ---------------------------------------------------------------------
  // Transitions of the mutators and callbacks, on row values

  /** `setSaldo`: a present, non-negative balance is stored exactly and the
      update time refreshed; anything else is refused and changes nothing. */
  function CambioSaldo(c: Cuenta, nuevo: Option<real>, ahora: Instante): (r: Result<Cuenta, Falla>)
    ensures r.Success? <==> nuevo.Some? && nuevo.value >= 0.0
    ensures r.Success? ==> r.value.saldo == nuevo && r.value.fechaActualizacion == Some(ahora)
    ensures r.Failure? ==> r.error == ArgumentoInvalido(MSG_SALDO_NEGATIVO)
  {
    if nuevo.Some? && nuevo.value >= 0.0
    then Success(c.(saldo := nuevo, fechaActualizacion := Some(ahora)))
    else Failure(ArgumentoInvalido(MSG_SALDO_NEGATIVO))
  }

  /** `setTitular`: a present, non-blank holder is stored trimmed. */
  function CambioTitular(c: Cuenta, nuevo: Option<string>, ahora: Instante): (r: Result<Cuenta, Falla>)
    ensures r.Success? <==> nuevo.Some? && !EsBlanco(nuevo.value)
    ensures r.Success? ==> r.value.titular == Trim(nuevo.value) && r.value.fechaActualizacion == Some(ahora)
    ensures r.Failure? ==> r.error == ArgumentoInvalido(MSG_TITULAR_VACIO)
  {
    if nuevo.Some? && !EsBlanco(nuevo.value)
    then Success(c.(titular := Trim(nuevo.value), fechaActualizacion := Some(ahora)))
    else Failure(ArgumentoInvalido(MSG_TITULAR_VACIO))
  }

  /** `activar`. */
  function Activacion(c: Cuenta, ahora: Instante): Cuenta {
    c.(activa := Some(true), fechaActualizacion := Some(ahora))
  }

  /** `desactivar`. */
  function Desactivacion(c: Cuenta, ahora: Instante): Cuenta {
    c.(activa := Some(false), fechaActualizacion := Some(ahora))
  }

  predicate MontoPositivo(monto: Option<real>) {
    monto.Some? && monto.value > 0.0
  }

  /** `debitar`: the amount is checked first, then the funds; the balance
      is read without a null check, so a row without balance fails with a
      null dereference. */
  function Debito(c: Cuenta, monto: Option<real>, ahora: Instante): (r: Result<Cuenta, Falla>)
    ensures !MontoPositivo(monto) ==> r == Failure(ArgumentoInvalido(MSG_DEBITO_POSITIVO))
    ensures MontoPositivo(monto) && c.saldo.None? ==> r == Failure(ReferenciaNula)
    ensures MontoPositivo(monto) && c.saldo.Some? && c.saldo.value < monto.value ==>
              r == Failure(EstadoInvalido(MSG_SALDO_INSUFICIENTE))
    ensures r.Success? <==> MontoPositivo(monto) && c.saldo.Some? && monto.value <= c.saldo.value
    ensures r.Success? ==>
              MontoPositivo(monto) && c.saldo.Some? && r.value.saldo.Some?
              && r.value.saldo.value == c.saldo.value - monto.value && r.value.saldo.value >= 0.0
              && r.value.fechaActualizacion == Some(ahora)
  {
    if !MontoPositivo(monto) then Failure(ArgumentoInvalido(MSG_DEBITO_POSITIVO))
    else if c.saldo.None? then Failure(ReferenciaNula)
    else if c.saldo.value < monto.value then Failure(EstadoInvalido(MSG_SALDO_INSUFICIENTE))
    else Success(c.(saldo := Some(c.saldo.value - monto.value), fechaActualizacion := Some(ahora)))
  }

  /** `acreditar`: no upper bound on the balance. */
  function Credito(c: Cuenta, monto: Option<real>, ahora: Instante): (r: Result<Cuenta, Falla>)
    ensures !MontoPositivo(monto) ==> r == Failure(ArgumentoInvalido(MSG_CREDITO_POSITIVO))
    ensures MontoPositivo(monto) && c.saldo.None? ==> r == Failure(ReferenciaNula)
    ensures r.Success? <==> MontoPositivo(monto) && c.saldo.Some?
    ensures r.Success? ==>
              MontoPositivo(monto) && c.saldo.Some? && r.value.saldo.Some?
              && r.value.saldo.value == c.saldo.value + monto.value && r.value.saldo.value > c.saldo.value
              && r.value.fechaActualizacion == Some(ahora)
  {
    if !MontoPositivo(monto) then Failure(ArgumentoInvalido(MSG_CREDITO_POSITIVO))
    else if c.saldo.None? then Failure(ReferenciaNula)
    else Success(c.(saldo := Some(c.saldo.value + monto.value), fechaActualizacion := Some(ahora)))
  }

  /** `@PrePersist onCreate`. */
  function AlCrear(c: Cuenta, ahora: Instante): (r: Cuenta)
    ensures r.activa.Some?
  {
    c.(fechaCreacion := Some(ahora), fechaActualizacion := Some(ahora),
       activa := if c.activa.None? then Some(true) else c.activa)
  }

  /** `@PreUpdate onUpdate`. */
  function AlActualizar(c: Cuenta, ahora: Instante): Cuenta {
    c.(fechaActualizacion := Some(ahora))
  }

  /** The fields that identify an account and that no mutator touches. */
  predicate MismaIdentidad(a: Cuenta, b: Cuenta) {
    a.id == b.id && a.numeroCuenta == b.numeroCuenta && a.tipoCuenta == b.tipoCuenta
    && a.moneda == b.moneda && a.fechaCreacion == b.fechaCreacion
  }

  // ---------------------------------------------------------------------
  // Properties of the transitions

  /** A successful transition is determined by the fields it names: every
      other field is carried over. */
  lemma SoloCambiaLoNombrado(c: Cuenta, ahora: Instante, v: Option<real>, t: Option<string>, m: Option<real>)
    ensures CambioSaldo(c, v, ahora).Success? ==>
              CambioSaldo(c, v, ahora).value == c.(saldo := v, fechaActualizacion := Some(ahora))
    ensures CambioTitular(c, t, ahora).Success? ==>
              CambioTitular(c, t, ahora).value == c.(titular := Trim(t.value), fechaActualizacion := Some(ahora))
    ensures Debito(c, m, ahora).Success? ==>
              Debito(c, m, ahora).value == c.(saldo := Debito(c, m, ahora).value.saldo, fechaActualizacion := Some(ahora))
    ensures Credito(c, m, ahora).Success? ==>
              Credito(c, m, ahora).value == c.(saldo := Credito(c, m, ahora).value.saldo, fechaActualizacion := Some(ahora))
    ensures Activacion(c, ahora).activa == Some(true) && Desactivacion(c, ahora).activa == Some(false)
    ensures MismaIdentidad(c, Activacion(c, ahora)) && MismaIdentidad(c, Desactivacion(c, ahora))
    ensures Activacion(c, ahora).saldo == c.saldo && Desactivacion(c, ahora).saldo == c.saldo
    ensures Activacion(c, ahora).titular == c.titular && Desactivacion(c, ahora).titular == c.titular
  {
  }

  /** `setSaldo(0)` is accepted: zero is a legal balance. */
  lemma CeroEsSaldoValido(c: Cuenta, ahora: Instante)
    ensures CambioSaldo(c, Some(0.0), ahora) == Success(c.(saldo := Some(0.0), fechaActualizacion := Some(ahora)))
  {
  }

  /** Debiting exactly the balance leaves zero. */
  lemma DebitoTotalDejaCero(c: Cuenta, ahora: Instante)
    requires c.saldo.Some? && c.saldo.value > 0.0
    ensures Debito(c, c.saldo, ahora).Success?
    ensures Debito(c, c.saldo, ahora).value.saldo == Some(0.0)
  {
  }

  /** The balance is never negative at rest. */
  predicate SaldoNoNegativo(c: Cuenta) {
    c.saldo.Some? ==> c.saldo.value >= 0.0
  }

  /** A debit of `m` followed by a credit of `m` restores the balance. */
  lemma DebitoLuegoCredito(c: Cuenta, m: real, t1: Instante, t2: Instante)
    requires Debito(c, Some(m), t1).Success?
    ensures Credito(Debito(c, Some(m), t1).value, Some(m), t2).Success?
    ensures Credito(Debito(c, Some(m), t1).value, Some(m), t2).value.saldo == c.saldo
  {
  }

  /** On a non-negative balance, a credit of `m` followed by a debit of `m`
      restores the balance too. */
  lemma CreditoLuegoDebito(c: Cuenta, m: real, t1: Instante, t2: Instante)
    requires SaldoNoNegativo(c) && Credito(c, Some(m), t1).Success?
    ensures Debito(Credito(c, Some(m), t1).value, Some(m), t2).Success?
    ensures Debito(Credito(c, Some(m), t1).value, Some(m), t2).value.saldo == c.saldo
  {
  }

  /** A non-negative balance stays non-negative through every mutator. */
  lemma SaldoNoNegativoSePreserva(c: Cuenta, ahora: Instante, v: Option<real>, t: Option<string>, m: Option<real>)
    requires SaldoNoNegativo(c)
    ensures CambioSaldo(c, v, ahora).Success? ==> SaldoNoNegativo(CambioSaldo(c, v, ahora).value)
    ensures CambioTitular(c, t, ahora).Success? ==> SaldoNoNegativo(CambioTitular(c, t, ahora).value)
    ensures Debito(c, m, ahora).Success? ==> SaldoNoNegativo(Debito(c, m, ahora).value)
    ensures Credito(c, m, ahora).Success? ==> SaldoNoNegativo(Credito(c, m, ahora).value)
    ensures SaldoNoNegativo(Activacion(c, ahora)) && SaldoNoNegativo(Desactivacion(c, ahora))
    ensures SaldoNoNegativo(AlCrear(c, ahora)) && SaldoNoNegativo(AlActualizar(c, ahora))
  {
  }

  /** Activating or deactivating twice is the same as doing it once. */
  lemma ActivacionIdempotente(c: Cuenta, t1: Instante, t2: Instante)
    ensures Activacion(Activacion(c, t1), t2) == Activacion(c, t2)
    ensures Desactivacion(Desactivacion(c, t1), t2) == Desactivacion(c, t2)
  {
  }

  /** `onCreate` stamps both dates and keeps an explicit active flag;
      `onUpdate` only refreshes the update date. */
  lemma Callbacks(c: Cuenta, ahora: Instante)
    ensures AlCrear(c, ahora).fechaCreacion == Some(ahora) && AlCrear(c, ahora).fechaActualizacion == Some(ahora)
    ensures AlCrear(c, ahora).activa == (if c.activa.None? then Some(true) else c.activa)
    ensures AlCrear(c, ahora).(fechaCreacion := c.fechaCreacion, fechaActualizacion := c.fechaActualizacion,
                               activa := c.activa) == c
    ensures AlActualizar(c, ahora).fechaActualizacion == Some(ahora)
    ensures AlActualizar(c, ahora).(fechaActualizacion := c.fechaActualizacion) == c
  {
  }

  // ---------------------------------------------------------------------
  // Equality and hash code

  /** Java's 32-bit two's-complement wrap-around of an `int` expression. */
  function AInt32(x: int): (r: int)
    ensures -0x8000_0000 <= r < 0x8000_0000
    ensures (x - r) % 0x1_0000_0000 == 0
  {
    var m := x % 0x1_0000_0000;
    if m >= 0x8000_0000 then m - 0x1_0000_0000 else m
  }

  /** `String.hashCode`: `h = 31 * h + unit` over the UTF-16 code units. */
  function HashUnidades(u: seq<int>): (h: int)
    ensures -0x8000_0000 <= h < 0x8000_0000
  {
    if u == [] then 0 else AInt32(31 * HashUnidades(u[..|u| - 1]) + u[|u| - 1])
  }

  function HashCadena(s: string): int {
    HashUnidades(UnidadesUtf16(s))
  }

  /** `Objects.hash(numeroCuenta)`, that is `31 * 1 + numeroCuenta.hashCode()`. */
  function HashCuenta(numeroCuenta: string): int {
    AInt32(31 + HashCadena(numeroCuenta))
  }

  /** `equals` on row values: two accounts are the same account exactly
      when their numbers are equal. */
  predicate MismaCuenta(a: Cuenta, b: Cuenta) {
    a.numeroCuenta == b.numeroCuenta
  }

  /** Equal accounts have equal hash codes, whatever else differs. */
  lemma HashCoherente(a: Cuenta, b: Cuenta)
    requires MismaCuenta(a, b)
    ensures HashCuenta(a.numeroCuenta) == HashCuenta(b.numeroCuenta)
  {
  }

  // ---------------------------------------------------------------------
  // The entity object

  /** Whether a mutator's outcome and the object's new state follow a
      transition: on success the new state, on failure the old one. */
  predicate Sigue(o: Outcome<Falla>, despues: Cuenta, antes: Cuenta, r: Result<Cuenta, Falla>) {
    match r
    case Success(c) => o == Pass && despues == c
    case Failure(e) => o == Fail(e) && despues == antes
  }

  class CuentaBancaria {
    var id: Option<int>
    var numeroCuenta: string
    var titular: string
    var saldo: Option<real>
    var tipoCuenta: TipoCuenta
    var moneda: Option<string>
    var fechaCreacion: Option<Instante>
    var fechaActualizacion: Option<Instante>
    var activa: Option<bool>

    /** The object's fields as a row value. */
    function Estado(): Cuenta
      reads this
    {
      Cuenta(id, numeroCuenta, titular, saldo, tipoCuenta, moneda, fechaCreacion, fechaActualizacion, activa)
    }

    /** Field-by-field initialisation: what the builder's private
        constructor does, and what JPA does when it loads a row. */
    constructor (c: Cuenta)
      ensures Estado() == c
    {
      id, numeroCuenta, titular, saldo, tipoCuenta := c.id, c.numeroCuenta, c.titular, c.saldo, c.tipoCuenta;
      moneda, fechaCreacion, fechaActualizacion, activa := c.moneda, c.fechaCreacion, c.fechaActualizacion, c.activa;
    }

    /** Sets the fields from a row value (a stored row written back on
        rollback, or assigned by the persistence context). */
    method Asignar(c: Cuenta)
      modifies this
      ensures Estado() == c
    {
      id, numeroCuenta, titular, saldo, tipoCuenta := c.id, c.numeroCuenta, c.titular, c.saldo, c.tipoCuenta;
      moneda, fechaCreacion, fechaActualizacion, activa := c.moneda, c.fechaCreacion, c.fechaActualizacion, c.activa;
    }

    method SetSaldo(nuevo: Option<real>, ahora: Instante) returns (o: Outcome<Falla>)
      modifies this
      ensures Sigue(o, Estado(), old(Estado()), CambioSaldo(old(Estado()), nuevo, ahora))
    {
      if nuevo.Some? && nuevo.value >= 0.0 {
        saldo := nuevo;
        fechaActualizacion := Some(ahora);
        o := Pass;
      } else {
        o := Fail(ArgumentoInvalido(MSG_SALDO_NEGATIVO));
      }
    }

    method SetTitular(nuevo: Option<string>, ahora: Instante) returns (o: Outcome<Falla>)
      modifies this
      ensures Sigue(o, Estado(), old(Estado()), CambioTitular(old(Estado()), nuevo, ahora))
    {
      if nuevo.Some? && !EsBlanco(nuevo.value) {
        titular := Trim(nuevo.value);
        fechaActualizacion := Some(ahora);
        o := Pass;
      } else {
        o := Fail(ArgumentoInvalido(MSG_TITULAR_VACIO));
      }
    }

    method Activar(ahora: Instante)
      modifies this
      ensures Estado() == Activacion(old(Estado()), ahora)
    {
      activa := Some(true);
      fechaActualizacion := Some(ahora);
    }

    method Desactivar(ahora: Instante)
      modifies this
      ensures Estado() == Desactivacion(old(Estado()), ahora)
    {
      activa := Some(false);
      fechaActualizacion := Some(ahora);
    }

    method Debitar(monto: Option<real>, ahora: Instante) returns (o: Outcome<Falla>)
      modifies this
      ensures Sigue(o, Estado(), old(Estado()), Debito(old(Estado()), monto, ahora))
    {
      if monto.None? || monto.value <= 0.0 {
        return Fail(ArgumentoInvalido(MSG_DEBITO_POSITIVO));
      }
      if saldo.None? {
        return Fail(ReferenciaNula);
      }
      if saldo.value < monto.value {
        return Fail(EstadoInvalido(MSG_SALDO_INSUFICIENTE));
      }
      saldo := Some(saldo.value - monto.value);
      fechaActualizacion := Some(ahora);
      o := Pass;
    }

    method Acreditar(monto: Option<real>, ahora: Instante) returns (o: Outcome<Falla>)
      modifies this
      ensures Sigue(o, Estado(), old(Estado()), Credito(old(Estado()), monto, ahora))
    {
      if monto.None? || monto.value <= 0.0 {
        return Fail(ArgumentoInvalido(MSG_CREDITO_POSITIVO));
      }
      if saldo.None? {
        return Fail(ReferenciaNula);
      }
      saldo := Some(saldo.value + monto.value);
      fechaActualizacion := Some(ahora);
      o := Pass;
    }

    method OnCreate(ahora: Instante)
      modifies this
      ensures Estado() == AlCrear(old(Estado()), ahora)
    {
      fechaCreacion := Some(ahora);
      fechaActualizacion := Some(ahora);
      if activa.None? {
        activa := Some(true);
      }
    }

    method OnUpdate(ahora: Instante)
      modifies this
      ensures Estado() == AlActualizar(old(Estado()), ahora)
    {
      fechaActualizacion := Some(ahora);
    }

    /** `equals`: the same object, or another account with the same number. */
    predicate Equals(o: CuentaBancaria?)
      reads this, o
    {
      o != null && (o == this || o.numeroCuenta == numeroCuenta)
    }

    /** `hashCode`. */
    function HashCode(): int
      reads this
    {
      HashCuenta(numeroCuenta)
    }
  }

  /** `equals` is an equivalence relation consistent with `hashCode`. */
  lemma EqualsEsEquivalencia(a: CuentaBancaria, b: CuentaBancaria, c: CuentaBancaria)
    ensures a.Equals(a)
    ensures a.Equals(b) <==> b.Equals(a)
    ensures a.Equals(b) && b.Equals(c) ==> a.Equals(c)
    ensures a.Equals(b) ==> a.HashCode() == b.HashCode()
    ensures a.Equals(b) <==> MismaCuenta(a.Estado(), b.Estado())
  {
  }

  // ---------------------------------------------------------------------
  // The builder

  /** The fields a `Builder` has accumulated. Its two date fields have no
      setter and are always null, so they are not kept. */
  datatype Borrador = Borrador(
    numeroCuenta: Option<string>,
    titular: Option<string>,
    saldo: Option<real>,
    tipoCuenta: Option<TipoCuenta>,
    moneda: Option<string>,
    activa: Option<bool>)

  /** `CuentaBancaria.builder()`: balance zero, currency EUR, active. */
  function BorradorInicial(): Borrador {
    Borrador(None, None, Some(0.0), None, Some("EUR"), Some(true))
  }

  /** `Builder.build()`: the three mandatory fields are checked in this
      order; the other fields are copied as they are, even when null. */
  function Construir(b: Borrador): (r: Result<Cuenta, Falla>)
    ensures r.Success? <==>
              b.numeroCuenta.Some? && !EsBlanco(b.numeroCuenta.value)
              && b.titular.Some? && !EsBlanco(b.titular.value) && b.tipoCuenta.Some?
    ensures (b.numeroCuenta.None? || EsBlanco(b.numeroCuenta.value)) ==>
              r == Failure(ArgumentoInvalido("El número de cuenta es obligatorio"))
    ensures b.numeroCuenta.Some? && !EsBlanco(b.numeroCuenta.value) && (b.titular.None? || EsBlanco(b.titular.value)) ==>
              r == Failure(ArgumentoInvalido("El titular es obligatorio"))
    ensures r.Failure? ==> r.error.ArgumentoInvalido?
    ensures r.Success? ==>
              r.value == Cuenta(None, b.numeroCuenta.value, b.titular.value, b.saldo, b.tipoCuenta.value,
                                b.moneda, None, None, b.activa)
  {
    if b.numeroCuenta.None? || EsBlanco(b.numeroCuenta.value) then
      Failure(ArgumentoInvalido("El número de cuenta es obligatorio"))
    else if b.titular.None? || EsBlanco(b.titular.value) then
      Failure(ArgumentoInvalido("El titular es obligatorio"))
    else if b.tipoCuenta.None? then
      Failure(ArgumentoInvalido("El tipo de cuenta es obligatorio"))
    else
      Success(Cuenta(None, b.numeroCuenta.value, b.titular.value, b.saldo, b.tipoCuenta.value,
                     b.moneda, None, None, b.activa))
  }

  /** A builder given only the mandatory fields yields the documented
      defaults. */
  lemma ValoresPorDefecto(numero: string, titular: string, tipo: TipoCuenta)
    requires !EsBlanco(numero) && !EsBlanco(titular)
    ensures var r := Construir(BorradorInicial().(numeroCuenta := Some(numero), titular := Some(titular),
                                                  tipoCuenta := Some(tipo)));
            r.Success? && r.value.saldo == Some(0.0) && r.value.moneda == Some("EUR")
            && r.value.activa == Some(true) && r.value.id.None?
  {
  }

  class Builder {
    var numeroCuenta: Option<string>
    var titular: Option<string>
    var saldo: Option<real>
    var tipoCuenta: Option<TipoCuenta>
    var moneda: Option<string>
    var activa: Option<bool>

    function Contenido(): Borrador
      reads this
    {
      Borrador(numeroCuenta, titular, saldo, tipoCuenta, moneda, activa)
    }

    constructor ()
      ensures Contenido() == BorradorInicial()
    {
      numeroCuenta, titular, saldo, tipoCuenta, moneda, activa := None, None, Some(0.0), None, Some("EUR"), Some(true);
    }

    method NumeroCuenta(v: Option<string>) returns (b: Builder)
      modifies this
      ensures b == this && Contenido() == old(Contenido()).(numeroCuenta := v)
    {
      numeroCuenta := v;
      b := this;
    }

    method Titular(v: Option<string>) returns (b: Builder)
      modifies this
      ensures b == this && Contenido() == old(Contenido()).(titular := v)
    {
      titular := v;
      b := this;
    }

    method Saldo(v: Option<real>) returns (b: Builder)
      modifies this
      ensures b == this && Contenido() == old(Contenido()).(saldo := v)
    {
      saldo := v;
      b := this;
    }

    method TipoCuenta(v: Option<TipoCuenta>) returns (b: Builder)
      modifies this
      ensures b == this && Contenido() == old(Contenido()).(tipoCuenta := v)
    {
      tipoCuenta := v;
      b := this;
    }

    method Moneda(v: Option<string>) returns (b: Builder)
      modifies this
      ensures b == this && Contenido() == old(Contenido()).(moneda := v)
    {
      moneda := v;
      b := this;
    }

    method Activa(v: Option<bool>) returns (b: Builder)
      modifies this
      ensures b == this && Contenido() == old(Contenido()).(activa := v)
    {
      activa := v;
      b := this;
    }

    method Build() returns (r: Result<CuentaBancaria, Falla>)
      ensures Construir(Contenido()).Failure? ==> r == Failure(Construir(Contenido()).error)
      ensures Construir(Contenido()).Success? ==>
                r.Success? && fresh(r.value) && r.value.Estado() == Construir(Contenido()).value
    {
      var c := Construir(Contenido());
      if c.Failure? {
        return Failure(c.error);
      }
      var e := new CuentaBancaria(c.value);
      r := Success(e);
    }
  }
}
