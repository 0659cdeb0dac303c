/** The request body for creating or updating an account, its two
    defaulting constructors, and its field constraints written as
    predicates. */
module Solicitudes {
  import opened Wrappers
  import opened Texto
  import opened TipoCuentas
  import opened Errores
  import opened Entidad

  datatype SolicitudDTO = SolicitudDTO(
    numeroCuenta: Option<string>,
    titular: Option<string>,
    saldo: Option<real>,
    tipoCuenta: Option<TipoCuenta>,
    moneda: Option<string>)

  /** The no-argument constructor: balance zero and currency EUR, which a
      JSON body may still overwrite with an explicit null. */
  function SolicitudVacia(): SolicitudDTO {
    SolicitudDTO(None, None, Some(0.0), None, Some("EUR"))
  }

  /** The five-argument constructor: a null balance or currency is replaced
      by zero or EUR. */
  function NuevaSolicitud(numeroCuenta: Option<string>, titular: Option<string>, saldo: Option<real>,
                          tipoCuenta: Option<TipoCuenta>, moneda: Option<string>): SolicitudDTO
  {
    SolicitudDTO(numeroCuenta, titular, if saldo.Some? then saldo else Some(0.0),
                 tipoCuenta, if moneda.Some? then moneda else Some("EUR"))
  }

  /** Both constructors agree on the defaults, and the full one never leaves
      the balance or the currency null. */
  lemma Defectos(n: Option<string>, t: Option<string>, s: Option<real>, tipo: Option<TipoCuenta>, m: Option<string>)
    ensures NuevaSolicitud(n, t, None, tipo, None)
            == SolicitudVacia().(numeroCuenta := n, titular := t, tipoCuenta := tipo)
    ensures NuevaSolicitud(n, t, s, tipo, m).saldo.Some? && NuevaSolicitud(n, t, s, tipo, m).moneda.Some?
    ensures s.Some? ==> NuevaSolicitud(n, t, s, tipo, m).saldo == s
    ensures m.Some? ==> NuevaSolicitud(n, t, s, tipo, m).moneda == m
    ensures NuevaSolicitud(n, t, s, tipo, m).numeroCuenta == n && NuevaSolicitud(n, t, s, tipo, m).titular == t
    ensures NuevaSolicitud(n, t, s, tipo, m).tipoCuenta == tipo
  {
  }

  // ---------------------------------------------------------------------
  // Character classes of the two regular expressions

  predicate EsDigitoAscii(c: char) {
    '0' <= c <= '9'
  }

  /** Java's `\s` without the Unicode flag: space, tab, line feed, vertical
      tab, form feed and carriage return. */
  predicate EsEspacioRegex(c: char) {
    c == ' ' || c == '\t' || c == '\n' || c == '\U{0B}' || c == '\U{0C}' || c == '\r'
  }

  /** `[a-zA-ZáéíóúÁÉÍÓÚñÑ\s]`. */
  predicate EsCaracterTitular(c: char) {
    ('a' <= c <= 'z') || ('A' <= c <= 'Z') || c in "áéíóúÁÉÍÓÚñÑ" || EsEspacioRegex(c)
  }

  /** `^[0-9]+$`. */
  predicate SoloDigitos(s: string) {
    |s| >= 1 && forall k :: 0 <= k < |s| ==> EsDigitoAscii(s[k])
  }

  /** `^[a-zA-ZáéíóúÁÉÍÓÚñÑ\s]+$`. */
  predicate SoloLetrasYEspacios(s: string) {
    |s| >= 1 && forall k :: 0 <= k < |s| ==> EsCaracterTitular(s[k])
  }

  // ---------------------------------------------------------------------
  // The field constraints; `@Size`, `@Pattern`, `@DecimalMin` and `@Digits`
  // accept null, `@NotBlank` and `@NotNull` do not

  predicate NumeroSolicitudValido(n: Option<string>) {
    n.Some? && !EsBlanco(n.value) && 10 <= LongitudJava(n.value) <= 20 && SoloDigitos(n.value)
  }

  predicate TitularSolicitudValido(t: Option<string>) {
    t.Some? && !EsBlanco(t.value) && 2 <= LongitudJava(t.value) <= 100 && SoloLetrasYEspacios(t.value)
  }

  predicate SaldoSolicitudValido(s: Option<real>) {
    s.None? || (s.value >= 0.0 && DigitosValidos(s.value))
  }

  predicate MonedaSolicitudValida(m: Option<string>) {
    m.None? || CodigoMoneda(m.value)
  }

  predicate SolicitudValida(d: SolicitudDTO) {
    && NumeroSolicitudValido(d.numeroCuenta)
    && TitularSolicitudValido(d.titular)
    && SaldoSolicitudValido(d.saldo)
    && d.tipoCuenta.Some?
    && MonedaSolicitudValida(d.moneda)
  }

  // ---------------------------------------------------------------------
  // The violations reported, with the annotations' messages

  function ErroresNumero(n: Option<string>): (r: seq<ErrorCampo>)
    ensures r == [] <==> NumeroSolicitudValido(n)
    ensures forall k :: 0 <= k < |r| ==> r[k].campo == "numeroCuenta"
  {
    match n
    case None => [ErrorCampo("numeroCuenta", "El número de cuenta no puede estar vacío")]
    case Some(v) =>
      (if EsBlanco(v) then [ErrorCampo("numeroCuenta", "El número de cuenta no puede estar vacío")] else [])
      + (if !(10 <= LongitudJava(v) <= 20)
         then [ErrorCampo("numeroCuenta", "El número de cuenta debe tener entre 10 y 20 caracteres")] else [])
      + (if !SoloDigitos(v) then [ErrorCampo("numeroCuenta", "El número de cuenta solo puede contener dígitos")] else [])
  }

  function ErroresTitular(t: Option<string>): (r: seq<ErrorCampo>)
    ensures r == [] <==> TitularSolicitudValido(t)
    ensures forall k :: 0 <= k < |r| ==> r[k].campo == "titular"
  {
    match t
    case None => [ErrorCampo("titular", "El titular no puede estar vacío")]
    case Some(v) =>
      (if EsBlanco(v) then [ErrorCampo("titular", "El titular no puede estar vacío")] else [])
      + (if !(2 <= LongitudJava(v) <= 100)
         then [ErrorCampo("titular", "El nombre del titular debe tener entre 2 y 100 caracteres")] else [])
      + (if !SoloLetrasYEspacios(v) then [ErrorCampo("titular", "El titular solo puede contener letras y espacios")] else [])
  }

  function ErroresSaldo(s: Option<real>): (r: seq<ErrorCampo>)
    ensures r == [] <==> SaldoSolicitudValido(s)
    ensures forall k :: 0 <= k < |r| ==> r[k].campo == "saldo"
  {
    match s
    case None => []
    case Some(v) =>
      (if v < 0.0 then [ErrorCampo("saldo", "El saldo no puede ser negativo")] else [])
      + (if !DigitosValidos(v)
         then [ErrorCampo("saldo", "El saldo debe tener máximo 13 dígitos enteros y 2 decimales")] else [])
  }

  function ErroresTipo(t: Option<TipoCuenta>): (r: seq<ErrorCampo>)
    ensures r == [] <==> t.Some?
    ensures forall k :: 0 <= k < |r| ==> r[k].campo == "tipoCuenta"
  {
    if t.None? then [ErrorCampo("tipoCuenta", "El tipo de cuenta no puede ser nulo")] else []
  }

  function ErroresMoneda(m: Option<string>): (r: seq<ErrorCampo>)
    ensures r == [] <==> MonedaSolicitudValida(m)
    ensures forall k :: 0 <= k < |r| ==> r[k].campo == "moneda"
  {
    if m.Some? && !CodigoMoneda(m.value)
    then [ErrorCampo("moneda", "La moneda debe ser un código ISO de 3 letras mayúsculas")] else []
  }

  /** Every violated constraint of the body, field by field in declaration
      order (Bean Validation itself leaves the order unspecified). */
  function ErroresSolicitud(d: SolicitudDTO): (r: seq<ErrorCampo>)
    ensures r == [] <==> SolicitudValida(d)
  {
    ErroresNumero(d.numeroCuenta) + ErroresTitular(d.titular) + ErroresSaldo(d.saldo)
    + ErroresTipo(d.tipoCuenta) + ErroresMoneda(d.moneda)
  }

  /** The fields named by at least one violation. */
  function CamposConError(r: seq<ErrorCampo>): set<string> {
    set k | 0 <= k < |r| :: r[k].campo
  }

  /** `@Valid` on the request body: a body with violations is rejected as a
      whole, carrying every field error. */
  function ValidarCuerpo(d: SolicitudDTO): (o: Outcome<Falla>)
    ensures o.Pass? <==> SolicitudValida(d)
    ensures o.Fail? ==> o.error == DatosInvalidos(ErroresSolicitud(d)) && o.error.errores != []
  {
    var e := ErroresSolicitud(d);
    if e == [] then Pass else Fail(DatosInvalidos(e))
  }

  lemma {:induction false} CamposConcat(a: seq<ErrorCampo>, b: seq<ErrorCampo>)
    ensures CamposConError(a + b) == CamposConError(a) + CamposConError(b)
  {
    var ab := a + b;
    forall f | f in CamposConError(a + b) ensures f in CamposConError(a) + CamposConError(b) {
      var k :| 0 <= k < |ab| && ab[k].campo == f;
      if k >= |a| { assert b[k - |a|].campo == f; }
    }
    forall f | f in CamposConError(a) + CamposConError(b) ensures f in CamposConError(a + b) {
      if f in CamposConError(a) {
        var k :| 0 <= k < |a| && a[k].campo == f;
        assert ab[k].campo == f;
      } else {
        var k :| 0 <= k < |b| && b[k].campo == f;
        assert ab[|a| + k].campo == f;
      }
    }
  }

  lemma CamposDeUnCampo(r: seq<ErrorCampo>, f: string)
    requires r != [] && forall k :: 0 <= k < |r| ==> r[k].campo == f
    ensures CamposConError(r) == {f}
  {
    assert r[0].campo == f;
  }

  // Each field of the example body below is refused on its own.

  lemma EjemploNumero()
    ensures CamposConError(ErroresNumero(Some("123"))) == {"numeroCuenta"}
  {
    assert LongitudJava("123") == 3 by { LongitudJavaBmp("123"); }
    CamposDeUnCampo(ErroresNumero(Some("123")), "numeroCuenta");
  }

  lemma EjemploTitular()
    ensures CamposConError(ErroresTitular(Some(""))) == {"titular"}
  {
    assert EsBlanco("");
    CamposDeUnCampo(ErroresTitular(Some("")), "titular");
  }

  lemma EjemploSaldo()
    ensures CamposConError(ErroresSaldo(Some(-100.0))) == {"saldo"}
  {
    CamposDeUnCampo(ErroresSaldo(Some(-100.0)), "saldo");
  }

  lemma EjemploTipo()
    ensures CamposConError(ErroresTipo(None)) == {"tipoCuenta"}
  {
    CamposDeUnCampo(ErroresTipo(None), "tipoCuenta");
  }

  lemma EjemploMoneda()
    ensures CamposConError(ErroresMoneda(Some("INVALID"))) == {"moneda"}
  {
    CamposDeUnCampo(ErroresMoneda(Some("INVALID")), "moneda");
  }

  /** The fields in error of a body are those of its five fields. */
  lemma CamposDeSolicitud(d: SolicitudDTO)
    ensures CamposConError(ErroresSolicitud(d))
            == CamposConError(ErroresNumero(d.numeroCuenta)) + CamposConError(ErroresTitular(d.titular))
               + CamposConError(ErroresSaldo(d.saldo)) + CamposConError(ErroresTipo(d.tipoCuenta))
               + CamposConError(ErroresMoneda(d.moneda))
  {
    var n, t, s, ti, m := ErroresNumero(d.numeroCuenta), ErroresTitular(d.titular), ErroresSaldo(d.saldo),
                          ErroresTipo(d.tipoCuenta), ErroresMoneda(d.moneda);
    assert ErroresSolicitud(d) == n + t + s + ti + m;
    CamposConcat(n, t);
    CamposConcat(n + t, s);
    CamposConcat(n + t + s, ti);
    CamposConcat(n + t + s + ti, m);
  }

  lemma CincoCampos(a: set<string>, b: set<string>, c: set<string>, d: set<string>, e: set<string>)
    requires a == {"numeroCuenta"} && b == {"titular"} && c == {"saldo"} && d == {"tipoCuenta"} && e == {"moneda"}
    ensures a + b + c + d + e == {"numeroCuenta", "titular", "saldo", "tipoCuenta", "moneda"}
  {
  }

  /** The body with a short number, an empty holder, a negative balance, no
      type and a seven-letter currency is rejected with an error on each of
      the five fields. */
  lemma CuerpoInvalidoCincoCampos()
    ensures var d := SolicitudDTO(Some("123"), Some(""), Some(-100.0), None, Some("INVALID"));
            ValidarCuerpo(d).Fail?
            && CamposConError(ErroresSolicitud(d)) == {"numeroCuenta", "titular", "saldo", "tipoCuenta", "moneda"}
  {
    var d := SolicitudDTO(Some("123"), Some(""), Some(-100.0), None, Some("INVALID"));
    CamposDeSolicitud(d);
    EjemploNumero();
    EjemploTitular();
    EjemploSaldo();
    EjemploTipo();
    EjemploMoneda();
    CincoCampos(CamposConError(ErroresNumero(d.numeroCuenta)), CamposConError(ErroresTitular(d.titular)),
                CamposConError(ErroresSaldo(d.saldo)), CamposConError(ErroresTipo(d.tipoCuenta)),
                CamposConError(ErroresMoneda(d.moneda)));
    assert ErroresSolicitud(d) != [] by {
      assert "saldo" in CamposConError(ErroresSolicitud(d));
    }
  }
}
