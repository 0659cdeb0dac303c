/** Conversions between the request body, the entity and the response
    body, and the minimal validity check that gates account creation. */
module Mapper {
  import opened Wrappers
  import opened Texto
  import opened TipoCuentas
  import opened Errores
  import opened Entidad
  import opened Solicitudes

  /** The response body; every field may be null. */
  datatype RespuestaDTO = RespuestaDTO(
    id: Option<int>,
    numeroCuenta: Option<string>,
    titular: Option<string>,
    saldo: Option<real>,
    tipoCuenta: Option<TipoCuenta>,
    descripcionTipoCuenta: Option<string>,
    moneda: Option<string>,
    fechaCreacion: Option<Instante>,
    fechaActualizacion: Option<Instante>,
    activa: Option<bool>,
    comisionMantenimiento: Option<real>)

  /** The response body's no-argument constructor. */
  function RespuestaVacia(): RespuestaDTO {
    RespuestaDTO(None, None, None, None, None, None, None, None, None, None, None)
  }

  /** The type's label, or null without a type. */
  function DescripcionDe(t: Option<TipoCuenta>): Option<string> {
    if t.Some? then Some(Descripcion(t.value)) else None
  }

  /** The type's fee, or zero without a type. */
  function ComisionDe(t: Option<TipoCuenta>): Option<real> {
    Some(if t.Some? then ComisionMantenimiento(t.value) else 0.0)
  }

  /** The response body's nine-argument constructor, which derives the
      label and the fee from the type. */
  function RespuestaCompleta(id: Option<int>, numeroCuenta: Option<string>, titular: Option<string>,
                             saldo: Option<real>, tipoCuenta: Option<TipoCuenta>, moneda: Option<string>,
                             fechaCreacion: Option<Instante>, fechaActualizacion: Option<Instante>,
                             activa: Option<bool>): RespuestaDTO
  {
    RespuestaDTO(id, numeroCuenta, titular, saldo, tipoCuenta, DescripcionDe(tipoCuenta), moneda,
                 fechaCreacion, fechaActualizacion, activa, ComisionDe(tipoCuenta))
  }

  /** `setTipoCuenta`, which also refreshes the label and the fee. */
  function ConTipoCuenta(r: RespuestaDTO, t: Option<TipoCuenta>): RespuestaDTO {
    r.(tipoCuenta := t, descripcionTipoCuenta := DescripcionDe(t), comisionMantenimiento := ComisionDe(t))
  }

  // ---------------------------------------------------------------------
  // Minimal check

  /** `isValidRequestDTO`: a body with a non-blank number, a non-blank
      holder and a type. Lengths, patterns, balance and currency are not
      looked at. */
  predicate IsValidRequestDTO(d: Option<SolicitudDTO>) {
    && d.Some?
    && d.value.numeroCuenta.Some? && !EsBlanco(d.value.numeroCuenta.value)
    && d.value.titular.Some? && !EsBlanco(d.value.titular.value)
    && d.value.tipoCuenta.Some?
  }

  /** Every body that meets the full field constraints passes the minimal
      check. */
  lemma ValidaImplicaMinima(d: SolicitudDTO)
    requires SolicitudValida(d)
    ensures IsValidRequestDTO(Some(d))
  {
  }

  /** The converse fails: a one-digit number passes the minimal check. */
  lemma MinimaNoImplicaValida()
    ensures var d := SolicitudDTO(Some("1"), Some("Ana"), Some(0.0), Some(AHORROS), Some("EUR"));
            IsValidRequestDTO(Some(d)) && !SolicitudValida(d)
  {
    var d := SolicitudDTO(Some("1"), Some("Ana"), Some(0.0), Some(AHORROS), Some("EUR"));
    assert !EsBlanco("1") by { EsBlancoSii("1"); }
    assert !EsBlanco("Ana") by { EsBlancoSii("Ana"); }
    assert LongitudJava("1") == 1 by { LongitudJavaBmp("1"); }
  }

  // ---------------------------------------------------------------------
  // Request to entity

  /** What `toEntity` puts into a fresh builder: the five request fields;
      the active flag keeps the builder's default. */
  function BorradorDe(d: SolicitudDTO): Borrador {
    BorradorInicial().(numeroCuenta := d.numeroCuenta, titular := d.titular, saldo := d.saldo,
                       tipoCuenta := d.tipoCuenta, moneda := d.moneda)
  }

  /** Building the entity for a body succeeds exactly when the body passes
      the minimal check; the entity then copies the five fields unchanged,
      has no id and is active. */
  lemma ConstruccionSiiMinima(d: SolicitudDTO)
    ensures Construir(BorradorDe(d)).Success? <==> IsValidRequestDTO(Some(d))
    ensures Construir(BorradorDe(d)).Success? ==>
              var c := Construir(BorradorDe(d)).value;
              c.id.None? && Some(c.numeroCuenta) == d.numeroCuenta && Some(c.titular) == d.titular
              && c.saldo == d.saldo && Some(c.tipoCuenta) == d.tipoCuenta && c.moneda == d.moneda
              && c.activa == Some(true) && c.fechaCreacion.None? && c.fechaActualizacion.None?
  {
  }

  /** A fully valid body with a balance and a currency gives an entity that
      passes the entity's own constraints once `onCreate` has run: such a
      body is never refused when it is stored. */
  lemma ValidaCumpleRestriccionesEntidad(d: SolicitudDTO, ahora: Instante)
    requires SolicitudValida(d) && d.saldo.Some? && d.moneda.Some?
    ensures Construir(BorradorDe(d)).Success?
    ensures CumpleRestricciones(AlCrear(Construir(BorradorDe(d)).value, ahora))
    ensures ColumnasNoNulas(AlCrear(Construir(BorradorDe(d)).value, ahora))
  {
    var m := d.moneda.value;
    assert !EsRecortable(m[0]);
    EsBlancoSii(m);
  }

  /** A body that passes `@Valid` but carries an explicit null balance
      builds an entity whose balance is null, which the entity's `@NotNull`
      refuses when it is stored. */
  lemma SaldoNuloPasaValidacionPeroNoSeGuarda(d: SolicitudDTO, ahora: Instante)
    requires SolicitudValida(d) && d.saldo.None?
    ensures Construir(BorradorDe(d)).Success?
    ensures Violaciones(AlCrear(Construir(BorradorDe(d)).value, ahora)) != []
  {
  }

  /** `toEntity`: null for a null body, otherwise the builder chain. */
  method ToEntity(d: Option<SolicitudDTO>) returns (r: Result<CuentaBancaria?, Falla>)
    ensures d.None? ==> r == Success(null)
    ensures d.Some? && Construir(BorradorDe(d.value)).Failure? ==>
              r == Failure(Construir(BorradorDe(d.value)).error)
    ensures d.Some? && Construir(BorradorDe(d.value)).Success? ==>
              r.Success? && r.value != null && fresh(r.value)
              && r.value.Estado() == Construir(BorradorDe(d.value)).value
  {
    if d.None? {
      return Success(null);
    }
    var b := new Builder();
    b := b.NumeroCuenta(d.value.numeroCuenta);
    b := b.Titular(d.value.titular);
    b := b.Saldo(d.value.saldo);
    b := b.TipoCuenta(d.value.tipoCuenta);
    b := b.Moneda(d.value.moneda);
    assert b.Contenido() == BorradorDe(d.value);
    var e := b.Build();
    if e.Failure? {
      return Failure(e.error);
    }
    r := Success(e.value);
  }

  // ---------------------------------------------------------------------
  // Update from a request

  /** `updateEntityFromDTO` on row values: the holder first, then the
      balance, each only when present. The first refusal stops the update
      and the state reached so far is what the entity holds. */
  function Actualizacion(c: Cuenta, d: SolicitudDTO, ahora: Instante): (r: (Cuenta, Outcome<Falla>))
    ensures MismaIdentidad(c, r.0) && r.0.activa == c.activa
    ensures r.1.Pass? <==> (d.titular.None? || !EsBlanco(d.titular.value)) && (d.saldo.None? || d.saldo.value >= 0.0)
    ensures r.1.Pass? ==>
              r.0.titular == (if d.titular.Some? then Trim(d.titular.value) else c.titular)
              && r.0.saldo == (if d.saldo.Some? then d.saldo else c.saldo)
    ensures r.1.Fail? ==> r.1.error.ArgumentoInvalido?
    ensures d.titular.None? && d.saldo.None? ==> r == (c, Pass)
    ensures r.0 == c || r.0.fechaActualizacion == Some(ahora)
  {
    var t := if d.titular.Some? then CambioTitular(c, d.titular, ahora) else Success(c);
    if t.Failure? then (c, Fail(t.error))
    else
      var s := if d.saldo.Some? then CambioSaldo(t.value, d.saldo, ahora) else Success(t.value);
      if s.Failure? then (t.value, Fail(s.error)) else (s.value, Pass)
  }

  /** `updateEntityFromDTO`: nothing happens when the entity or the body is
      null; a refused field raises its exception. */
  method UpdateEntityFromDTO(e: CuentaBancaria?, d: Option<SolicitudDTO>, ahora: Instante) returns (o: Outcome<Falla>)
    modifies if e == null then {} else {e}
    ensures e == null || d.None? ==> o == Pass
    ensures e != null && d.Some? ==> (e.Estado(), o) == Actualizacion(old(e.Estado()), d.value, ahora)
    ensures e != null && d.None? ==> e.Estado() == old(e.Estado())
  {
    if e == null || d.None? {
      return Pass;
    }
    if d.value.titular.Some? {
      o := e.SetTitular(d.value.titular, ahora);
      if o.Fail? {
        return;
      }
    }
    if d.value.saldo.Some? {
      o := e.SetSaldo(d.value.saldo, ahora);
      if o.Fail? {
        return;
      }
    }
    o := Pass;
  }

  // ---------------------------------------------------------------------
  // Entity to response

  /** `toResponseDTO`: null for null; otherwise every entity field is
      carried over and the type's label and fee are added. */
  function ToResponseDTO(e: Option<Cuenta>): (r: Option<RespuestaDTO>)
    ensures r.Some? <==> e.Some?
    ensures e.Some? ==>
              var c, o := e.value, r.value;
              o.id == c.id && o.numeroCuenta == Some(c.numeroCuenta) && o.titular == Some(c.titular)
              && o.saldo == c.saldo && o.tipoCuenta == Some(c.tipoCuenta) && o.moneda == c.moneda
              && o.fechaCreacion == c.fechaCreacion && o.fechaActualizacion == c.fechaActualizacion
              && o.activa == c.activa
              && o.descripcionTipoCuenta == Some(Descripcion(c.tipoCuenta))
              && o.comisionMantenimiento == Some(ComisionMantenimiento(c.tipoCuenta))
  {
    match e
    case None => None
    case Some(c) =>
      Some(RespuestaCompleta(c.id, Some(c.numeroCuenta), Some(c.titular), c.saldo, Some(c.tipoCuenta), c.moneda,
                             c.fechaCreacion, c.fechaActualizacion, c.activa))
  }

  /** The response of a row never loses information that identifies it:
      two rows with the same response are equal. */
  lemma ToResponseDTOInyectiva(a: Cuenta, b: Cuenta)
    requires ToResponseDTO(Some(a)) == ToResponseDTO(Some(b))
    ensures a == b
  {
  }

  /** `toResponseDTOList`: null for null, otherwise the element-wise
      conversion, same length and same order. */
  function ToResponseDTOList(l: Option<seq<Cuenta>>): (r: Option<seq<RespuestaDTO>>)
    ensures r.Some? <==> l.Some?
    ensures l.Some? ==> |r.value| == |l.value|
    ensures l.Some? ==> forall i :: 0 <= i < |l.value| ==> Some(r.value[i]) == ToResponseDTO(Some(l.value[i]))
    decreases if l.Some? then |l.value| else 0
  {
    match l
    case None => None
    case Some(s) =>
      if s == [] then Some([])
      else Some([ToResponseDTO(Some(s[0])).value] + ToResponseDTOList(Some(s[1..])).value)
  }

  /** Converting a concatenation converts each part. */
  lemma {:induction false} ToResponseDTOListConcat(a: seq<Cuenta>, b: seq<Cuenta>)
    ensures ToResponseDTOList(Some(a + b)).value == ToResponseDTOList(Some(a)).value + ToResponseDTOList(Some(b)).value
  {
    var x, y, z := ToResponseDTOList(Some(a + b)).value, ToResponseDTOList(Some(a)).value, ToResponseDTOList(Some(b)).value;
    assert |x| == |y + z|;
    forall i | 0 <= i < |x| ensures x[i] == (y + z)[i] {
      if i < |a| {
        assert (a + b)[i] == a[i];
      } else {
        assert (a + b)[i] == b[i - |a|];
      }
    }
  }

  /** `toBasicResponseDTO`: a fresh response filled through its setters with
      id, number, holder, balance, type and active flag. */
  function ToBasicResponseDTO(e: Option<Cuenta>): (r: Option<RespuestaDTO>)
    ensures r.Some? <==> e.Some?
    ensures e.Some? ==>
              r.value == ToResponseDTO(e).value.(moneda := None, fechaCreacion := None, fechaActualizacion := None)
  {
    match e
    case None => None
    case Some(c) =>
      var dto := RespuestaVacia().(id := c.id);
      var dto := dto.(numeroCuenta := Some(c.numeroCuenta));
      var dto := dto.(titular := Some(c.titular));
      var dto := dto.(saldo := c.saldo);
      var dto := ConTipoCuenta(dto, Some(c.tipoCuenta));
      var dto := dto.(activa := c.activa);
      Some(dto)
  }
}
