/** The global exception handler: every failure that leaves the service is
    turned into an HTTP status and an error body carrying that status, a
    stable code, a message, the request path and the time of the answer.
    The path and the clock are parameters. */
module Manejador {
  import opened Wrappers
  import opened Texto
  import opened Errores
  import opened Entidad
  import opened Solicitudes

  const BAD_REQUEST := 400
  const NOT_FOUND := 404
  const CONFLICT := 409
  const INTERNAL_SERVER_ERROR := 500

  const MSG_DATOS_INVALIDOS := "Los datos proporcionados no son válidos"
  const MSG_RESTRICCIONES_VIOLADAS := "Se violaron las restricciones de validación"
  const MSG_ERROR_INTERNO := "Ha ocurrido un error interno del servidor"

  /** `ErrorResponse`; the two validation handlers answer with its
      `ValidationErrorResponse` subclass, which adds the field map. */
  datatype RespuestaError = RespuestaError(
    status: int,
    codigo: string,
    mensaje: string,
    path: string,
    timestamp: Instante,
    erroresCampos: Option<map<string, string>>)

  /** `ResponseEntity`: the HTTP status and the body sent with it. */
  datatype Entrega = Entrega(estadoHttp: int, cuerpo: RespuestaError)

  /** The failures no dedicated handler takes, so that they fall through to
      the handler for `Exception`. */
  predicate Generica(f: Falla) {
    f.ReferenciaNula? || f.ViolacionIntegridad? || f.ResultadoVacio? || f.Interna?
  }

  /** One handler's answer: the same status goes into the body and onto the
      response. */
  function Responder(status: int, codigo: string, mensaje: string, path: string, ahora: Instante,
                     campos: Option<map<string, string>>): (r: Entrega)
    ensures r.estadoHttp == status && r.cuerpo.status == status
    ensures r.cuerpo.codigo == codigo && r.cuerpo.mensaje == mensaje && r.cuerpo.erroresCampos == campos
    ensures r.cuerpo.path == path && r.cuerpo.timestamp == ahora
  {
    Entrega(status, RespuestaError(status, codigo, mensaje, path, ahora, campos))
  }

  /** The field map of a validation failure: each error is put in turn, so a
      later error for a field replaces an earlier one. */
  function MapaErrores(e: seq<ErrorCampo>): map<string, string>
  {
    if e == [] then map[]
    else MapaErrores(e[..|e| - 1])[e[|e| - 1].campo := e[|e| - 1].mensaje]
  }

  /** The loop of the two validation handlers, which `put`s every error into
      an initially empty `HashMap`. */
  method ConstruirMapa(e: seq<ErrorCampo>) returns (m: map<string, string>)
    ensures m == MapaErrores(e)
  {
    m := map[];
    var i := 0;
    while i < |e|
      invariant 0 <= i <= |e|
      invariant m == MapaErrores(e[..i])
    {
      assert e[..i + 1][..i] == e[..i];
      m := m[e[i].campo := e[i].mensaje];
      i := i + 1;
    }
    assert e[..|e|] == e;
  }

  /** The field map has one key per field named by some error. */
  lemma {:induction false} MapaErroresClaves(e: seq<ErrorCampo>)
    ensures MapaErrores(e).Keys == CamposConError(e)
  {
    if e != [] {
      var p := e[..|e| - 1];
      MapaErroresClaves(p);
      assert e == p + [e[|e| - 1]];
      CamposConcat(p, [e[|e| - 1]]);
      assert CamposConError([e[|e| - 1]]) == {e[|e| - 1].campo};
    }
  }

  /** The value kept for a field is the message of the last error on it. */
  lemma {:induction false} MapaErroresUltimo(e: seq<ErrorCampo>, k: int)
    requires 0 <= k < |e|
    requires forall j :: k < j < |e| ==> e[j].campo != e[k].campo
    ensures e[k].campo in MapaErrores(e) && MapaErrores(e)[e[k].campo] == e[k].mensaje
  {
    if k < |e| - 1 {
      var p := e[..|e| - 1];
      assert p[k] == e[k];
      assert forall j :: k < j < |p| ==> p[j].campo != p[k].campo by {
        forall j | k < j < |p| ensures p[j].campo != p[k].campo {
          assert p[j] == e[j];
        }
      }
      MapaErroresUltimo(p, k);
    }
  }

  /** The handlers, chosen by the kind of the failure. */
  function ErrorPara(f: Falla, path: string, ahora: Instante): (r: Entrega)
    ensures r.cuerpo.status == r.estadoHttp
    ensures r.cuerpo.path == path && r.cuerpo.timestamp == ahora
    ensures r.estadoHttp in {BAD_REQUEST, NOT_FOUND, CONFLICT, INTERNAL_SERVER_ERROR}
    ensures r.estadoHttp == INTERNAL_SERVER_ERROR <==> Generica(f)
    ensures r.estadoHttp == NOT_FOUND <==> f.NoEncontrada?
    ensures r.estadoHttp == CONFLICT <==> f.Duplicada? || f.EstadoInvalido?
    ensures PasaMensaje(f) ==> r.cuerpo.mensaje == Mensaje(f)
    ensures r.cuerpo.erroresCampos.Some? <==> f.DatosInvalidos? || f.RestriccionesVioladas?
    ensures f.NoEncontrada? ==> r.cuerpo.codigo == "CUENTA_NO_ENCONTRADA"
    ensures f.Duplicada? ==> r.cuerpo.codigo == "CUENTA_DUPLICADA"
    ensures f.SaldoInsuficiente? ==> r.cuerpo.codigo == "SALDO_INSUFICIENTE"
    ensures f.ArgumentoInvalido? ==> r.cuerpo.codigo == "ARGUMENTO_INVALIDO"
    ensures f.EstadoInvalido? ==> r.cuerpo.codigo == "ESTADO_INVALIDO"
    ensures f.DatosInvalidos? ==>
              && r.cuerpo.codigo == "DATOS_INVALIDOS" && r.cuerpo.mensaje == MSG_DATOS_INVALIDOS
              && r.cuerpo.erroresCampos == Some(MapaErrores(f.errores))
    ensures f.RestriccionesVioladas? ==>
              && r.cuerpo.codigo == "RESTRICCIONES_VIOLADAS" && r.cuerpo.mensaje == MSG_RESTRICCIONES_VIOLADAS
              && r.cuerpo.erroresCampos == Some(MapaErrores(f.violaciones))
    ensures Generica(f) ==> r.cuerpo.codigo == "ERROR_INTERNO" && r.cuerpo.mensaje == MSG_ERROR_INTERNO
  {
    match f
    case NoEncontrada(_) => Responder(NOT_FOUND, "CUENTA_NO_ENCONTRADA", Mensaje(f), path, ahora, None)
    case Duplicada(_) => Responder(CONFLICT, "CUENTA_DUPLICADA", Mensaje(f), path, ahora, None)
    case SaldoInsuficiente(_, _) => Responder(BAD_REQUEST, "SALDO_INSUFICIENTE", Mensaje(f), path, ahora, None)
    case DatosInvalidos(e) =>
      Responder(BAD_REQUEST, "DATOS_INVALIDOS", MSG_DATOS_INVALIDOS, path, ahora, Some(MapaErrores(e)))
    case RestriccionesVioladas(v) =>
      Responder(BAD_REQUEST, "RESTRICCIONES_VIOLADAS", MSG_RESTRICCIONES_VIOLADAS, path, ahora, Some(MapaErrores(v)))
    case ArgumentoInvalido(_) => Responder(BAD_REQUEST, "ARGUMENTO_INVALIDO", Mensaje(f), path, ahora, None)
    case EstadoInvalido(_) => Responder(CONFLICT, "ESTADO_INVALIDO", Mensaje(f), path, ahora, None)
    case _ => Responder(INTERNAL_SERVER_ERROR, "ERROR_INTERNO", MSG_ERROR_INTERNO, path, ahora, None)
  }

  /** Two failures with the same code are of the same kind, so a client can
      tell the kind apart by the code alone. */
  lemma CodigoIdentificaClase(a: Falla, b: Falla, path: string, ahora: Instante)
    requires ErrorPara(a, path, ahora).cuerpo.codigo == ErrorPara(b, path, ahora).cuerpo.codigo
    ensures a.NoEncontrada? == b.NoEncontrada? && a.Duplicada? == b.Duplicada?
    ensures a.SaldoInsuficiente? == b.SaldoInsuficiente? && a.DatosInvalidos? == b.DatosInvalidos?
    ensures a.RestriccionesVioladas? == b.RestriccionesVioladas? && a.ArgumentoInvalido? == b.ArgumentoInvalido?
    ensures a.EstadoInvalido? == b.EstadoInvalido? && Generica(a) == Generica(b)
  {
  }

  /** What reaches the client of an unexpected failure does not depend on
      the failure: its own message, whatever it says, is never sent. */
  lemma GenericaNoFiltra(a: Falla, b: Falla, path: string, ahora: Instante)
    requires Generica(a) && Generica(b)
    ensures ErrorPara(a, path, ahora) == ErrorPara(b, path, ahora)
    ensures ErrorPara(a, path, ahora).cuerpo.mensaje == MSG_ERROR_INTERNO
  {
  }

  /** A lookup of a missing id answers 404 with a message that names the
      id. */
  lemma NoEncontradaResponde(id: int, path: string, ahora: Instante)
    ensures var r := ErrorPara(NoEncontrada(PorId(id)), path, ahora);
            && r.estadoHttp == NOT_FOUND
            && r.cuerpo.codigo == "CUENTA_NO_ENCONTRADA"
            && Contiene(r.cuerpo.mensaje, EnteroATexto(id))
  {
    MensajeNoEncontradaContieneId(id);
  }

  /** A duplicate number answers 409 with the number as its message. */
  lemma DuplicadaResponde(numero: string, path: string, ahora: Instante)
    ensures var r := ErrorPara(Duplicada(numero), path, ahora);
            && r.estadoHttp == CONFLICT
            && r.cuerpo.codigo == "CUENTA_DUPLICADA"
            && Contiene(r.cuerpo.mensaje, numero)
  {
    assert numero <= numero[0..];
  }

  /** A failed `@Valid` check answers 400 with one entry per field in
      error. */
  lemma {:induction false} CuerpoInvalidoResponde(d: SolicitudDTO, path: string, ahora: Instante)
    requires !SolicitudValida(d)
    ensures var r := ErrorPara(ValidarCuerpo(d).error, path, ahora);
            && r.estadoHttp == BAD_REQUEST
            && r.cuerpo.codigo == "DATOS_INVALIDOS"
            && r.cuerpo.erroresCampos.Some?
            && r.cuerpo.erroresCampos.value.Keys == CamposConError(ErroresSolicitud(d))
  {
    MapaErroresClaves(ErroresSolicitud(d));
  }

  /** The body with a short number, an empty holder, a negative balance, no
      type and a seven-letter currency is answered with 400 and an entry for
      each of its five fields. */
  lemma CincoCamposResponden(path: string, ahora: Instante)
    ensures var d := SolicitudDTO(Some("123"), Some(""), Some(-100.0), None, Some("INVALID"));
            var r := ErrorPara(ValidarCuerpo(d).error, path, ahora);
            && r.estadoHttp == BAD_REQUEST
            && r.cuerpo.codigo == "DATOS_INVALIDOS"
            && r.cuerpo.erroresCampos.Some?
            && r.cuerpo.erroresCampos.value.Keys == {"numeroCuenta", "titular", "saldo", "tipoCuenta", "moneda"}
  {
    var d := SolicitudDTO(Some("123"), Some(""), Some(-100.0), None, Some("INVALID"));
    CuerpoInvalidoCincoCampos();
    CuerpoInvalidoResponde(d, path, ahora);
  }
}
