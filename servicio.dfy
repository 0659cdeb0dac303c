/** The account service. Each operation is first given as a transition
    of the store (`Efecto`: its result, the table and the next identity
    value), with the order in which its checks run, the error each check
    raises and what a success writes; the class `ServicioCuentas` then
    runs the same steps over the repository and a loaded entity object and
    is proved to follow those transitions.

    The service is transactional: a failure rolls back every write, so a
    failing operation leaves the store it found. Whatever fails inside
    one of the source's `try` blocks is re-thrown as a generic runtime
    error carrying a fixed message (`Interna`). */
module Servicio {
  import opened Wrappers
  import opened Texto
  import opened TipoCuentas
  import opened Errores
  import opened Entidad
  import opened Solicitudes
  import opened Mapper
  import opened Repositorio

  const MSG_DATOS_INVALIDOS := "Los datos proporcionados no son válidos"
  const MSG_ERROR_CREAR := "Error interno al crear la cuenta bancaria"
  const MSG_ERROR_ACTUALIZAR := "Error interno al actualizar la cuenta bancaria"
  const MSG_ERROR_SALDO := "Error interno al actualizar el saldo"
  const MSG_ERROR_DEBITO := "Error interno al realizar el débito"
  const MSG_ERROR_CREDITO := "Error interno al realizar el crédito"
  const MSG_ERROR_ACTIVAR := "Error interno al activar la cuenta"
  const MSG_ERROR_DESACTIVAR := "Error interno al desactivar la cuenta"
  const MSG_ERROR_ELIMINAR := "Error interno al eliminar la cuenta"

  /** What an operation leaves behind. */
  datatype Efecto<T> = Efecto(resultado: Result<T, Falla>, filas: Tabla, siguienteId: int)

  function Fallo<T>(e: Falla, f: Tabla, sig: int): Efecto<T> {
    Efecto(Failure(e), f, sig)
  }

  /** The store the service keeps: a valid table each of whose rows passed
      the entity's constraints when it was written. */
  predicate AlmacenValido(f: Tabla, sig: int) {
    TablaValida(f, sig) && forall id :: id in f ==> CumpleRestricciones(f[id])
  }

  /** The response for a stored row. */
  function Respuesta(c: Cuenta): RespuestaDTO {
    ToResponseDTO(Some(c)).value
  }

  /** `r` lists the rows of `q`: one response per row, each the response of
      a row of `q`, and the response of every row of `q` present. */
  predicate ListaDe(r: seq<RespuestaDTO>, q: Tabla) {
    && |r| == |q|
    && (forall i :: 0 <= i < |r| ==> exists id :: id in q && r[i] == Respuesta(q[id]))
    && (forall id :: id in q ==> Respuesta(q[id]) in r)
  }

  /** The responses for the rows of a query result, in id order. */
  function Respuestas(q: Tabla): (r: seq<RespuestaDTO>)
    ensures ListaDe(r, q)
  {
    RespuestasLista(q);
    ToResponseDTOList(Some(Filas(q))).value
  }

  lemma RespuestasLista(q: Tabla)
    ensures ListaDe(ToResponseDTOList(Some(Filas(q))).value, q)
  {
    RespuestasDeFilas(q);
    RespuestasCompletas(q);
  }

  /** The converted rows of a table: one response per row, each the
      response of a stored row. */
  lemma RespuestasDeFilas(q: Tabla)
    ensures var r := ToResponseDTOList(Some(Filas(q))).value;
            |r| == |q| && forall i :: 0 <= i < |r| ==> exists id :: id in q && r[i] == Respuesta(q[id])
  {
    var l := Filas(q);
    var r := ToResponseDTOList(Some(l)).value;
    forall i | 0 <= i < |r| ensures exists id :: id in q && r[i] == Respuesta(q[id]) {
      assert l[i] in q.Values;
      var id :| id in q && q[id] == l[i];
      assert Some(r[i]) == ToResponseDTO(Some(l[i]));
      assert id in q && r[i] == Respuesta(q[id]);
    }
  }

  /** The converted rows of a table hold the response of every row. */
  lemma RespuestasCompletas(q: Tabla)
    ensures var r := ToResponseDTOList(Some(Filas(q))).value;
            forall id :: id in q ==> Respuesta(q[id]) in r
  {
    var l := Filas(q);
    var r := ToResponseDTOList(Some(l)).value;
    FilasCompletas(q);
    forall id | id in q ensures Respuesta(q[id]) in r {
      var k :| 0 <= k < |l| && l[k] == q[id];
      assert Some(r[k]) == ToResponseDTO(Some(l[k]));
    }
  }

  /** `findById(id).orElseThrow(...)` followed by `toResponseDTO`. */
  function Consultar(f: Tabla, id: int): Result<RespuestaDTO, Falla> {
    if id in f then Success(Respuesta(f[id])) else Failure(NoEncontrada(PorId(id)))
  }

  /** A changed row that the write-back accepts: it passes the entity's
      constraints, fills the `NOT NULL` columns and keeps its number unique. */
  predicate Escribible(f: Tabla, c: Cuenta) {
    c.id.Some? && CumpleRestricciones(c) && ColumnasNoNulas(c) && !NumeroEnOtraFila(f, c.numeroCuenta, c.id.value)
  }

  /** `repository.save` of a loaded row after its mutator ran (which
      already stamped the update time), then `toResponseDTO`; a refused
      write becomes the operation's internal error. */
  function Escribir(f: Tabla, sig: int, c: Cuenta, ahora: Instante, mensaje: string): (e: Efecto<RespuestaDTO>)
    requires c.id.Some? && c.id.value in f
    requires c == f[c.id.value] || c.fechaActualizacion == Some(ahora)
    ensures e.siguienteId == sig
    ensures e.resultado.Failure? ==> e.filas == f && e.resultado.error == Interna(mensaje)
    ensures e.resultado.Success? <==> c == f[c.id.value] || Escribible(f, c)
    ensures e.resultado.Success? ==> e.filas == f[c.id.value := c] && e.resultado.value == Respuesta(c)
    ensures TablaValida(f, sig) ==> TablaValida(e.filas, sig)
    ensures AlmacenValido(f, sig) ==> AlmacenValido(e.filas, sig)
  {
    var g := GuardarExistente(f, sig, c, ahora);
    assert TablaValida(f, sig) ==> TablaValida(g.filas, sig) by {
      if TablaValida(f, sig) { GuardarExistentePreservaValidez(f, sig, c, ahora); }
    }
    assert c == f[c.id.value] ==> f[c.id.value := c] == f;
    assert c != f[c.id.value] ==> AlActualizar(c, ahora) == c;
    if g.resultado.Fail? then Fallo(Interna(mensaje), f, sig)
    else Efecto(Success(Respuesta(g.entidad)), g.filas, g.siguienteId)
  }

  /** Every row other than `id` is left as it was, and no row appears or
      disappears. */
  predicate SoloCambiaFila(antes: Tabla, despues: Tabla, id: int) {
    despues.Keys == antes.Keys && forall k :: k in antes && k != id ==> despues[k] == antes[k]
  }

  lemma FilaReemplazada(f: Tabla, id: int, c: Cuenta)
    requires id in f
    ensures SoloCambiaFila(f, f[id := c], id) && f[id := c][id] == c
  {
  }

  // ---------------------------------------------------------------------
  // crearCuenta

  /** The row a creation stores for a body passing the minimal check: the
      body's five fields as given, both dates at the creation time, active. */
  function FilaCreada(d: SolicitudDTO, id: int, ahora: Instante): Cuenta
    requires IsValidRequestDTO(Some(d))
  {
    Cuenta(Some(id), d.numeroCuenta.value, d.titular.value, d.saldo, d.tipoCuenta.value, d.moneda,
           Some(ahora), Some(ahora), Some(true))
  }

  /** `crearCuenta`: the minimal check, then the duplicate lookup, then
      the builder and the insert. */
  function Crear(f: Tabla, sig: int, d: Option<SolicitudDTO>, ahora: Instante): (e: Efecto<RespuestaDTO>)
    ensures e.resultado.Failure? ==> e.filas == f && e.siguienteId == sig
    ensures d.Some? && !IsValidRequestDTO(d) ==> e.resultado == Failure(ArgumentoInvalido(MSG_DATOS_INVALIDOS))
    ensures IsValidRequestDTO(d) && ExistsByNumeroCuenta(f, d.value.numeroCuenta.value) ==>
              e.resultado == Failure(Duplicada(d.value.numeroCuenta.value))
    ensures e.resultado.Success? ==>
              IsValidRequestDTO(d) && !ExistsByNumeroCuenta(f, d.value.numeroCuenta.value)
              && e.filas == f[sig := FilaCreada(d.value, sig, ahora)] && e.siguienteId == sig + 1
              && e.resultado.value == Respuesta(FilaCreada(d.value, sig, ahora))
    ensures AlmacenValido(f, sig) ==> AlmacenValido(e.filas, e.siguienteId)
  {
    if d.None? then Fallo(ReferenciaNula, f, sig)
    else if !IsValidRequestDTO(d) then Fallo(ArgumentoInvalido(MSG_DATOS_INVALIDOS), f, sig)
    else if ExistsByNumeroCuenta(f, d.value.numeroCuenta.value) then
      Fallo(Duplicada(d.value.numeroCuenta.value), f, sig)
    else
      var b := Construir(BorradorDe(d.value));
      if b.Failure? then Fallo(Interna(MSG_ERROR_CREAR), f, sig)
      else
        var g := GuardarNueva(f, sig, b.value, ahora);
        assert TablaValida(f, sig) ==> TablaValida(g.filas, g.siguienteId) by {
          if TablaValida(f, sig) { GuardarNuevaPreservaValidez(f, sig, b.value, ahora); }
        }
        if g.resultado.Fail? then Fallo(Interna(MSG_ERROR_CREAR), f, sig)
        else Efecto(Success(Respuesta(g.entidad)), g.filas, g.siguienteId)
  }

  // ---------------------------------------------------------------------
  // actualizarCuenta

  /** `actualizarCuenta`: the lookup, then `updateEntityFromDTO` and the
      write-back inside the `try`, so a holder or balance the entity
      refuses surfaces as an internal error. */
  function Actualizar(f: Tabla, sig: int, id: int, d: Option<SolicitudDTO>, ahora: Instante): (e: Efecto<RespuestaDTO>)
    requires IdsCoherentes(f)
    ensures e.siguienteId == sig
    ensures e.resultado.Failure? ==> e.filas == f
    ensures id !in f ==> e.resultado == Failure(NoEncontrada(PorId(id)))
    ensures id in f && d.Some? && d.value.titular.Some? && EsBlanco(d.value.titular.value) ==>
              e.resultado == Failure(Interna(MSG_ERROR_ACTUALIZAR))
    ensures id in f && d.Some? && d.value.saldo.Some? && d.value.saldo.value < 0.0 ==>
              e.resultado == Failure(Interna(MSG_ERROR_ACTUALIZAR))
    ensures id in f && d.None? ==> e.resultado.Success?
    ensures id in f && d.Some? ==>
              (e.resultado.Success? <==>
                 var a := Actualizacion(f[id], d.value, ahora);
                 a.1.Pass? && (a.0 == f[id] || Escribible(f, a.0)))
    ensures e.resultado.Success? ==>
              id in f && SoloCambiaFila(f, e.filas, id)
              && MismaIdentidad(f[id], e.filas[id]) && e.filas[id].activa == f[id].activa
              && e.filas[id].titular == (if d.Some? && d.value.titular.Some? then Trim(d.value.titular.value) else f[id].titular)
              && e.filas[id].saldo == (if d.Some? && d.value.saldo.Some? then d.value.saldo else f[id].saldo)
              && e.resultado.value == Respuesta(e.filas[id])
    ensures AlmacenValido(f, sig) ==> AlmacenValido(e.filas, sig)
  {
    if id !in f then Fallo(NoEncontrada(PorId(id)), f, sig)
    else
      var a := if d.None? then (f[id], Pass) else Actualizacion(f[id], d.value, ahora);
      if a.1.Fail? then Fallo(Interna(MSG_ERROR_ACTUALIZAR), f, sig)
      else
        assert a.0.id == Some(id);
        assert a.0 == f[id] || a.0.fechaActualizacion == Some(ahora);
        FilaReemplazada(f, id, a.0);
        Escribir(f, sig, a.0, ahora, MSG_ERROR_ACTUALIZAR)
  }

  // ---------------------------------------------------------------------
  // actualizarSaldo, debitarCuenta, acreditarCuenta

  /** `actualizarSaldo`: the value is checked before the lookup. */
  function ActualizarSaldo(f: Tabla, sig: int, id: int, nuevo: Option<real>, ahora: Instante): (e: Efecto<RespuestaDTO>)
    requires IdsCoherentes(f)
    ensures e.siguienteId == sig
    ensures e.resultado.Failure? ==> e.filas == f
    ensures nuevo.None? || nuevo.value < 0.0 ==> e.resultado == Failure(ArgumentoInvalido(MSG_SALDO_NEGATIVO))
    ensures nuevo.Some? && nuevo.value >= 0.0 && id !in f ==> e.resultado == Failure(NoEncontrada(PorId(id)))
    ensures e.resultado.Success? <==>
              nuevo.Some? && nuevo.value >= 0.0 && id in f
              && var n := f[id].(saldo := nuevo, fechaActualizacion := Some(ahora));
                 n == f[id] || Escribible(f, n)
    ensures e.resultado.Success? ==>
              id in f && e.filas == f[id := f[id].(saldo := nuevo, fechaActualizacion := Some(ahora))]
    ensures AlmacenValido(f, sig) ==> AlmacenValido(e.filas, sig)
  {
    if nuevo.None? || nuevo.value < 0.0 then Fallo(ArgumentoInvalido(MSG_SALDO_NEGATIVO), f, sig)
    else if id !in f then Fallo(NoEncontrada(PorId(id)), f, sig)
    else
      var c := CambioSaldo(f[id], nuevo, ahora);
      if c.Failure? then Fallo(Interna(MSG_ERROR_SALDO), f, sig)
      else Escribir(f, sig, c.value, ahora, MSG_ERROR_SALDO)
  }

  /** `debitarCuenta`: the amount, then the lookup, then the funds (outside
      the `try`, so a missing balance fails with a null dereference), then
      the entity's debit and the write-back. */
  function Debitar(f: Tabla, sig: int, id: int, monto: Option<real>, ahora: Instante): (e: Efecto<RespuestaDTO>)
    requires IdsCoherentes(f)
    ensures e.siguienteId == sig
    ensures e.resultado.Failure? ==> e.filas == f
    ensures !MontoPositivo(monto) ==> e.resultado == Failure(ArgumentoInvalido(MSG_DEBITO_POSITIVO))
    ensures MontoPositivo(monto) && id !in f ==> e.resultado == Failure(NoEncontrada(PorId(id)))
    ensures MontoPositivo(monto) && id in f && f[id].saldo.Some? && f[id].saldo.value < monto.value ==>
              e.resultado == Failure(SaldoInsuficiente(f[id].saldo.value, monto.value))
    ensures e.resultado.Success? <==>
              MontoPositivo(monto) && id in f && f[id].saldo.Some? && monto.value <= f[id].saldo.value
              && Escribible(f, f[id].(saldo := Some(f[id].saldo.value - monto.value), fechaActualizacion := Some(ahora)))
    ensures e.resultado.Success? ==>
              e.filas == f[id := f[id].(saldo := Some(f[id].saldo.value - monto.value), fechaActualizacion := Some(ahora))]
    ensures AlmacenValido(f, sig) ==> AlmacenValido(e.filas, sig)
  {
    if !MontoPositivo(monto) then Fallo(ArgumentoInvalido(MSG_DEBITO_POSITIVO), f, sig)
    else if id !in f then Fallo(NoEncontrada(PorId(id)), f, sig)
    else if f[id].saldo.None? then Fallo(ReferenciaNula, f, sig)
    else if f[id].saldo.value < monto.value then Fallo(SaldoInsuficiente(f[id].saldo.value, monto.value), f, sig)
    else
      var c := Debito(f[id], monto, ahora);
      if c.Failure? then Fallo(Interna(MSG_ERROR_DEBITO), f, sig)
      else
        assert c.value == f[id].(saldo := Some(f[id].saldo.value - monto.value), fechaActualizacion := Some(ahora));
        Escribir(f, sig, c.value, ahora, MSG_ERROR_DEBITO)
  }

  /** `acreditarCuenta`: the amount, then the lookup, then the entity's
      credit and the write-back; no upper bound is checked before the
      write. */
  function Acreditar(f: Tabla, sig: int, id: int, monto: Option<real>, ahora: Instante): (e: Efecto<RespuestaDTO>)
    requires IdsCoherentes(f)
    ensures e.siguienteId == sig
    ensures e.resultado.Failure? ==> e.filas == f
    ensures !MontoPositivo(monto) ==> e.resultado == Failure(ArgumentoInvalido(MSG_CREDITO_POSITIVO))
    ensures MontoPositivo(monto) && id !in f ==> e.resultado == Failure(NoEncontrada(PorId(id)))
    ensures e.resultado.Success? <==>
              MontoPositivo(monto) && id in f && f[id].saldo.Some?
              && Escribible(f, f[id].(saldo := Some(f[id].saldo.value + monto.value), fechaActualizacion := Some(ahora)))
    ensures e.resultado.Success? ==>
              e.filas == f[id := f[id].(saldo := Some(f[id].saldo.value + monto.value), fechaActualizacion := Some(ahora))]
    ensures AlmacenValido(f, sig) ==> AlmacenValido(e.filas, sig)
  {
    if !MontoPositivo(monto) then Fallo(ArgumentoInvalido(MSG_CREDITO_POSITIVO), f, sig)
    else if id !in f then Fallo(NoEncontrada(PorId(id)), f, sig)
    else
      var c := Credito(f[id], monto, ahora);
      if c.Failure? then Fallo(Interna(MSG_ERROR_CREDITO), f, sig)
      else Escribir(f, sig, c.value, ahora, MSG_ERROR_CREDITO)
  }

  // ---------------------------------------------------------------------
  // activarCuenta, desactivarCuenta, eliminarCuenta

  /** `activarCuenta` (`activar` true) and `desactivarCuenta` (false). */
  function CambiarActiva(f: Tabla, sig: int, id: int, activar: bool, ahora: Instante): (e: Efecto<RespuestaDTO>)
    requires IdsCoherentes(f)
    ensures e.siguienteId == sig
    ensures e.resultado.Failure? ==> e.filas == f
    ensures id !in f ==> e.resultado == Failure(NoEncontrada(PorId(id)))
    ensures e.resultado.Success? <==>
              id in f
              && var n := f[id].(activa := Some(activar), fechaActualizacion := Some(ahora));
                 n == f[id] || Escribible(f, n)
    ensures e.resultado.Success? ==>
              id in f && e.filas == f[id := f[id].(activa := Some(activar), fechaActualizacion := Some(ahora))]
    ensures AlmacenValido(f, sig) ==> AlmacenValido(e.filas, sig)
  {
    if id !in f then Fallo(NoEncontrada(PorId(id)), f, sig)
    else
      var c := if activar then Activacion(f[id], ahora) else Desactivacion(f[id], ahora);
      Escribir(f, sig, c, ahora, if activar then MSG_ERROR_ACTIVAR else MSG_ERROR_DESACTIVAR)
  }

  /** `eliminarCuenta`: an existence check, then a hard delete. */
  function Eliminar(f: Tabla, sig: int, id: int): (e: Efecto<()>)
    ensures e.siguienteId == sig
    ensures e.resultado.Success? <==> id in f
    ensures id !in f ==> e.resultado == Failure(NoEncontrada(PorId(id))) && e.filas == f
    ensures id in f ==> e.filas.Keys == f.Keys - {id} && forall k :: k in e.filas ==> e.filas[k] == f[k]
    ensures AlmacenValido(f, sig) ==> AlmacenValido(e.filas, sig)
  {
    if id !in f then Fallo(NoEncontrada(PorId(id)), f, sig)
    else Efecto(Success(()), f - {id}, sig)
  }

  // ---------------------------------------------------------------------
  // Statistics

  /** The map `obtenerEstadisticas` returns, one field per key. */
  datatype Estadisticas = Estadisticas(
    totalCuentas: int,
    cuentasActivas: int,
    cuentasInactivas: int,
    saldoTotalActivo: real,
    promedioSaldoPorCuenta: real)

  /** `obtenerEstadisticas`: counts, the active balance total and its
      average per active account, zero when there is none. */
  function CalcularEstadisticas(f: Tabla): (r: Estadisticas)
    ensures r.totalCuentas == |f| && r.cuentasActivas == |FindByActivaTrue(f)|
    ensures 0 <= r.cuentasActivas <= r.totalCuentas
    ensures r.cuentasInactivas == r.totalCuentas - r.cuentasActivas
    ensures r.cuentasInactivas == |Seleccion(f, No(ActivaIgual(true)))|
    ensures r.saldoTotalActivo == SumaSaldos(FindByActivaTrue(f))
    ensures r.cuentasActivas > 0 ==> r.promedioSaldoPorCuenta * r.cuentasActivas as real == r.saldoTotalActivo
    ensures r.cuentasActivas == 0 ==> r.saldoTotalActivo == 0.0 && r.promedioSaldoPorCuenta == 0.0
    ensures SaldosNoNegativos(f) ==> r.saldoTotalActivo >= 0.0 && r.promedioSaldoPorCuenta >= 0.0
  {
    var total := |f|;
    var activas := CountActiveCuentas(f);
    var saldo := GetTotalSaldoActivo(f);
    Estadisticas(total, activas, total - activas, saldo,
                 if activas > 0 then saldo / activas as real else 0.0)
  }

  /** One entry of `obtenerEstadisticasPorTipo`. */
  datatype EstadisticaTipo = EstadisticaTipo(cantidad: nat, saldoTotal: real, promedioSaldo: real, descripcion: string)

  /** The entry built from one row of the grouping query. */
  function EntradaDe(fila: FilaTipo): (r: EstadisticaTipo)
    ensures r.cantidad == fila.cantidad && r.saldoTotal == fila.saldoTotal
    ensures r.descripcion == Descripcion(fila.tipoCuenta)
    ensures r.cantidad > 0 ==> r.promedioSaldo * r.cantidad as real == r.saldoTotal
    ensures r.cantidad == 0 ==> r.promedioSaldo == 0.0
  {
    EstadisticaTipo(fila.cantidad, fila.saldoTotal,
                    if fila.cantidad > 0 then fila.saldoTotal / fila.cantidad as real else 0.0,
                    Descripcion(fila.tipoCuenta))
  }

  /** The holder criterion of the multi-criteria query: the upper-cased
      holder is `LIKE` the upper-cased pattern `%titular%`. */
  predicate TitularComo(t: string, titular: string) {
    Like(Mayusculas(t), Mayusculas("%" + titular + "%"))
  }

  /** A row meeting the criteria asked for (each only when given). */
  predicate FilaCumple(c: Cuenta, titular: Option<string>, tipo: Option<TipoCuenta>, saldoMinimo: Option<real>,
                       activa: Option<bool>) {
    && (titular.None? || TitularComo(c.titular, titular.value))
    && (tipo.None? || c.tipoCuenta == tipo.value)
    && (activa.None? || c.activa == activa)
    && (saldoMinimo.None? || (c.saldo.Some? && c.saldo.value >= saldoMinimo.value))
  }

  /** A response showing the criteria asked for. */
  predicate RespuestaCumple(o: RespuestaDTO, titular: Option<string>, tipo: Option<TipoCuenta>, saldoMinimo: Option<real>,
                            activa: Option<bool>) {
    && (titular.None? || (o.titular.Some? && TitularComo(o.titular.value, titular.value)))
    && (tipo.None? || o.tipoCuenta == tipo)
    && (activa.None? || o.activa == activa)
    && (saldoMinimo.None? || (o.saldo.Some? && o.saldo.value >= saldoMinimo.value))
  }

  /** Every row the multi-criteria query returns for a type given as its
      constant's name meets the criteria. */
  lemma FilasCumplenCriterios(f: Tabla, titular: Option<string>, tipo: Option<TipoCuenta>, saldoMinimo: Option<real>,
                              activa: Option<bool>)
    ensures var q := FindByCriteriosMultiples(f, titular, if tipo.Some? then Some(Nombre(tipo.value)) else None,
                                              saldoMinimo, activa);
            forall id :: id in q ==> FilaCumple(q[id], titular, tipo, saldoMinimo, activa)
  {
    var q := FindByCriteriosMultiples(f, titular, if tipo.Some? then Some(Nombre(tipo.value)) else None,
                                      saldoMinimo, activa);
    forall id | id in q ensures FilaCumple(q[id], titular, tipo, saldoMinimo, activa) {
      if tipo.Some? {
        NombreInyectivo(q[id].tipoCuenta, tipo.value);
      }
    }
  }

  /** When every row of a table meets the criteria, so does every response
      listing it. */
  lemma RespuestasCumplenCriterios(q: Tabla, titular: Option<string>, tipo: Option<TipoCuenta>, saldoMinimo: Option<real>,
                                   activa: Option<bool>)
    requires forall id :: id in q ==> FilaCumple(q[id], titular, tipo, saldoMinimo, activa)
    ensures forall i :: 0 <= i < |Respuestas(q)| ==> RespuestaCumple(Respuestas(q)[i], titular, tipo, saldoMinimo, activa)
  {
    forall i | 0 <= i < |Respuestas(q)| ensures RespuestaCumple(Respuestas(q)[i], titular, tipo, saldoMinimo, activa) {
      RespuestaEnCumple(q, i, titular, tipo, saldoMinimo, activa);
    }
  }

  /** One response of such a table meets the criteria. */
  lemma RespuestaEnCumple(q: Tabla, i: int, titular: Option<string>, tipo: Option<TipoCuenta>, saldoMinimo: Option<real>,
                          activa: Option<bool>)
    requires forall id :: id in q ==> FilaCumple(q[id], titular, tipo, saldoMinimo, activa)
    requires 0 <= i < |q|
    ensures RespuestaCumple(Respuestas(q)[i], titular, tipo, saldoMinimo, activa)
  {
    assert i < |Respuestas(q)|;
    var id :| id in q && Respuestas(q)[i] == Respuesta(q[id]);
    RespuestaCumpleCriterios(q[id], titular, tipo, saldoMinimo, activa);
  }

  /** The response of a row shows the row's holder, type, state and
      balance. */
  lemma RespuestaCumpleCriterios(c: Cuenta, titular: Option<string>, tipo: Option<TipoCuenta>, saldoMinimo: Option<real>,
                                 activa: Option<bool>)
    requires FilaCumple(c, titular, tipo, saldoMinimo, activa)
    ensures RespuestaCumple(Respuesta(c), titular, tipo, saldoMinimo, activa)
  {
  }

  /** The loop of `obtenerEstadisticasPorTipo`: each row of the grouping
      query, whose types are distinct, becomes the entry of its type. */
  method EntradasPorTipo(rs: seq<FilaTipo>) returns (r: map<TipoCuenta, EstadisticaTipo>)
    requires TiposDistintos(rs)
    ensures forall t :: t in r <==> exists j :: 0 <= j < |rs| && rs[j].tipoCuenta == t
    ensures forall j :: 0 <= j < |rs| ==> rs[j].tipoCuenta in r && r[rs[j].tipoCuenta] == EntradaDe(rs[j])
  {
    r := map[];
    var i := 0;
    while i < |rs|
      invariant 0 <= i <= |rs|
      invariant forall t :: t in r ==> exists j :: 0 <= j < i && rs[j].tipoCuenta == t
      invariant forall j :: 0 <= j < i ==> rs[j].tipoCuenta in r && r[rs[j].tipoCuenta] == EntradaDe(rs[j])
    {
      r := r[rs[i].tipoCuenta := EntradaDe(rs[i])];
      i := i + 1;
    }
  }

  // ---------------------------------------------------------------------
  // The service object

  class ServicioCuentas {
    const repositorio: RepositorioCuentas

    ghost predicate Valid()
      reads this, repositorio
    {
      repositorio.Valid() && AlmacenValido(repositorio.filas, repositorio.siguienteId)
    }

    constructor (r: RepositorioCuentas)
      requires r.Valid() && AlmacenValido(r.filas, r.siguienteId)
      ensures Valid() && repositorio == r
    {
      repositorio := r;
    }

    /** `repository.findById`, loading the row into an entity object. */
    method Cargar(id: int) returns (e: CuentaBancaria?)
      requires Valid()
      ensures e == null <==> id !in repositorio.filas
      ensures e != null ==> fresh(e) && e.Estado() == repositorio.filas[id] && e.id == Some(id)
    {
      var fila := FindById(repositorio.filas, id);
      if fila.None? {
        return null;
      }
      e := new CuentaBancaria(fila.value);
    }

    /** `repository.save` of a loaded entity followed by `toResponseDTO`. */
    method GuardarCargada(e: CuentaBancaria, ahora: Instante, mensaje: string) returns (r: Result<RespuestaDTO, Falla>)
      requires Valid()
      requires e.id.Some? && e.id.value in repositorio.filas
      requires e.Estado() == repositorio.filas[e.id.value] || e.fechaActualizacion == Some(ahora)
      modifies repositorio, e
      ensures Valid()
      ensures Efecto(r, repositorio.filas, repositorio.siguienteId)
              == Escribir(old(repositorio.filas), old(repositorio.siguienteId), old(e.Estado()), ahora, mensaje)
    {
      ghost var f, c := repositorio.filas, e.Estado();
      var o := repositorio.Save(e, ahora);
      ghost var _ := Escribir(f, repositorio.siguienteId, c, ahora, mensaje);
      if o.Fail? {
        return Failure(Interna(mensaje));
      }
      assert c != f[c.id.value] ==> AlActualizar(c, ahora) == c;
      r := Success(ToResponseDTO(Some(e.Estado())).value);
    }

    method CrearCuenta(d: Option<SolicitudDTO>, ahora: Instante) returns (r: Result<RespuestaDTO, Falla>)
      requires Valid()
      modifies repositorio
      ensures Valid()
      ensures Efecto(r, repositorio.filas, repositorio.siguienteId)
              == Crear(old(repositorio.filas), old(repositorio.siguienteId), d, ahora)
    {
      if d.None? {
        return Failure(ReferenciaNula);
      }
      if !IsValidRequestDTO(d) {
        return Failure(ArgumentoInvalido(MSG_DATOS_INVALIDOS));
      }
      if ExistsByNumeroCuenta(repositorio.filas, d.value.numeroCuenta.value) {
        return Failure(Duplicada(d.value.numeroCuenta.value));
      }
      var nueva := ToEntity(d);
      if nueva.Failure? || nueva.value == null {
        return Failure(Interna(MSG_ERROR_CREAR));
      }
      var o := repositorio.Save(nueva.value, ahora);
      if o.Fail? {
        return Failure(Interna(MSG_ERROR_CREAR));
      }
      r := Success(ToResponseDTO(Some(nueva.value.Estado())).value);
    }

    method ObtenerCuentaPorId(id: int) returns (r: Result<RespuestaDTO, Falla>)
      requires Valid()
      ensures r.Success? <==> id in repositorio.filas
      ensures r.Failure? ==> r.error == NoEncontrada(PorId(id))
      ensures r.Success? ==> r.value.id == Some(id) && r.value == Respuesta(repositorio.filas[id])
    {
      var e := Cargar(id);
      if e == null {
        return Failure(NoEncontrada(PorId(id)));
      }
      r := Success(ToResponseDTO(Some(e.Estado())).value);
    }

    method ObtenerCuentaPorNumero(n: string) returns (r: Result<RespuestaDTO, Falla>)
      requires Valid()
      ensures r.Success? <==> ExistsByNumeroCuenta(repositorio.filas, n)
      ensures r.Failure? ==> r.error == NoEncontrada(PorNumero(n))
      ensures r.Success? ==>
                r.value.numeroCuenta == Some(n)
                && forall id :: id in repositorio.filas && repositorio.filas[id].numeroCuenta == n ==>
                     r.value == Respuesta(repositorio.filas[id])
    {
      var fila := FindByNumeroCuenta(repositorio.filas, n);
      if fila.None? {
        return Failure(NoEncontrada(PorNumero(n)));
      }
      forall id | id in repositorio.filas && repositorio.filas[id].numeroCuenta == n
        ensures fila.value == repositorio.filas[id]
      {
        NumeroDeterminaFila(repositorio.filas, n, id);
      }
      r := Success(ToResponseDTO(fila).value);
    }

    method ActualizarCuenta(id: int, d: Option<SolicitudDTO>, ahora: Instante) returns (r: Result<RespuestaDTO, Falla>)
      requires Valid()
      modifies repositorio
      ensures Valid()
      ensures Efecto(r, repositorio.filas, repositorio.siguienteId)
              == Actualizar(old(repositorio.filas), old(repositorio.siguienteId), id, d, ahora)
    {
      var e := Cargar(id);
      if e == null {
        return Failure(NoEncontrada(PorId(id)));
      }
      ghost var f, sig := repositorio.filas, repositorio.siguienteId;
      ghost var a := if d.None? then (f[id], Pass) else Actualizacion(f[id], d.value, ahora);
      var o := UpdateEntityFromDTO(e, d, ahora);
      assert e.Estado() == a.0 && o == a.1;
      if o.Fail? {
        return Failure(Interna(MSG_ERROR_ACTUALIZAR));
      }
      r := GuardarCargada(e, ahora, MSG_ERROR_ACTUALIZAR);
      assert Efecto(r, repositorio.filas, repositorio.siguienteId) == Escribir(f, sig, a.0, ahora, MSG_ERROR_ACTUALIZAR);
    }

    method ActualizarSaldoCuenta(id: int, nuevo: Option<real>, ahora: Instante) returns (r: Result<RespuestaDTO, Falla>)
      requires Valid()
      modifies repositorio
      ensures Valid()
      ensures Efecto(r, repositorio.filas, repositorio.siguienteId)
              == ActualizarSaldo(old(repositorio.filas), old(repositorio.siguienteId), id, nuevo, ahora)
    {
      if nuevo.None? || nuevo.value < 0.0 {
        return Failure(ArgumentoInvalido(MSG_SALDO_NEGATIVO));
      }
      var e := Cargar(id);
      if e == null {
        return Failure(NoEncontrada(PorId(id)));
      }
      var o := e.SetSaldo(nuevo, ahora);
      if o.Fail? {
        return Failure(Interna(MSG_ERROR_SALDO));
      }
      r := GuardarCargada(e, ahora, MSG_ERROR_SALDO);
    }

    method DebitarCuenta(id: int, monto: Option<real>, ahora: Instante) returns (r: Result<RespuestaDTO, Falla>)
      requires Valid()
      modifies repositorio
      ensures Valid()
      ensures Efecto(r, repositorio.filas, repositorio.siguienteId)
              == Debitar(old(repositorio.filas), old(repositorio.siguienteId), id, monto, ahora)
    {
      if monto.None? || monto.value <= 0.0 {
        return Failure(ArgumentoInvalido(MSG_DEBITO_POSITIVO));
      }
      var e := Cargar(id);
      if e == null {
        return Failure(NoEncontrada(PorId(id)));
      }
      if e.saldo.None? {
        return Failure(ReferenciaNula);
      }
      if e.saldo.value < monto.value {
        return Failure(SaldoInsuficiente(e.saldo.value, monto.value));
      }
      var o := e.Debitar(monto, ahora);
      if o.Fail? {
        return Failure(Interna(MSG_ERROR_DEBITO));
      }
      r := GuardarCargada(e, ahora, MSG_ERROR_DEBITO);
    }

    method AcreditarCuenta(id: int, monto: Option<real>, ahora: Instante) returns (r: Result<RespuestaDTO, Falla>)
      requires Valid()
      modifies repositorio
      ensures Valid()
      ensures Efecto(r, repositorio.filas, repositorio.siguienteId)
              == Acreditar(old(repositorio.filas), old(repositorio.siguienteId), id, monto, ahora)
    {
      if monto.None? || monto.value <= 0.0 {
        return Failure(ArgumentoInvalido(MSG_CREDITO_POSITIVO));
      }
      var e := Cargar(id);
      if e == null {
        return Failure(NoEncontrada(PorId(id)));
      }
      var o := e.Acreditar(monto, ahora);
      if o.Fail? {
        return Failure(Interna(MSG_ERROR_CREDITO));
      }
      r := GuardarCargada(e, ahora, MSG_ERROR_CREDITO);
    }

    method ActivarCuenta(id: int, ahora: Instante) returns (r: Result<RespuestaDTO, Falla>)
      requires Valid()
      modifies repositorio
      ensures Valid()
      ensures Efecto(r, repositorio.filas, repositorio.siguienteId)
              == CambiarActiva(old(repositorio.filas), old(repositorio.siguienteId), id, true, ahora)
    {
      var e := Cargar(id);
      if e == null {
        return Failure(NoEncontrada(PorId(id)));
      }
      e.Activar(ahora);
      r := GuardarCargada(e, ahora, MSG_ERROR_ACTIVAR);
    }

    method DesactivarCuenta(id: int, ahora: Instante) returns (r: Result<RespuestaDTO, Falla>)
      requires Valid()
      modifies repositorio
      ensures Valid()
      ensures Efecto(r, repositorio.filas, repositorio.siguienteId)
              == CambiarActiva(old(repositorio.filas), old(repositorio.siguienteId), id, false, ahora)
    {
      var e := Cargar(id);
      if e == null {
        return Failure(NoEncontrada(PorId(id)));
      }
      e.Desactivar(ahora);
      r := GuardarCargada(e, ahora, MSG_ERROR_DESACTIVAR);
    }

    method EliminarCuenta(id: int) returns (r: Result<(), Falla>)
      requires Valid()
      modifies repositorio
      ensures Valid()
      ensures Efecto(r, repositorio.filas, repositorio.siguienteId)
              == Eliminar(old(repositorio.filas), old(repositorio.siguienteId), id)
    {
      if id !in repositorio.filas {
        return Failure(NoEncontrada(PorId(id)));
      }
      var o := repositorio.DeleteById(id);
      if o.Fail? {
        return Failure(Interna(MSG_ERROR_ELIMINAR));
      }
      r := Success(());
    }

    method BuscarCuentasPorTitular(titular: string) returns (r: seq<RespuestaDTO>)
      requires Valid()
      ensures ListaDe(r, FindByTitularContainingIgnoreCase(repositorio.filas, titular))
      ensures forall i :: 0 <= i < |r| ==>
                r[i].titular.Some? && Contiene(Mayusculas(r[i].titular.value), Mayusculas(titular))
    {
      var q := FindByTitularContainingIgnoreCase(repositorio.filas, titular);
      r := Respuestas(q);
      forall i | 0 <= i < |r| ensures r[i].titular.Some? && Contiene(Mayusculas(r[i].titular.value), Mayusculas(titular)) {
        var id :| id in q && r[i] == Respuesta(q[id]);
      }
    }

    method BuscarCuentasPorTipo(t: TipoCuenta) returns (r: seq<RespuestaDTO>)
      requires Valid()
      ensures ListaDe(r, FindByTipoCuenta(repositorio.filas, t))
      ensures forall i :: 0 <= i < |r| ==> r[i].tipoCuenta == Some(t)
    {
      var q := FindByTipoCuenta(repositorio.filas, t);
      r := Respuestas(q);
      forall i | 0 <= i < |r| ensures r[i].tipoCuenta == Some(t) {
        var id :| id in q && r[i] == Respuesta(q[id]);
      }
    }

    method ObtenerCuentasActivas() returns (r: seq<RespuestaDTO>)
      requires Valid()
      ensures ListaDe(r, FindByActivaTrue(repositorio.filas))
      ensures |r| == CountActiveCuentas(repositorio.filas)
      ensures forall i :: 0 <= i < |r| ==> r[i].activa == Some(true)
    {
      var q := FindByActivaTrue(repositorio.filas);
      r := Respuestas(q);
      forall i | 0 <= i < |r| ensures r[i].activa == Some(true) {
        var id :| id in q && r[i] == Respuesta(q[id]);
      }
    }

    /** `buscarConCriterios`: the type goes to the native query as its
        constant's name. */
    method BuscarConCriterios(titular: Option<string>, tipo: Option<TipoCuenta>, saldoMinimo: Option<real>,
                              activa: Option<bool>) returns (r: seq<RespuestaDTO>)
      requires Valid()
      ensures ListaDe(r, FindByCriteriosMultiples(repositorio.filas, titular,
                                                  if tipo.Some? then Some(Nombre(tipo.value)) else None,
                                                  saldoMinimo, activa))
      ensures forall i :: 0 <= i < |r| ==> RespuestaCumple(r[i], titular, tipo, saldoMinimo, activa)
    {
      var tipoStr := if tipo.Some? then Some(Nombre(tipo.value)) else None;
      var q := FindByCriteriosMultiples(repositorio.filas, titular, tipoStr, saldoMinimo, activa);
      r := Respuestas(q);
      FilasCumplenCriterios(repositorio.filas, titular, tipo, saldoMinimo, activa);
      RespuestasCumplenCriterios(q, titular, tipo, saldoMinimo, activa);
    }

    method ObtenerEstadisticas() returns (r: Estadisticas)
      requires Valid()
      ensures r.totalCuentas == |repositorio.filas|
      ensures r.cuentasInactivas == r.totalCuentas - r.cuentasActivas
      ensures r.saldoTotalActivo == GetTotalSaldoActivo(repositorio.filas) && r.saldoTotalActivo >= 0.0
      ensures r.cuentasActivas == CountActiveCuentas(repositorio.filas)
      ensures r.cuentasActivas > 0 ==> r.promedioSaldoPorCuenta == r.saldoTotalActivo / r.cuentasActivas as real
      ensures r.cuentasActivas == 0 ==> r.promedioSaldoPorCuenta == 0.0
    {
      var total := |repositorio.filas|;
      var activas := CountActiveCuentas(repositorio.filas);
      var saldo := GetTotalSaldoActivo(repositorio.filas);
      assert SaldosNoNegativos(repositorio.filas);
      r := Estadisticas(total, activas, total - activas, saldo,
                        if activas > 0 then saldo / activas as real else 0.0);
    }

    /** `obtenerEstadisticasPorTipo`: one entry per row of the grouping
        query, put into a map keyed by type. */
    method ObtenerEstadisticasPorTipo() returns (r: map<TipoCuenta, EstadisticaTipo>)
      requires Valid()
      ensures forall t :: t in r <==> |ActivasDeTipo(repositorio.filas, t)| > 0
      ensures forall t :: t in r ==> r[t] == EntradaDe(FilaDe(repositorio.filas, t))
    {
      var resultados := GetEstadisticasPorTipoCuenta(repositorio.filas);
      r := EntradasPorTipo(resultados);
      forall t | t in r
        ensures |ActivasDeTipo(repositorio.filas, t)| > 0 && r[t] == EntradaDe(FilaDe(repositorio.filas, t))
      {
        var j :| 0 <= j < |resultados| && resultados[j].tipoCuenta == t;
        assert resultados[j] == FilaDe(repositorio.filas, t);
      }
      forall t | |ActivasDeTipo(repositorio.filas, t)| > 0 ensures t in r {
        var j :| 0 <= j < |resultados| && resultados[j].tipoCuenta == t;
      }
    }

    method ExisteNumeroCuenta(n: string) returns (b: bool)
      requires Valid()
      ensures b <==> exists id :: id in repositorio.filas && repositorio.filas[id].numeroCuenta == n
    {
      b := FindByNumeroCuenta(repositorio.filas, n).Some?;
    }

    method ObtenerTitularesConCuentasDuplicadas() returns (r: set<string>)
      requires Valid()
      ensures forall t :: t in r <==>
                exists a, b :: a in repositorio.filas && b in repositorio.filas && a != b
                               && repositorio.filas[a].titular == t && repositorio.filas[b].titular == t
    {
      r := FindTitularesConCuentasDuplicadas(repositorio.filas);
      forall t ensures t in r <==>
                exists a, b :: a in repositorio.filas && b in repositorio.filas && a != b
                               && repositorio.filas[a].titular == t && repositorio.filas[b].titular == t
      {
        TitularesDuplicadosSii(repositorio.filas, t);
      }
    }
  }
}
