/** Properties that relate several operations of the account service:
    what a creation makes visible, why a number cannot be created twice,
    that a debit and a credit of the same amount cancel out, and what a
    deletion hides. */
module PropiedadesServicio {
  import opened Wrappers
  import opened Texto
  import opened TipoCuentas
  import opened Errores
  import opened Entidad
  import opened Solicitudes
  import opened Mapper
  import opened Repositorio
  import opened Servicio

  /** A body that passes `@Valid` and carries a balance and a currency is
      stored under the next identity value, and reading that id back gives
      the very response the creation returned. */
  lemma CrearLuegoConsultar(f: Tabla, sig: int, d: SolicitudDTO, ahora: Instante)
    requires AlmacenValido(f, sig)
    requires SolicitudValida(d) && d.saldo.Some? && d.moneda.Some?
    requires !ExistsByNumeroCuenta(f, d.numeroCuenta.value)
    ensures var e := Crear(f, sig, Some(d), ahora);
            && e.resultado.Success?
            && e.resultado.value.id == Some(sig)
            && e.resultado.value.activa == Some(true)
            && e.resultado.value.numeroCuenta == d.numeroCuenta
            && e.resultado.value.titular == d.titular
            && e.resultado.value.saldo == d.saldo
            && Consultar(e.filas, sig) == e.resultado
  {
    ValidaImplicaMinima(d);
    ValidaCumpleRestriccionesEntidad(d, ahora);
    ConstruccionSiiMinima(d);
  }

  /** After a successful creation, any later creation with the same
      account number fails as a duplicate, whatever its other fields. */
  lemma {:induction false} CrearDosVeces(f: Tabla, sig: int, d: SolicitudDTO, otra: SolicitudDTO, t1: Instante, t2: Instante)
    requires Crear(f, sig, Some(d), t1).resultado.Success?
    requires IsValidRequestDTO(Some(otra)) && otra.numeroCuenta == d.numeroCuenta
    ensures var e := Crear(f, sig, Some(d), t1);
            Crear(e.filas, e.siguienteId, Some(otra), t2).resultado == Failure(Duplicada(d.numeroCuenta.value))
  {
    var e := Crear(f, sig, Some(d), t1);
    assert e.filas[sig].numeroCuenta == d.numeroCuenta.value;
  }

  /** Two amounts with at most two decimals differ by an amount with at
      most two decimals. */
  lemma DigitosResta(a: real, b: real)
    requires DigitosValidos(a) && DigitosValidos(b) && 0.0 <= b <= a
    ensures DigitosValidos(a - b)
  {
    var x, y := (a * 100.0).Floor, (b * 100.0).Floor;
    assert a * 100.0 == x as real && b * 100.0 == y as real;
    var z := (a - b) * 100.0;
    assert z == (x - y) as real;
    assert z.Floor == x - y;
  }

  /** Taking from a valid balance an amount with at most two decimals
      that it covers leaves a valid balance. */
  lemma SaldoTrasDebito(saldo: Option<real>, monto: real)
    requires SaldoValido(saldo)
    requires 0.0 < monto && DigitosValidos(monto) && monto <= saldo.value
    ensures SaldoValido(Some(saldo.value - monto))
  {
    DigitosResta(saldo.value, monto);
  }

  /** Changing only the balance of a stored row, to a value the balance
      column admits, gives a row the write-back accepts. */
  lemma SaldoEscribible(f: Tabla, sig: int, id: int, s: Option<real>, t: Instante)
    requires AlmacenValido(f, sig) && id in f
    requires SaldoValido(s)
    ensures Escribible(f, f[id].(saldo := s, fechaActualizacion := Some(t)))
  {
    var c := f[id];
    assert CumpleRestricciones(c) && ColumnasNoNulas(c);
  }

  /** A debit succeeds when the balance covers the amount and the write-back
      accepts the reduced row. */
  lemma DebitoAdmitido(f: Tabla, sig: int, id: int, monto: Option<real>, t: Instante)
    requires IdsCoherentes(f) && id in f
    requires MontoPositivo(monto) && f[id].saldo.Some? && monto.value <= f[id].saldo.value
    requires Escribible(f, f[id].(saldo := Some(f[id].saldo.value - monto.value), fechaActualizacion := Some(t)))
    ensures Debitar(f, sig, id, monto, t).resultado.Success?
  {
  }

  /** A credit succeeds when the write-back accepts the increased row. */
  lemma CreditoAdmitido(f: Tabla, sig: int, id: int, monto: Option<real>, t: Instante)
    requires IdsCoherentes(f) && id in f
    requires MontoPositivo(monto) && f[id].saldo.Some?
    requires Escribible(f, f[id].(saldo := Some(f[id].saldo.value + monto.value), fechaActualizacion := Some(t)))
    ensures Acreditar(f, sig, id, monto, t).resultado.Success?
  {
  }

  /** Changing only the active flag of a stored row gives a row the
      write-back accepts. */
  lemma ActivaEscribible(f: Tabla, sig: int, id: int, activar: bool, t: Instante)
    requires AlmacenValido(f, sig) && id in f
    ensures Escribible(f, f[id].(activa := Some(activar), fechaActualizacion := Some(t)))
  {
    var c := f[id];
    assert CumpleRestricciones(c) && ColumnasNoNulas(c);
  }

  /** On a consistent store, activating or deactivating an existing account
      succeeds and leaves the flag as asked. */
  lemma CambiarActivaAdmitida(f: Tabla, sig: int, id: int, activar: bool, t: Instante)
    requires AlmacenValido(f, sig) && id in f
    ensures var e := CambiarActiva(f, sig, id, activar, t);
            e.resultado.Success? && e.filas[id].activa == Some(activar) && e.resultado.value.activa == Some(activar)
  {
    ActivaEscribible(f, sig, id, activar, t);
  }

  /** On a consistent store, setting the balance of an existing account to
      a value the balance column admits succeeds and stores that value. */
  lemma ActualizarSaldoAdmitido(f: Tabla, sig: int, id: int, nuevo: Option<real>, t: Instante)
    requires AlmacenValido(f, sig) && id in f && SaldoValido(nuevo)
    ensures var e := ActualizarSaldo(f, sig, id, nuevo, t);
            e.resultado.Success? && e.filas[id].saldo == nuevo && e.resultado.value.saldo == nuevo
  {
    SaldoEscribible(f, sig, id, nuevo, t);
  }

  /** The row `updateEntityFromDTO` makes from a stored row and a body that
      passes `@Valid` is one the write-back accepts. */
  lemma ActualizacionEscribible(f: Tabla, sig: int, id: int, d: SolicitudDTO, t: Instante)
    requires AlmacenValido(f, sig) && id in f && SolicitudValida(d)
    ensures var a := Actualizacion(f[id], d, t);
            a.1.Pass? && Escribible(f, a.0)
  {
    var c := f[id];
    var a := Actualizacion(c, d, t);
    TrimIdempotente(d.titular.value);
    LongitudTrim(d.titular.value);
    assert CumpleRestricciones(c) && ColumnasNoNulas(c);
    assert TitularValido(a.0.titular) && SaldoValido(a.0.saldo);
  }

  /** On a consistent store, updating an existing account with a body that
      passes `@Valid` succeeds, stores the trimmed holder and the balance
      given (or keeps the old one), and leaves every other row alone. */
  lemma ActualizarAdmitida(f: Tabla, sig: int, id: int, d: SolicitudDTO, t: Instante)
    requires AlmacenValido(f, sig) && id in f && SolicitudValida(d)
    ensures var e := Actualizar(f, sig, id, Some(d), t);
            && e.resultado.Success?
            && SoloCambiaFila(f, e.filas, id)
            && e.filas[id].titular == Trim(d.titular.value)
            && e.filas[id].saldo == (if d.saldo.Some? then d.saldo else f[id].saldo)
  {
    ActualizacionEscribible(f, sig, id, d, t);
  }

  /** The row a covered debit writes is one the write-back accepts. */
  lemma DebitoEscribible(f: Tabla, sig: int, id: int, monto: Option<real>, t: Instante)
    requires AlmacenValido(f, sig) && id in f
    requires MontoPositivo(monto) && DigitosValidos(monto.value) && monto.value <= f[id].saldo.value
    ensures f[id].saldo.Some?
    ensures Escribible(f, f[id].(saldo := Some(f[id].saldo.value - monto.value), fechaActualizacion := Some(t)))
  {
    var c := f[id];
    assert SaldoValido(c.saldo);
    SaldoTrasDebito(c.saldo, monto.value);
    SaldoEscribible(f, sig, id, Some(c.saldo.value - monto.value), t);
  }

  /** After a debit has been written, putting the original balance back
      with a new update time is a row the write-back accepts. */
  lemma RestauracionEscribible(f: Tabla, sig: int, id: int, monto: Option<real>, t1: Instante, t2: Instante)
    requires AlmacenValido(f, sig) && id in f && f[id].saldo.Some? && monto.Some?
    ensures var g := f[id := f[id].(saldo := Some(f[id].saldo.value - monto.value), fechaActualizacion := Some(t1))];
            Escribible(g, g[id].(saldo := Some(g[id].saldo.value + monto.value), fechaActualizacion := Some(t2)))
  {
    var c := f[id];
    var g := f[id := c.(saldo := Some(c.saldo.value - monto.value), fechaActualizacion := Some(t1))];
    RestauracionEsOriginal(f, id, monto.value, t1, t2);
    assert CumpleRestricciones(c) && ColumnasNoNulas(c);
    assert !NumeroEnOtraFila(g, c.numeroCuenta, id);
  }

  /** Taking an amount off a row and adding it back restores the row up to
      its update time. */
  lemma RestauracionEsOriginal(f: Tabla, id: int, monto: real, t1: Instante, t2: Instante)
    requires id in f && f[id].saldo.Some?
    ensures var g := f[id := f[id].(saldo := Some(f[id].saldo.value - monto), fechaActualizacion := Some(t1))];
            && g[id].(saldo := Some(g[id].saldo.value + monto), fechaActualizacion := Some(t2)) == f[id].(fechaActualizacion := Some(t2))
            && g[id := f[id].(fechaActualizacion := Some(t2))] == f[id := f[id].(fechaActualizacion := Some(t2))]
  {
  }

  /** On a valid store, a debit of a covered amount with at most two
      decimals succeeds and writes the reduced row. */
  lemma DebitoEfecto(f: Tabla, sig: int, id: int, monto: Option<real>, t: Instante)
    requires AlmacenValido(f, sig) && id in f
    requires MontoPositivo(monto) && DigitosValidos(monto.value) && monto.value <= f[id].saldo.value
    ensures var e := Debitar(f, sig, id, monto, t);
            && e.resultado.Success?
            && e.filas == f[id := f[id].(saldo := Some(f[id].saldo.value - monto.value), fechaActualizacion := Some(t))]
  {
    DebitoEscribible(f, sig, id, monto, t);
    DebitoAdmitido(f, sig, id, monto, t);
  }

  /** Crediting back the amount a debit took succeeds and restores the
      row up to its update time. */
  lemma CreditoRestaura(f: Tabla, sig: int, id: int, monto: Option<real>, t1: Instante, t2: Instante)
    requires AlmacenValido(f, sig) && id in f && f[id].saldo.Some? && MontoPositivo(monto)
    ensures var g := f[id := f[id].(saldo := Some(f[id].saldo.value - monto.value), fechaActualizacion := Some(t1))];
            var e := Acreditar(g, sig, id, monto, t2);
            && e.resultado.Success?
            && e.filas == f[id := f[id].(fechaActualizacion := Some(t2))]
  {
    var c := f[id];
    var g := f[id := c.(saldo := Some(c.saldo.value - monto.value), fechaActualizacion := Some(t1))];
    RestauracionEscribible(f, sig, id, monto, t1, t2);
    assert IdsCoherentes(g);
    CreditoAdmitido(g, sig, id, monto, t2);
    RestauracionEsOriginal(f, id, monto.value, t1, t2);
  }

  /** A debit of an amount the account covers, followed by a credit of the
      same amount, leaves the balance where it was; only the update time
      moves. The amount has at most two decimals, as the balance column
      requires. */
  lemma {:induction false} DebitarLuegoAcreditar(f: Tabla, sig: int, id: int, monto: Option<real>, t1: Instante, t2: Instante)
    requires AlmacenValido(f, sig) && id in f
    requires MontoPositivo(monto) && DigitosValidos(monto.value) && monto.value <= f[id].saldo.value
    ensures var e1 := Debitar(f, sig, id, monto, t1);
            && e1.resultado.Success?
            && var e2 := Acreditar(e1.filas, sig, id, monto, t2);
            && e2.resultado.Success?
            && e2.filas == f[id := f[id].(fechaActualizacion := Some(t2))]
  {
    DebitoEfecto(f, sig, id, monto, t1);
    CreditoRestaura(f, sig, id, monto, t1, t2);
  }

  /** A deleted account is not found afterwards. */
  lemma EliminarLuegoConsultar(f: Tabla, sig: int, id: int)
    ensures var e := Eliminar(f, sig, id);
            Consultar(e.filas, id) == Failure(NoEncontrada(PorId(id)))
  {
  }

  /** With no account, the statistics are all zero and the average is a
      plain zero rather than a division error. */
  lemma EstadisticasSinCuentas()
    ensures CalcularEstadisticas(map[]) == Estadisticas(0, 0, 0, 0.0, 0.0)
  {
  }
}
