/** The account repository: the `cuentas_bancarias` table as a map from
    identity value to row, the derived and hand-written queries as filters
    and folds over it, and the writes (`save`, `deleteById` and the two
    `@Modifying` bulk updates) as transitions of the table. */
module Repositorio {
  import opened Wrappers
  import opened Texto
  import opened TipoCuentas
  import opened Errores
  import opened Entidad

  /** The table: each row under its identity value. */
  type Tabla = map<int, Cuenta>

  // ---------------------------------------------------------------------
  // Row order. None of the list queries has an `ORDER BY`; the model
  // returns rows in ascending identity order, which is one admissible order.

  /** A set of integers is empty or has an element. */
  lemma VacioOHabitado(s: set<int>)
    ensures s == {} || exists x :: x in s
  {
    if forall x :: x !in s {
      assert s == {};
    }
  }

  lemma {:induction false} ExisteMinimo(s: set<int>)
    requires s != {}
    ensures exists m :: m in s && forall k :: k in s ==> m <= k
    decreases |s|
  {
    VacioOHabitado(s);
    var x :| x in s;
    if s == {x} {
      assert forall k :: k in s ==> x <= k;
    } else {
      var r := s - {x};
      VacioOHabitado(r);
      ExisteMinimo(r);
      var m :| m in r && forall k :: k in r ==> m <= k;
      var menor := if x < m then x else m;
      forall k | k in s ensures menor <= k {
        if k != x { assert k in r; }
      }
      assert menor in s;
    }
  }

  function Minimo(s: set<int>): (m: int)
    requires s != {}
    ensures m in s && forall k :: k in s ==> m <= k
  {
    ExisteMinimo(s);
    var m :| m in s && forall k :: k in s ==> m <= k; m
  }

  function ClavesOrdenadas(s: set<int>): (r: seq<int>)
    ensures |r| == |s|
    ensures forall k :: k in r <==> k in s
    ensures forall i, j :: 0 <= i < j < |r| ==> r[i] < r[j]
    decreases |s|
  {
    if s == {} then []
    else
      var m := Minimo(s);
      [m] + ClavesOrdenadas(s - {m})
  }

  /** Every row is stored under its own identity value. */
  predicate IdsCoherentes(q: Tabla) {
    forall id :: id in q ==> q[id].id == Some(id)
  }

  /** The rows of `q` under the keys `ks`, in that order. */
  function FilasEn(q: Tabla, ks: seq<int>): (r: seq<Cuenta>)
    requires forall i :: 0 <= i < |ks| ==> ks[i] in q
    ensures |r| == |ks|
    ensures forall i :: 0 <= i < |r| ==> r[i] == q[ks[i]]
  {
    if ks == [] then [] else [q[ks[0]]] + FilasEn(q, ks[1..])
  }

  /** The rows of `q` as the list a query returns: each row of the table
      once and nothing else, in ascending identity order (the next two
      lemmas). */
  function Filas(q: Tabla): (r: seq<Cuenta>)
    ensures |r| == |q|
    ensures forall i :: 0 <= i < |r| ==> r[i] in q.Values
  {
    FilasEn(q, ClavesOrdenadas(q.Keys))
  }

  lemma FilasCompletas(q: Tabla)
    ensures forall id :: id in q ==> q[id] in Filas(q)
  {
  }

  lemma FilasEnOrden(q: Tabla)
    requires IdsCoherentes(q)
    ensures forall i, j :: 0 <= i < j < |Filas(q)| ==>
              Filas(q)[i].id.Some? && Filas(q)[j].id.Some? && Filas(q)[i].id.value < Filas(q)[j].id.value
  {
    var ks := ClavesOrdenadas(q.Keys);
    var r := FilasEn(q, ks);
    assert Filas(q) == r;
    forall i, j | 0 <= i < j < |r| ensures r[i].id.Some? && r[j].id.Some? && r[i].id.value < r[j].id.value {
      assert r[i].id == Some(ks[i]) && r[j].id == Some(ks[j]);
    }
  }

  // ---------------------------------------------------------------------
  // Row filters, in the SQL semantics of the queries: a comparison with a
  // null column is not true

  datatype Filtro =
    | Todas
      /** `titular` containing the text, ignoring case (derived query). */
    | TitularContiene(texto: string)
      /** `UPPER(titular) LIKE UPPER(CONCAT('%', texto, '%'))` (native query). */
    | TitularComo(texto: string)
    | TitularIgual(texto: string)
    | DeTipo(tipo: TipoCuenta)
      /** The `tipo_cuenta` column, which stores the constant's name. */
    | NombreTipo(nombre: string)
    | EnTipos(tipos: seq<TipoCuenta>)
    | ActivaIgual(valor: bool)
    | SaldoMayorQue(limite: real)
    | SaldoDesde(limite: real)
    | SaldoEntre(minimo: real, maximo: real)
    | CreadaDespuesDe(fecha: Instante)
      /** `saldo = 0 AND fechaActualizacion < fecha AND activa = true`. */
    | SinMovimientoDesde(fecha: Instante)
      /** The `WHERE` clause of `findByCriteriosMultiples`: each non-null
          criterion must hold. */
    | Criterios(titular: Option<string>, nombreTipo: Option<string>, saldoMinimo: Option<real>, activa: Option<bool>)
    | Y(izquierdo: Filtro, derecho: Filtro)
      /** The complement of a filter, used to split a table in two. */
    | No(negado: Filtro)

  predicate Cumple(c: Cuenta, f: Filtro) {
    match f
    case Todas => true
    case TitularContiene(t) => Contiene(Mayusculas(c.titular), Mayusculas(t))
    case TitularComo(t) => Like(Mayusculas(c.titular), Mayusculas("%" + t + "%"))
    case TitularIgual(t) => c.titular == t
    case DeTipo(t) => c.tipoCuenta == t
    case NombreTipo(n) => Nombre(c.tipoCuenta) == n
    case EnTipos(ts) => c.tipoCuenta in ts
    case ActivaIgual(v) => c.activa == Some(v)
    case SaldoMayorQue(m) => c.saldo.Some? && c.saldo.value > m
    case SaldoDesde(m) => c.saldo.Some? && c.saldo.value >= m
    case SaldoEntre(lo, hi) => c.saldo.Some? && lo <= c.saldo.value <= hi
    case CreadaDespuesDe(d) => c.fechaCreacion.Some? && c.fechaCreacion.value > d
    case SinMovimientoDesde(d) =>
      c.saldo == Some(0.0) && c.fechaActualizacion.Some? && c.fechaActualizacion.value < d && c.activa == Some(true)
    case Criterios(t, n, m, v) =>
      && (t.None? || Like(Mayusculas(c.titular), Mayusculas("%" + t.value + "%")))
      && (n.None? || Nombre(c.tipoCuenta) == n.value)
      && (m.None? || (c.saldo.Some? && c.saldo.value >= m.value))
      && (v.None? || c.activa == v)
    case Y(a, b) => Cumple(c, a) && Cumple(c, b)
    case No(a) => !Cumple(c, a)
  }

  /** The rows of `q` that pass `f`, under their own keys. */
  function Seleccion(q: Tabla, f: Filtro): (r: Tabla)
    ensures forall id :: id in r <==> id in q && Cumple(q[id], f)
    ensures forall id :: id in r ==> r[id] == q[id]
  {
    map id | id in q && Cumple(q[id], f) :: q[id]
  }

  // ---------------------------------------------------------------------
  // Lookups

  function FindById(q: Tabla, id: int): (r: Option<Cuenta>)
    ensures r.Some? <==> id in q
    ensures r.Some? ==> r.value == q[id]
  {
    if id in q then Some(q[id]) else None
  }

  /** The unique constraint on `numero_cuenta`. */
  predicate NumerosUnicos(q: Tabla) {
    forall a, b :: a in q && b in q && q[a].numeroCuenta == q[b].numeroCuenta ==> a == b
  }

  predicate ExistsByNumeroCuenta(q: Tabla, n: string) {
    exists id :: id in q && q[id].numeroCuenta == n
  }

  function FindByNumeroCuenta(q: Tabla, n: string): (r: Option<Cuenta>)
    ensures r.Some? <==> ExistsByNumeroCuenta(q, n)
    ensures r.Some? ==> r.value in q.Values && r.value.numeroCuenta == n
  {
    var ids := set id | id in q && q[id].numeroCuenta == n;
    assert forall id :: id in q && q[id].numeroCuenta == n ==> id in ids;
    if ids == {} then None else Some(q[Minimo(ids)])
  }

  /** Under the unique constraint a number names at most one row, and the
      lookup by number finds exactly that row. */
  lemma NumeroDeterminaFila(q: Tabla, n: string, id: int)
    requires NumerosUnicos(q) && id in q && q[id].numeroCuenta == n
    ensures FindByNumeroCuenta(q, n) == Some(q[id])
    ensures forall k :: k in q && q[k].numeroCuenta == n ==> k == id
  {
    var ids := set k | k in q && q[k].numeroCuenta == n;
    assert id in ids;
  }

  // ---------------------------------------------------------------------
  // Finders

  function FindByTitularContainingIgnoreCase(q: Tabla, titular: string): (r: Tabla)
    ensures forall id :: id in r <==> id in q && Contiene(Mayusculas(q[id].titular), Mayusculas(titular))
    ensures forall id :: id in r ==> r[id] == q[id]
  {
    Seleccion(q, TitularContiene(titular))
  }

  function FindByTipoCuenta(q: Tabla, t: TipoCuenta): (r: Tabla)
    ensures forall id :: id in r <==> id in q && q[id].tipoCuenta == t
    ensures forall id :: id in r ==> r[id] == q[id]
  {
    Seleccion(q, DeTipo(t))
  }

  function FindByActivaTrue(q: Tabla): (r: Tabla)
    ensures forall id :: id in r <==> id in q && q[id].activa == Some(true)
    ensures forall id :: id in r ==> r[id] == q[id]
  {
    Seleccion(q, ActivaIgual(true))
  }

  function FindBySaldoGreaterThan(q: Tabla, minimo: real): (r: Tabla)
    ensures forall id :: id in r <==> id in q && q[id].saldo.Some? && q[id].saldo.value > minimo
    ensures forall id :: id in r ==> r[id] == q[id]
  {
    Seleccion(q, SaldoMayorQue(minimo))
  }

  function FindBySaldoBetween(q: Tabla, minimo: real, maximo: real): (r: Tabla)
    ensures forall id :: id in r <==> id in q && q[id].saldo.Some? && minimo <= q[id].saldo.value <= maximo
    ensures forall id :: id in r ==> r[id] == q[id]
  {
    Seleccion(q, SaldoEntre(minimo, maximo))
  }

  function FindByFechaCreacionAfter(q: Tabla, fecha: Instante): (r: Tabla)
    ensures forall id :: id in r <==> id in q && q[id].fechaCreacion.Some? && q[id].fechaCreacion.value > fecha
    ensures forall id :: id in r ==> r[id] == q[id]
  {
    Seleccion(q, CreadaDespuesDe(fecha))
  }

  /** A row whose balance equals the bound is left out by the strict
      finder and kept by the inclusive one, at either end. */
  lemma LimitesDeSaldo(q: Tabla, id: int, m: real, otro: real)
    requires id in q && q[id].saldo == Some(m)
    ensures id !in FindBySaldoGreaterThan(q, m)
    ensures m <= otro ==> id in FindBySaldoBetween(q, m, otro)
    ensures otro <= m ==> id in FindBySaldoBetween(q, otro, m)
  {
  }

  // ---------------------------------------------------------------------
  // The native multi-criteria query

  function FindByCriteriosMultiples(q: Tabla, titular: Option<string>, tipoCuenta: Option<string>,
                                    saldoMinimo: Option<real>, activa: Option<bool>): (r: Tabla)
    ensures forall id :: id in r <==>
              (&& id in q
               && (titular.None? || Like(Mayusculas(q[id].titular), Mayusculas("%" + titular.value + "%")))
               && (tipoCuenta.None? || Nombre(q[id].tipoCuenta) == tipoCuenta.value)
               && (saldoMinimo.None? || (q[id].saldo.Some? && q[id].saldo.value >= saldoMinimo.value))
               && (activa.None? || q[id].activa == activa))
    ensures forall id :: id in r ==> r[id] == q[id]
  {
    Seleccion(q, Criterios(titular, tipoCuenta, saldoMinimo, activa))
  }

  /** With every criterion null the query returns the whole table. */
  lemma CriteriosNulos(q: Tabla)
    ensures FindByCriteriosMultiples(q, None, None, None, None) == q
  {
  }

  /** The criteria filter independently: the result is the intersection
      of the four single-criterion queries. */
  lemma CriteriosSonConjuncion(q: Tabla, titular: Option<string>, tipoCuenta: Option<string>,
                               saldoMinimo: Option<real>, activa: Option<bool>)
    ensures FindByCriteriosMultiples(q, titular, tipoCuenta, saldoMinimo, activa).Keys
            == FindByCriteriosMultiples(q, titular, None, None, None).Keys
             * FindByCriteriosMultiples(q, None, tipoCuenta, None, None).Keys
             * FindByCriteriosMultiples(q, None, None, saldoMinimo, None).Keys
             * FindByCriteriosMultiples(q, None, None, None, activa).Keys
  {
  }

  /** The type criterion, given a constant's name, is the finder by type;
      the active criterion set to true is the finder of active accounts. */
  lemma CriteriosComoFinders(q: Tabla, t: TipoCuenta)
    ensures FindByCriteriosMultiples(q, None, Some(Nombre(t)), None, None) == FindByTipoCuenta(q, t)
    ensures FindByCriteriosMultiples(q, None, None, None, Some(true)) == FindByActivaTrue(q)
  {
    forall u | Nombre(u) == Nombre(t) ensures u == t {
      NombreInyectivo(u, t);
    }
  }

  /** The minimum-balance criterion is inclusive: it keeps the rows above
      the bound, as the strict finder does, and also those equal to it. */
  lemma CriterioSaldoInclusivo(q: Tabla, m: real, id: int)
    ensures id in FindByCriteriosMultiples(q, None, None, Some(m), None)
            <==> id in FindBySaldoGreaterThan(q, m) || (id in q && q[id].saldo == Some(m))
  {
  }

  predicate SinComodines(t: string) {
    forall k :: 0 <= k < |t| ==> !EsComodin(t[k])
  }

  lemma {:induction false} MayusculasConcat(a: string, b: string)
    ensures Mayusculas(a + b) == Mayusculas(a) + Mayusculas(b)
  {
    var ab := a + b;
    assert forall k :: 0 <= k < |ab| ==> Mayusculas(ab)[k] == (Mayusculas(a) + Mayusculas(b))[k] by {
      forall k | 0 <= k < |ab| ensures Mayusculas(ab)[k] == (Mayusculas(a) + Mayusculas(b))[k] {
        if k < |a| { assert ab[k] == a[k]; } else { assert ab[k] == b[k - |a|]; }
      }
    }
  }

  /** Upper-casing neither creates nor removes a wildcard. */
  lemma MayusculasSinComodines(t: string)
    requires SinComodines(t)
    ensures SinComodines(Mayusculas(t))
  {
  }

  /** For a holder text free of `%` and `_`, the native query's `LIKE`
      criterion selects exactly what the derived case-insensitive
      containment finder selects. */
  lemma CriterioTitularEsContiene(q: Tabla, t: string)
    requires SinComodines(t)
    ensures FindByCriteriosMultiples(q, Some(t), None, None, None) == FindByTitularContainingIgnoreCase(q, t)
  {
    MayusculasConcat("%", t);
    MayusculasConcat("%" + t, "%");
    assert Mayusculas("%") == "%";
    assert Mayusculas("%" + t + "%") == "%" + Mayusculas(t) + "%";
    MayusculasSinComodines(t);
    forall id | id in q
      ensures Cumple(q[id], TitularComo(t)) <==> Cumple(q[id], TitularContiene(t))
    {
      LikeContiene(Mayusculas(q[id].titular), Mayusculas(t));
    }
  }

  // ---------------------------------------------------------------------
  // Folds

  function ValorSaldo(c: Cuenta): real {
    if c.saldo.Some? then c.saldo.value else 0.0
  }

  predicate SaldosNoNegativos(q: Tabla) {
    forall id :: id in q ==> ValorSaldo(q[id]) >= 0.0
  }

  /** The balances of the rows of `q` under the keys `ks`. */
  function SumaEn(q: Tabla, ks: set<int>): (r: real)
    requires ks <= q.Keys
    ensures ks == {} ==> r == 0.0
    ensures (forall id :: id in ks ==> ValorSaldo(q[id]) >= 0.0) ==> r >= 0.0
    decreases |ks|
  {
    if ks == {} then 0.0
    else
      var k := Minimo(ks);
      ValorSaldo(q[k]) + SumaEn(q, ks - {k})
  }

  /** `COALESCE(SUM(c.saldo), 0)`: `SUM` skips a null balance and is null
      on no rows, which `COALESCE` turns into zero. */
  function SumaSaldos(q: Tabla): (r: real)
    ensures q.Keys == {} ==> r == 0.0
    ensures SaldosNoNegativos(q) ==> r >= 0.0
  {
    SumaEn(q, q.Keys)
  }

  /** The sum does not depend on which row is taken first. */
  lemma {:induction false} SumaEnQuitar(q: Tabla, ks: set<int>, k: int)
    requires ks <= q.Keys && k in ks
    ensures SumaEn(q, ks) == ValorSaldo(q[k]) + SumaEn(q, ks - {k})
    decreases |ks|
  {
    var m := Minimo(ks);
    if m != k {
      SumaEnQuitar(q, ks - {m}, k);
      var m2 := Minimo(ks - {k});
      assert m in ks - {k} && m2 in ks;
      assert m2 == m;
      assert ks - {m} - {k} == ks - {k} - {m};
    }
  }

  /** Any set of keys splits a sum in two parts. */
  lemma {:induction false} SumaEnParticion(q: Tabla, ks: set<int>, p: set<int>)
    requires ks <= q.Keys
    ensures SumaEn(q, ks) == SumaEn(q, ks * p) + SumaEn(q, ks - p)
    decreases |ks|
  {
    if ks != {} {
      var k := Minimo(ks);
      var r := ks - {k};
      SumaEnParticion(q, r, p);
      if k in p {
        assert r * p == (ks * p) - {k} && r - p == ks - p;
        SumaEnQuitar(q, ks * p, k);
      } else {
        assert r * p == ks * p && r - p == (ks - p) - {k};
        SumaEnQuitar(q, ks - p, k);
      }
    }
  }

  /** The sum reads only the rows under the keys summed. */
  lemma {:induction false} SumaEnCoincide(q: Tabla, r: Tabla, ks: set<int>)
    requires ks <= q.Keys && ks <= r.Keys
    requires forall id :: id in ks ==> q[id] == r[id]
    ensures SumaEn(q, ks) == SumaEn(r, ks)
    decreases |ks|
  {
    if ks != {} {
      SumaEnCoincide(q, r, ks - {Minimo(ks)});
    }
  }

  /** The balances of the rows of `q` that pass `g`. */
  lemma SumaSeleccion(q: Tabla, g: Filtro)
    ensures SumaSaldos(Seleccion(q, g)) == SumaEn(q, Seleccion(q, g).Keys)
  {
    var a := Seleccion(q, g);
    SumaEnCoincide(q, a, a.Keys);
  }

  /** A filter splits the keys of a table in two disjoint parts. */
  lemma ClavesParticion(q: Tabla, g: Filtro)
    ensures var a, b := Seleccion(q, g).Keys, Seleccion(q, No(g)).Keys;
            q.Keys == a + b && a * b == {} && q.Keys * a == a && q.Keys - a == b
  {
    var a, b := Seleccion(q, g).Keys, Seleccion(q, No(g)).Keys;
    forall id ensures id in b <==> id in q && id !in a {
      assert id in b <==> id in q && !Cumple(q[id], g);
    }
  }

  /** A filter splits a table in two parts whose counts add up. */
  lemma ParticionCantidad(q: Tabla, g: Filtro)
    ensures |q| == |Seleccion(q, g)| + |Seleccion(q, No(g))|
  {
    var a, b := Seleccion(q, g).Keys, Seleccion(q, No(g)).Keys;
    ClavesParticion(q, g);
    assert |q.Keys| == |a + b| == |a| + |b|;
  }

  /** A filter splits a table in two parts whose balance sums add up. */
  lemma ParticionSuma(q: Tabla, g: Filtro)
    ensures SumaSaldos(q) == SumaSaldos(Seleccion(q, g)) + SumaSaldos(Seleccion(q, No(g)))
  {
    var a := Seleccion(q, g).Keys;
    ClavesParticion(q, g);
    SumaEnParticion(q, q.Keys, a);
    SumaSeleccion(q, g);
    SumaSeleccion(q, No(g));
  }

  /** `countActiveCuentas`: never more than the whole table, and the
      inactive rows make up the rest. */
  function CountActiveCuentas(q: Tabla): (r: nat)
    ensures r <= |q|
    ensures |q| - r == |Seleccion(q, No(ActivaIgual(true)))|
  {
    ParticionCantidad(q, ActivaIgual(true));
    |FindByActivaTrue(q)|
  }

  /** `getTotalSaldoActivo`: the balances of the active rows, zero when
      there is none, and never negative over non-negative balances. */
  function GetTotalSaldoActivo(q: Tabla): (r: real)
    ensures CountActiveCuentas(q) == 0 ==> r == 0.0
    ensures SaldosNoNegativos(q) ==> r >= 0.0
  {
    SumaSaldos(FindByActivaTrue(q))
  }

  /** The active rows' balances and the inactive rows' balances add up to
      the balances of the whole table. */
  lemma SaldoTotalSeReparte(q: Tabla)
    ensures SumaSaldos(q) == GetTotalSaldoActivo(q) + SumaSaldos(Seleccion(q, No(ActivaIgual(true))))
  {
    ParticionSuma(q, ActivaIgual(true));
  }

  // ---------------------------------------------------------------------
  // Grouping by type

  /** One result row of `getEstadisticasPorTipoCuenta`. */
  datatype FilaTipo = FilaTipo(tipoCuenta: TipoCuenta, cantidad: nat, saldoTotal: real)

  /** The keys of the active rows whose type is in `ts`. */
  function ActivasEn(q: Tabla, ts: seq<TipoCuenta>): (r: set<int>)
    ensures r <= q.Keys
  {
    set id | id in q && q[id].activa == Some(true) && q[id].tipoCuenta in ts
  }

  /** The keys of the active rows of type `t`. */
  function ActivasDeTipo(q: Tabla, t: TipoCuenta): (r: set<int>)
    ensures r <= q.Keys
  {
    set id | id in q && q[id].activa == Some(true) && q[id].tipoCuenta == t
  }

  /** The group of type `t`: its active count and their balance sum. */
  function FilaDe(q: Tabla, t: TipoCuenta): FilaTipo {
    FilaTipo(t, |ActivasDeTipo(q, t)|, SumaEn(q, ActivasDeTipo(q, t)))
  }

  predicate SinRepetir(ts: seq<TipoCuenta>) {
    forall i, j :: 0 <= i < j < |ts| ==> ts[i] != ts[j]
  }

  /** The groups of the types in `ts` that have at least one active row. */
  function FilasPorTipo(q: Tabla, ts: seq<TipoCuenta>): (r: seq<FilaTipo>)
    ensures forall i :: 0 <= i < |r| ==>
              r[i] == FilaDe(q, r[i].tipoCuenta) && r[i].tipoCuenta in ts && r[i].cantidad > 0
    decreases |ts|
  {
    if ts == [] then []
    else
      (if |ActivasDeTipo(q, ts[0])| > 0 then [FilaDe(q, ts[0])] else []) + FilasPorTipo(q, ts[1..])
  }

  /** The group of the first type, when it has active rows, comes first. */
  lemma FilasPorTipoCabeza(q: Tabla, ts: seq<TipoCuenta>)
    requires ts != [] && |ActivasDeTipo(q, ts[0])| > 0
    ensures |FilasPorTipo(q, ts)| > 0 && FilasPorTipo(q, ts)[0].tipoCuenta == ts[0]
  {
    assert FilasPorTipo(q, ts) == [FilaDe(q, ts[0])] + FilasPorTipo(q, ts[1..]);
  }

  /** The groups of the later types all follow in the list. */
  lemma FilasPorTipoCola(q: Tabla, ts: seq<TipoCuenta>, i: int)
    requires ts != [] && 0 <= i < |FilasPorTipo(q, ts[1..])|
    ensures exists j :: 0 <= j < |FilasPorTipo(q, ts)|
                        && FilasPorTipo(q, ts)[j].tipoCuenta == FilasPorTipo(q, ts[1..])[i].tipoCuenta
  {
    var cabeza := if |ActivasDeTipo(q, ts[0])| > 0 then [FilaDe(q, ts[0])] else [];
    assert FilasPorTipo(q, ts) == cabeza + FilasPorTipo(q, ts[1..]);
    TipoEnCola(cabeza, FilasPorTipo(q, ts[1..]), i);
  }

  /** A row of the second part of a concatenation is found in the whole. */
  lemma TipoEnCola(cabeza: seq<FilaTipo>, cola: seq<FilaTipo>, i: int)
    requires 0 <= i < |cola|
    ensures exists j :: 0 <= j < |cabeza + cola| && (cabeza + cola)[j].tipoCuenta == cola[i].tipoCuenta
  {
    assert (cabeza + cola)[|cabeza| + i] == cola[i];
  }

  /** Every type of `ts` with an active row has its group. */
  lemma {:induction false} FilasPorTipoCompletas(q: Tabla, ts: seq<TipoCuenta>, t: TipoCuenta)
    requires t in ts && |ActivasDeTipo(q, t)| > 0
    ensures exists i :: 0 <= i < |FilasPorTipo(q, ts)| && FilasPorTipo(q, ts)[i].tipoCuenta == t
    decreases |ts|
  {
    if ts[0] == t {
      FilasPorTipoCabeza(q, ts);
    } else {
      assert t in ts[1..] by {
        var j :| 0 <= j < |ts| && ts[j] == t;
        assert ts[1..][j - 1] == t;
      }
      FilasPorTipoCompletas(q, ts[1..], t);
      var i :| 0 <= i < |FilasPorTipo(q, ts[1..])| && FilasPorTipo(q, ts[1..])[i].tipoCuenta == t;
      FilasPorTipoCola(q, ts, i);
    }
  }

  predicate TiposDistintos(r: seq<FilaTipo>) {
    forall i, j :: 0 <= i < j < |r| ==> r[i].tipoCuenta != r[j].tipoCuenta
  }

  /** A group put in front of groups of other types keeps the types
      distinct. */
  lemma TiposDistintosDelante(c: seq<FilaTipo>, r: seq<FilaTipo>, t: TipoCuenta)
    requires |c| <= 1 && (forall i :: 0 <= i < |c| ==> c[i].tipoCuenta == t)
    requires TiposDistintos(r) && forall i :: 0 <= i < |r| ==> r[i].tipoCuenta != t
    ensures TiposDistintos(c + r)
  {
    var cr := c + r;
    forall i, j | 0 <= i < j < |cr| ensures cr[i].tipoCuenta != cr[j].tipoCuenta {
      if i < |c| {
        assert cr[j] == r[j - |c|];
      } else {
        assert cr[i] == r[i - |c|] && cr[j] == r[j - |c|];
      }
    }
  }

  /** Over distinct types, no type has two groups. */
  lemma {:induction false} FilasPorTipoSinRepetir(q: Tabla, ts: seq<TipoCuenta>)
    requires SinRepetir(ts)
    ensures TiposDistintos(FilasPorTipo(q, ts))
    decreases |ts|
  {
    if ts != [] {
      var cabeza := if |ActivasDeTipo(q, ts[0])| > 0 then [FilaDe(q, ts[0])] else [];
      var resto := FilasPorTipo(q, ts[1..]);
      assert SinRepetir(ts[1..]);
      FilasPorTipoSinRepetir(q, ts[1..]);
      assert ts[0] !in ts[1..];
      assert forall i :: 0 <= i < |resto| ==> resto[i].tipoCuenta in ts[1..];
      TiposDistintosDelante(cabeza, resto, ts[0]);
    }
  }

  lemma TodosLosTipos()
    ensures forall t :: t in Valores()
  {
    forall t ensures t in Valores() {
      ValoresCompletos(t);
    }
  }

  /** `getEstadisticasPorTipoCuenta`: one row per type with at least one
      active account, carrying that type's active count and balance sum,
      and no type twice. */
  function GetEstadisticasPorTipoCuenta(q: Tabla): (r: seq<FilaTipo>)
    ensures forall i :: 0 <= i < |r| ==> r[i] == FilaDe(q, r[i].tipoCuenta) && r[i].cantidad > 0
    ensures forall t :: |ActivasDeTipo(q, t)| > 0 ==> exists i :: 0 <= i < |r| && r[i].tipoCuenta == t
    ensures TiposDistintos(r)
  {
    TodosLosTipos();
    FilasPorTipoSinRepetir(q, Valores());
    assert forall t :: |ActivasDeTipo(q, t)| > 0 ==>
             exists i :: 0 <= i < |FilasPorTipo(q, Valores())| && FilasPorTipo(q, Valores())[i].tipoCuenta == t by {
      forall t | |ActivasDeTipo(q, t)| > 0
        ensures exists i :: 0 <= i < |FilasPorTipo(q, Valores())| && FilasPorTipo(q, Valores())[i].tipoCuenta == t
      {
        FilasPorTipoCompletas(q, Valores(), t);
      }
    }
    FilasPorTipo(q, Valores())
  }

  function TotalCantidad(r: seq<FilaTipo>): nat {
    if r == [] then 0 else r[0].cantidad + TotalCantidad(r[1..])
  }

  function TotalSaldo(r: seq<FilaTipo>): real {
    if r == [] then 0.0 else r[0].saldoTotal + TotalSaldo(r[1..])
  }

  lemma TotalesConcat(c: seq<FilaTipo>, r: seq<FilaTipo>)
    requires |c| <= 1
    ensures TotalCantidad(c + r) == TotalCantidad(c) + TotalCantidad(r)
    ensures TotalSaldo(c + r) == TotalSaldo(c) + TotalSaldo(r)
  {
    if |c| == 1 {
      assert (c + r)[1..] == r;
    } else {
      assert c + r == r;
    }
  }

  /** The active rows of the types `ts` are those of its first type and,
      apart from them, those of the remaining types. */
  lemma ActivasEnCabeza(q: Tabla, ts: seq<TipoCuenta>)
    requires ts != [] && ts[0] !in ts[1..]
    ensures ActivasEn(q, ts) == ActivasDeTipo(q, ts[0]) + ActivasEn(q, ts[1..])
    ensures ActivasDeTipo(q, ts[0]) * ActivasEn(q, ts[1..]) == {}
  {
    assert ts == [ts[0]] + ts[1..];
  }

  lemma UnionDisjunta(a: set<int>, g: set<int>, b: set<int>)
    requires a == g + b && g * b == {}
    ensures |a| == |g| + |b| && a * g == g && a - g == b
  {
    assert a - g == b;
    assert |g + b| + |g * b| == |g| + |b|;
  }

  /** The groups of the types in `ts` account for every active row of
      those types, in count and in balance. */
  lemma {:induction false} FilasPorTipoSuman(q: Tabla, ts: seq<TipoCuenta>)
    requires SinRepetir(ts)
    ensures TotalCantidad(FilasPorTipo(q, ts)) == |ActivasEn(q, ts)|
    ensures TotalSaldo(FilasPorTipo(q, ts)) == SumaEn(q, ActivasEn(q, ts))
    decreases |ts|
  {
    if ts == [] {
      assert ActivasEn(q, ts) == {};
    } else {
      assert SinRepetir(ts[1..]);
      FilasPorTipoSuman(q, ts[1..]);
      assert ts[0] !in ts[1..];
      FilasPorTipoSumanPaso(q, ts);
    }
  }

  /** The inductive step: the totals for the later types extend to the
      totals for all of `ts` by the group of its first type. */
  lemma FilasPorTipoSumanPaso(q: Tabla, ts: seq<TipoCuenta>)
    requires ts != [] && ts[0] !in ts[1..]
    requires TotalCantidad(FilasPorTipo(q, ts[1..])) == |ActivasEn(q, ts[1..])|
    requires TotalSaldo(FilasPorTipo(q, ts[1..])) == SumaEn(q, ActivasEn(q, ts[1..]))
    ensures TotalCantidad(FilasPorTipo(q, ts)) == |ActivasEn(q, ts)|
    ensures TotalSaldo(FilasPorTipo(q, ts)) == SumaEn(q, ActivasEn(q, ts))
  {
    var t := ts[0];
    var a, g, b := ActivasEn(q, ts), ActivasDeTipo(q, t), ActivasEn(q, ts[1..]);
    ActivasEnCabeza(q, ts);
    UnionDisjunta(a, g, b);
    SumaEnParticion(q, a, g);
    var cabeza := if |g| > 0 then [FilaDe(q, t)] else [];
    assert FilasPorTipo(q, ts) == cabeza + FilasPorTipo(q, ts[1..]);
    TotalesConcat(cabeza, FilasPorTipo(q, ts[1..]));
    if |g| == 0 {
      assert g == {};
    }
  }

  /** The statistics by type add up to the active count and to the active
      balance total. */
  lemma EstadisticasPorTipoSuman(q: Tabla)
    ensures TotalCantidad(GetEstadisticasPorTipoCuenta(q)) == CountActiveCuentas(q)
    ensures TotalSaldo(GetEstadisticasPorTipoCuenta(q)) == GetTotalSaldoActivo(q)
  {
    TodosLosTipos();
    FilasPorTipoSuman(q, Valores());
    assert ActivasEn(q, Valores()) == FindByActivaTrue(q).Keys;
    SumaSeleccion(q, ActivaIgual(true));
  }

  // ---------------------------------------------------------------------
  // Holders with more than one account

  /** The keys of the rows whose holder is exactly `t`. */
  function ConTitular(q: Tabla, t: string): set<int> {
    set id | id in q && q[id].titular == t
  }

  /** `findTitularesConCuentasDuplicadas`: each exact holder name with more
      than one row, active or not, once. */
  function FindTitularesConCuentasDuplicadas(q: Tabla): set<string> {
    set id | id in q && |ConTitular(q, q[id].titular)| > 1 :: q[id].titular
  }

  lemma SubconjuntoCardinal(a: set<int>, b: set<int>)
    requires a <= b
    ensures |a| <= |b|
  {
    assert b == a + (b - a);
  }

  /** A name is reported exactly when two different rows carry it. */
  lemma TitularesDuplicadosSii(q: Tabla, t: string)
    ensures t in FindTitularesConCuentasDuplicadas(q)
            <==> exists a, b :: a in q && b in q && a != b && q[a].titular == t && q[b].titular == t
  {
    var s := ConTitular(q, t);
    if t in FindTitularesConCuentasDuplicadas(q) {
      var id :| id in q && |ConTitular(q, q[id].titular)| > 1 && q[id].titular == t;
      assert |s| > 1;
      VacioOHabitado(s);
      var a :| a in s;
      assert |s - {a}| > 0;
      VacioOHabitado(s - {a});
      var b :| b in s - {a};
      assert a in q && b in q && a != b && q[a].titular == t && q[b].titular == t;
    }
    if exists a, b :: a in q && b in q && a != b && q[a].titular == t && q[b].titular == t {
      var a, b :| a in q && b in q && a != b && q[a].titular == t && q[b].titular == t;
      SubconjuntoCardinal({a, b}, s);
      assert t in FindTitularesConCuentasDuplicadas(q) by {
        assert a in q && |ConTitular(q, q[a].titular)| > 1;
      }
    }
  }

  // ---------------------------------------------------------------------
  // Examples from the holder-search scenario

  /** Upper-casing keeps a prefix a prefix. */
  lemma MayusculasPrefijo(p: string, s: string)
    requires p <= s
    ensures Mayusculas(p) <= Mayusculas(s)
  {
    assert forall k :: 0 <= k < |p| ==> Mayusculas(p)[k] == Mayuscula(s[k]);
  }

  /** A text that starts with `t` contains it, ignoring case. */
  lemma PrefijoContenido(t: string, s: string)
    requires t <= s
    ensures Contiene(Mayusculas(s), Mayusculas(t))
  {
    MayusculasPrefijo(t, s);
    assert Mayusculas(t) <= Mayusculas(s)[0..];
  }

  /** Both holders called Juan contain "Juan" once upper-cased. */
  lemma CoincidenLosJuan()
    ensures Contiene(Mayusculas("Juan Pérez"), Mayusculas("Juan"))
    ensures Contiene(Mayusculas("Juan López"), Mayusculas("Juan"))
  {
    PrefijoContenido("Juan", "Juan Pérez");
    PrefijoContenido("Juan", "Juan López");
  }

  /** Only `j` and `J` upper-case to `J`. */
  lemma MayusculaJota(c: char)
    requires c != 'j' && c != 'J'
    ensures Mayuscula(c) != 'J'
  {
  }

  lemma MayusculasSinJota(s: string)
    requires forall k :: 0 <= k < |s| ==> s[k] != 'j' && s[k] != 'J'
    ensures forall k :: 0 <= k < |Mayusculas(s)| ==> Mayusculas(s)[k] != 'J'
  {
    forall k | 0 <= k < |s| ensures Mayusculas(s)[k] != 'J' {
      MayusculaJota(s[k]);
    }
  }

  /** A text none of whose characters is the first of `t` does not
      contain `t`. */
  lemma NoContieneSinInicial(s: string, t: string)
    requires |t| > 0 && forall k :: 0 <= k < |s| ==> s[k] != t[0]
    ensures !Contiene(s, t)
  {
    forall i | 0 <= i <= |s| ensures !(t <= s[i..]) {
      if i < |s| { assert s[i..][0] == s[i]; }
    }
  }

  lemma NoCoincideMariaGarcia()
    ensures !Contiene(Mayusculas("María García"), Mayusculas("Juan"))
  {
    var t := Mayusculas("Juan");
    assert t[0] == Mayuscula('J');
    MayusculasSinJota("María García");
    NoContieneSinInicial(Mayusculas("María García"), t);
  }

  lemma ClavesDeTres(todas: set<int>, elegidas: set<int>)
    requires todas == {1, 2, 3} && elegidas <= todas
    requires 1 in elegidas && 3 in elegidas && 2 !in elegidas
    ensures elegidas == {1, 3}
  {
  }

  lemma FilaCoincide(q: Tabla, id: int)
    requires id in q && (q[id].titular == "Juan Pérez" || q[id].titular == "Juan López")
    ensures id in FindByTitularContainingIgnoreCase(q, "Juan")
  {
    CoincidenLosJuan();
  }

  lemma FilaNoCoincide(q: Tabla, id: int)
    requires id in q && q[id].titular == "María García"
    ensures id !in FindByTitularContainingIgnoreCase(q, "Juan")
  {
    NoCoincideMariaGarcia();
  }

  /** Searching for "Juan" among "Juan Pérez", "María García" and "Juan
      López" finds the first and the third. */
  lemma BusquedaPorTitularEjemplo(q: Tabla)
    requires q.Keys == {1, 2, 3}
    requires q[1].titular == "Juan Pérez" && q[2].titular == "María García" && q[3].titular == "Juan López"
    ensures FindByTitularContainingIgnoreCase(q, "Juan").Keys == {1, 3}
  {
    FilaCoincide(q, 1);
    FilaCoincide(q, 3);
    FilaNoCoincide(q, 2);
    ClavesDeTres(q.Keys, FindByTitularContainingIgnoreCase(q, "Juan").Keys);
  }

  // ---------------------------------------------------------------------
  // The table's invariant and its writes

  /** Every stored row sits under its own positive identity value below the
      next one to hand out, has its `NOT NULL` columns set, and carries a
      number no other row carries. */
  predicate TablaValida(q: Tabla, siguienteId: int) {
    && siguienteId >= 1
    && IdsCoherentes(q)
    && (forall id :: id in q ==> 0 < id < siguienteId)
    && (forall id :: id in q ==> ColumnasNoNulas(q[id]))
    && NumerosUnicos(q)
  }

  /** Another row than `id` already carries the number. */
  predicate NumeroEnOtraFila(q: Tabla, n: string, id: int) {
    exists k :: k in q && k != id && q[k].numeroCuenta == n
  }

  /** What `save` leaves behind: its outcome, the table, the next identity
      value and the entity's own state. */
  datatype Guardado = Guardado(resultado: Outcome<Falla>, filas: Tabla, siguienteId: int, entidad: Cuenta)

  /** `save` of an entity without id persists it: `@PrePersist`, then Bean
      Validation of the entity's constraints, then the `INSERT` under the
      next identity value, which the unique constraint on the number may
      refuse. A refused insert leaves the table as it was. */
  function GuardarNueva(f: Tabla, sig: int, c: Cuenta, ahora: Instante): (g: Guardado)
    requires c.id.None?
    ensures g.resultado.Fail? ==> g.filas == f && g.siguienteId == sig
    ensures g.resultado.Pass? <==> CumpleRestricciones(AlCrear(c, ahora)) && !ExistsByNumeroCuenta(f, c.numeroCuenta)
    ensures !CumpleRestricciones(AlCrear(c, ahora)) ==> g.resultado == Fail(RestriccionesVioladas(Violaciones(AlCrear(c, ahora))))
    ensures CumpleRestricciones(AlCrear(c, ahora)) && ExistsByNumeroCuenta(f, c.numeroCuenta) ==>
              g.resultado == Fail(ViolacionIntegridad)
    ensures g.resultado.Pass? ==>
              g.entidad == AlCrear(c, ahora).(id := Some(sig)) && g.filas == f[sig := g.entidad] && g.siguienteId == sig + 1
  {
    var p := AlCrear(c, ahora);
    var v := Violaciones(p);
    if v != [] then Guardado(Fail(RestriccionesVioladas(v)), f, sig, p)
    else if ExistsByNumeroCuenta(f, p.numeroCuenta) then Guardado(Fail(ViolacionIntegridad), f, sig, p)
    else
      var n := p.(id := Some(sig));
      Guardado(Pass, f[sig := n], sig + 1, n)
  }

  /** `save` of a loaded entity writes it back at the dirty check: nothing
      when no field changed, otherwise `@PreUpdate`, validation and the
      `UPDATE`, which the `NOT NULL` columns and the unique number may
      refuse. A refused update leaves the table as it was. */
  function GuardarExistente(f: Tabla, sig: int, c: Cuenta, ahora: Instante): (g: Guardado)
    requires c.id.Some? && c.id.value in f
    ensures g.siguienteId == sig
    ensures g.resultado.Fail? ==> g.filas == f
    ensures c == f[c.id.value] ==> g == Guardado(Pass, f, sig, c)
    ensures c != f[c.id.value] ==>
              (g.resultado.Pass? <==> CumpleRestricciones(AlActualizar(c, ahora)) && ColumnasNoNulas(AlActualizar(c, ahora))
                                      && !NumeroEnOtraFila(f, c.numeroCuenta, c.id.value))
              && g.entidad == AlActualizar(c, ahora)
              && (g.resultado.Pass? ==> g.filas == f[c.id.value := g.entidad])
    ensures c != f[c.id.value] && !CumpleRestricciones(AlActualizar(c, ahora)) ==>
              g.resultado == Fail(RestriccionesVioladas(Violaciones(AlActualizar(c, ahora))))
  {
    if c == f[c.id.value] then Guardado(Pass, f, sig, c)
    else
      var u := AlActualizar(c, ahora);
      var v := Violaciones(u);
      if v != [] then Guardado(Fail(RestriccionesVioladas(v)), f, sig, u)
      else if !ColumnasNoNulas(u) || NumeroEnOtraFila(f, u.numeroCuenta, c.id.value)
      then Guardado(Fail(ViolacionIntegridad), f, sig, u)
      else Guardado(Pass, f[c.id.value := u], sig, u)
  }

  /** `save`: persists a new entity or writes back a loaded one. */
  function Guardar(f: Tabla, sig: int, c: Cuenta, ahora: Instante): (g: Guardado)
    requires c.id.None? || c.id.value in f
    ensures g.resultado.Fail? ==> g.filas == f && g.siguienteId == sig
    ensures g.resultado.Pass? ==> g.entidad.id.Some? && g.entidad.id.value in g.filas && g.filas[g.entidad.id.value] == g.entidad
    ensures c.id.Some? ==> g.entidad.id == c.id && g.siguienteId == sig
  {
    if c.id.None? then GuardarNueva(f, sig, c, ahora) else GuardarExistente(f, sig, c, ahora)
  }

  /** Adding a complete row under the next identity value, with a number
      no row carries, keeps the table valid. */
  lemma InsercionValida(f: Tabla, sig: int, n: Cuenta)
    requires TablaValida(f, sig)
    requires n.id == Some(sig) && ColumnasNoNulas(n) && !ExistsByNumeroCuenta(f, n.numeroCuenta)
    ensures TablaValida(f[sig := n], sig + 1)
  {
    assert sig !in f;
    assert forall id :: id in f ==> f[id].numeroCuenta != n.numeroCuenta;
  }

  /** Rewriting a row with a complete one under the same identity value,
      with a number no other row carries, keeps the table valid. */
  lemma ReescrituraValida(f: Tabla, sig: int, id: int, u: Cuenta)
    requires TablaValida(f, sig) && id in f
    requires u.id == Some(id) && ColumnasNoNulas(u) && !NumeroEnOtraFila(f, u.numeroCuenta, id)
    ensures TablaValida(f[id := u], sig)
  {
    assert forall k :: k in f && k != id ==> f[k].numeroCuenta != u.numeroCuenta;
  }

  lemma GuardarNuevaPreservaValidez(f: Tabla, sig: int, c: Cuenta, ahora: Instante)
    requires TablaValida(f, sig) && c.id.None?
    ensures TablaValida(GuardarNueva(f, sig, c, ahora).filas, GuardarNueva(f, sig, c, ahora).siguienteId)
  {
    var g := GuardarNueva(f, sig, c, ahora);
    if g.resultado.Pass? {
      InsercionValida(f, sig, g.entidad);
    }
  }

  lemma GuardarExistentePreservaValidez(f: Tabla, sig: int, c: Cuenta, ahora: Instante)
    requires TablaValida(f, sig) && c.id.Some? && c.id.value in f
    ensures TablaValida(GuardarExistente(f, sig, c, ahora).filas, sig)
  {
    var g := GuardarExistente(f, sig, c, ahora);
    if g.resultado.Pass? && c != f[c.id.value] {
      ReescrituraValida(f, sig, c.id.value, g.entidad);
    }
  }

  /** `save` keeps the table valid. */
  lemma GuardarPreservaValidez(f: Tabla, sig: int, c: Cuenta, ahora: Instante)
    requires TablaValida(f, sig) && (c.id.None? || c.id.value in f)
    ensures TablaValida(Guardar(f, sig, c, ahora).filas, Guardar(f, sig, c, ahora).siguienteId)
  {
    if c.id.None? {
      GuardarNuevaPreservaValidez(f, sig, c, ahora);
    } else {
      GuardarExistentePreservaValidez(f, sig, c, ahora);
    }
  }

  /** The rows that `desactivarCuentasInactivas` changes. */
  function Candidatas(q: Tabla, limite: Instante): Tabla {
    Seleccion(q, SinMovimientoDesde(limite))
  }

  /** The bulk `UPDATE` of `desactivarCuentasInactivas`: every row with
      balance zero, last updated before the limit and still active becomes
      inactive with a fresh update time; every other row is untouched. */
  function Desactivadas(q: Tabla, limite: Instante, ahora: Instante): (r: Tabla)
    ensures r.Keys == q.Keys
    ensures forall id :: id in q && id in Candidatas(q, limite) ==>
              r[id] == q[id].(activa := Some(false), fechaActualizacion := Some(ahora))
    ensures forall id :: id in q && id !in Candidatas(q, limite) ==> r[id] == q[id]
  {
    map id | id in q :: if Cumple(q[id], SinMovimientoDesde(limite))
                        then q[id].(activa := Some(false), fechaActualizacion := Some(ahora))
                        else q[id]
  }

  /** After the bulk update no row qualifies any more under the same or an
      earlier limit, so such a second run changes nothing; and the active count drops by the
      number of rows changed. */
  lemma DesactivarIdempotente(q: Tabla, limite: Instante, ahora: Instante, otroLimite: Instante, luego: Instante)
    requires otroLimite <= limite
    ensures Candidatas(Desactivadas(q, limite, ahora), otroLimite) == map[]
    ensures Desactivadas(Desactivadas(q, limite, ahora), otroLimite, luego) == Desactivadas(q, limite, ahora)
  {
    var r := Desactivadas(q, limite, ahora);
    assert Candidatas(r, otroLimite).Keys == {};
  }

  lemma CardinalDiferencia(a: set<int>, c: set<int>)
    requires c <= a
    ensures |a - c| == |a| - |c|
  {
    assert a == (a - c) + c;
    assert (a - c) * c == {};
  }

  /** A row is active after the bulk update exactly when it was active and
      not changed by it. */
  lemma ActivaTrasDesactivar(q: Tabla, limite: Instante, ahora: Instante, id: int)
    ensures id in FindByActivaTrue(Desactivadas(q, limite, ahora))
            <==> id in FindByActivaTrue(q) && id !in Candidatas(q, limite)
  {
  }

  /** The active rows after the bulk update are those active before less
      the ones it changed, all of which were active. */
  lemma ActivasTrasDesactivar(q: Tabla, limite: Instante, ahora: Instante)
    ensures Candidatas(q, limite).Keys <= FindByActivaTrue(q).Keys
    ensures FindByActivaTrue(Desactivadas(q, limite, ahora)).Keys
            == FindByActivaTrue(q).Keys - Candidatas(q, limite).Keys
  {
    var r := Desactivadas(q, limite, ahora);
    var a, c := FindByActivaTrue(q).Keys, Candidatas(q, limite).Keys;
    forall id ensures id in FindByActivaTrue(r).Keys <==> id in a - c {
      ActivaTrasDesactivar(q, limite, ahora, id);
    }
  }

  /** The bulk update lowers the active count by the number of rows it
      changes. */
  lemma DesactivarCuentaActivas(q: Tabla, limite: Instante, ahora: Instante)
    ensures CountActiveCuentas(Desactivadas(q, limite, ahora)) == CountActiveCuentas(q) - |Candidatas(q, limite)|
  {
    var a, c := FindByActivaTrue(q).Keys, Candidatas(q, limite).Keys;
    ActivasTrasDesactivar(q, limite, ahora);
    CardinalDiferencia(a, c);
    assert |FindByActivaTrue(Desactivadas(q, limite, ahora))| == |a - c|;
  }

  /** The class behind the repository interface: the table and the
      identity generator. */
  class RepositorioCuentas {
    var filas: Tabla
    var siguienteId: int

    ghost predicate Valid()
      reads this
    {
      TablaValida(filas, siguienteId)
    }

    /** An empty table whose identity column starts at 1. */
    constructor ()
      ensures Valid() && filas == map[] && siguienteId == 1
    {
      filas := map[];
      siguienteId := 1;
    }

    /** `save`, following `Guardar`: the entity receives the state the
        callbacks leave on it and, when inserted, its identity value. */
    method Save(e: CuentaBancaria, ahora: Instante) returns (o: Outcome<Falla>)
      requires Valid()
      requires e.id.None? || e.id.value in filas
      modifies this, e
      ensures Valid()
      ensures Guardado(o, filas, siguienteId, e.Estado()) == Guardar(old(filas), old(siguienteId), old(e.Estado()), ahora)
    {
      var antes := e.Estado();
      var g := Guardar(filas, siguienteId, antes, ahora);
      assert TablaValida(g.filas, g.siguienteId) by {
        GuardarPreservaValidez(filas, siguienteId, antes, ahora);
      }
      filas, siguienteId, o := g.filas, g.siguienteId, g.resultado;
      e.Asignar(g.entidad);
    }

    /** `deleteById`: removes the row, or fails when there is none. */
    method DeleteById(id: int) returns (o: Outcome<Falla>)
      requires Valid()
      modifies this
      ensures Valid()
      ensures id in old(filas) ==> o == Pass && filas == old(filas) - {id}
      ensures id !in old(filas) ==> o == Fail(ResultadoVacio(id)) && filas == old(filas)
      ensures siguienteId == old(siguienteId)
    {
      if id !in filas {
        return Fail(ResultadoVacio(id));
      }
      filas := filas - {id};
      o := Pass;
    }

    /** `updateSaldo`: a bulk `UPDATE` that bypasses the entity's callbacks
        and validation. It reports how many rows it changed; a null balance
        on an existing row is refused by the `NOT NULL` column. */
    method UpdateSaldo(id: int, nuevoSaldo: Option<real>, ahora: Instante) returns (r: Result<nat, Falla>)
      requires Valid()
      modifies this
      ensures Valid()
      ensures siguienteId == old(siguienteId)
      ensures id !in old(filas) ==> r == Success(0) && filas == old(filas)
      ensures id in old(filas) && nuevoSaldo.None? ==> r == Failure(ViolacionIntegridad) && filas == old(filas)
      ensures id in old(filas) && nuevoSaldo.Some? ==>
                r == Success(1)
                && filas == old(filas)[id := old(filas)[id].(saldo := nuevoSaldo, fechaActualizacion := Some(ahora))]
    {
      if id !in filas {
        return Success(0);
      }
      if nuevoSaldo.None? {
        return Failure(ViolacionIntegridad);
      }
      filas := filas[id := filas[id].(saldo := nuevoSaldo, fechaActualizacion := Some(ahora))];
      r := Success(1);
    }

    /** `desactivarCuentasInactivas`, following `Desactivadas`. */
    method DesactivarCuentasInactivas(limite: Instante, ahora: Instante) returns (n: nat)
      requires Valid()
      modifies this
      ensures Valid()
      ensures filas == Desactivadas(old(filas), limite, ahora) && siguienteId == old(siguienteId)
      ensures n == |Candidatas(old(filas), limite)|
    {
      n := |Candidatas(filas, limite)|;
      filas := Desactivadas(filas, limite, ahora);
    }
  }
}
