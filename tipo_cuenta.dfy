/** The five account types, each with a fixed label, a fixed detail text,
    an overdraft flag and a fixed monthly maintenance fee. */
module TipoCuentas {

  datatype TipoCuenta = CORRIENTE | AHORROS | NOMINA | EMPRESARIAL | ESTUDIANTE

  /** The enumeration in declaration order, as `TipoCuenta.values()`. */
  function Valores(): (r: seq<TipoCuenta>)
    ensures |r| == 5
    ensures forall i, j :: 0 <= i < j < |r| ==> r[i] != r[j]
  {
    [CORRIENTE, AHORROS, NOMINA, EMPRESARIAL, ESTUDIANTE]
  }

  /** `values()` lists every constant. */
  lemma ValoresCompletos(t: TipoCuenta)
    ensures t in Valores()
  {
    match t
    case CORRIENTE => assert Valores()[0] == t;
    case AHORROS => assert Valores()[1] == t;
    case NOMINA => assert Valores()[2] == t;
    case EMPRESARIAL => assert Valores()[3] == t;
    case ESTUDIANTE => assert Valores()[4] == t;
  }

  /** `name()`: the constant's identifier, which is also what the
      `tipo_cuenta` column stores (`EnumType.STRING`). */
  function Nombre(t: TipoCuenta): string {
    match t
    case CORRIENTE => "CORRIENTE"
    case AHORROS => "AHORROS"
    case NOMINA => "NOMINA"
    case EMPRESARIAL => "EMPRESARIAL"
    case ESTUDIANTE => "ESTUDIANTE"
  }

  /** Distinct types are stored under distinct names, so filtering the
      column by `Nombre(t)` selects exactly the accounts of type `t`. */
  lemma NombreInyectivo(a: TipoCuenta, b: TipoCuenta)
    ensures Nombre(a) == Nombre(b) <==> a == b
  {
  }

  /** `getDescripcion()`. */
  function Descripcion(t: TipoCuenta): string {
    match t
    case CORRIENTE => "Cuenta Corriente"
    case AHORROS => "Cuenta de Ahorros"
    case NOMINA => "Cuenta Nómina"
    case EMPRESARIAL => "Cuenta Empresarial"
    case ESTUDIANTE => "Cuenta Estudiante"
  }

  /** `getDetalle()`. */
  function Detalle(t: TipoCuenta): string {
    match t
    case CORRIENTE => "Cuenta para operaciones comerciales y personales"
    case AHORROS => "Cuenta para ahorro personal con rendimientos"
    case NOMINA => "Cuenta para recepción de salarios"
    case EMPRESARIAL => "Cuenta para operaciones comerciales de empresas"
    case ESTUDIANTE => "Cuenta especial para estudiantes con beneficios"
  }

  /** `permitesobregiro()`: only the business-oriented types allow an overdraft. */
  predicate PermiteSobregiro(t: TipoCuenta) {
    t == CORRIENTE || t == EMPRESARIAL
  }

  /** `getComisionMantenimiento()`: the monthly fee in the account's currency. */
  function ComisionMantenimiento(t: TipoCuenta): (r: real)
    ensures r >= 0.0
    ensures r == 0.0 <==> t == NOMINA || t == ESTUDIANTE
  {
    match t
    case CORRIENTE => 5.0
    case AHORROS => 2.0
    case NOMINA => 0.0
    case EMPRESARIAL => 15.0
    case ESTUDIANTE => 0.0
  }

  /** Every type allowing an overdraft pays a fee, and the fee of those types
      is the highest of all. */
  lemma SobregiroConComision(t: TipoCuenta, u: TipoCuenta)
    requires PermiteSobregiro(t) && !PermiteSobregiro(u)
    ensures ComisionMantenimiento(t) > ComisionMantenimiento(u)
  {
  }

  /** Labels are distinct, so the label identifies the type in a response. */
  lemma DescripcionInyectiva(a: TipoCuenta, b: TipoCuenta)
    ensures Descripcion(a) == Descripcion(b) <==> a == b
  {
  }
}
