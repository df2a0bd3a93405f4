/**
 * The domain values the core files read and build: the loan (`Prestamo`), one
 * installment (`PlanPago`), the account (`Cuenta`), the customer (`Cliente`) and the
 * currency and account-type enumerations. Their Java classes are not part of this
 * model; each is reduced to the fields the core files use.
 */
module Model {
  import opened Wrappers
  import opened LoanStatuses

  /** TipoMoneda: the supported currencies. */
  datatype TipoMoneda = Pesos | Dolares

  /** TipoCuenta: the kinds of account. */
  datatype TipoCuenta = CajaAhorro | CuentaCorriente

  /** The token a currency is persisted as. */
  function MonedaDescripcion(m: TipoMoneda): (t: string)
    ensures |t| == 1
  {
    match m
    case Pesos => "P"
    case Dolares => "D"
  }

  /** `TipoMoneda.fromString`: the currency whose token is exactly `text`, if any. */
  function MonedaFromString(text: Option<string>): (r: Option<TipoMoneda>)
    ensures r.Some? ==> text == Some(MonedaDescripcion(r.value))
    ensures r.None? ==> forall m: TipoMoneda :: text != Some(MonedaDescripcion(m))
  {
    if text == Some("P") then Some(Pesos)
    else if text == Some("D") then Some(Dolares)
    else None
  }

  /** The constant names, as Java's `toString` renders them in messages. */
  function MonedaName(m: TipoMoneda): string
  {
    match m
    case Pesos => "PESOS"
    case Dolares => "DOLARES"
  }

  function TipoCuentaName(t: TipoCuenta): string
  {
    match t
    case CajaAhorro => "CAJA_AHORRO"
    case CuentaCorriente => "CUENTA_CORRIENTE"
  }

  /** One installment of a payment plan: its number and its amount. */
  datatype PlanPago = PlanPago(numeroCuota: int, monto: real)

  /**
   * A loan. Monetary amounts are only copied by the core, so they are `real`;
   * the nullable references (currency, status, plan) are options.
   */
  datatype Prestamo = Prestamo(
    id: int,
    dniTitular: int,
    montoSolicitado: real,
    monto: real,
    moneda: Option<TipoMoneda>,
    plazoMeses: int,
    loanStatus: Option<LoanStatus>,
    planDePagos: Option<seq<PlanPago>>,
    saldoRestante: real,
    pagosRealizados: int)

  /** A bank account. */
  datatype Cuenta = Cuenta(
    numeroCuenta: int,
    dniTitular: int,
    tipoCuenta: TipoCuenta,
    tipoMoneda: TipoMoneda,
    balance: real)

  /** A customer, with its age already derived from the birth date. */
  datatype Cliente = Cliente(
    dni: int,
    nombre: string,
    apellido: string,
    edad: int,
    telefono: Option<string>,
    email: Option<string>,
    activo: bool,
    cuentas: set<Cuenta>,
    prestamos: seq<Prestamo>)
}
