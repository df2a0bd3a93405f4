/**
 * The stored shape of a loan (persistence/entity/PrestamoEntity.java): status and
 * currency flattened to their tokens, the installment plan copied, and only the
 * three counters that a payment changes left mutable.
 */
module PrestamoEntities {
  import opened Wrappers
  import opened LoanStatuses
  import opened Model

  /** The status token stored for a possibly-null status; null is stored as null. */
  function EncodeStatus(s: Option<LoanStatus>): (t: Option<string>)
    ensures t.None? <==> s.None?
    ensures s.Some? ==> FromString(t) == Success(s.value)
  {
    match s
    case None => None
    case Some(v) => RoundTrip(v); Some(Descripcion(v))
  }

  /** The currency token stored for a possibly-null currency; null is stored as null. */
  function EncodeMoneda(m: Option<TipoMoneda>): (t: Option<string>)
    ensures t.None? <==> m.None?
    ensures m.Some? ==> MonedaFromString(t) == m
  {
    match m
    case None => None
    case Some(v) => Some(MonedaDescripcion(v))
  }

  /** What the constructor's copy loop leaves in the entity's plan list. */
  function StoredPlan(plan: Option<seq<PlanPago>>): (r: seq<PlanPago>)
  {
    if plan.Some? then plan.value else []
  }

  /** Why `toPrestamo` throws: the currency token or the status token did not decode. */
  datatype RestoreError = BadMoneda(token: Option<string>) | BadEstado(cause: IllegalArgument)

  class PrestamoEntity {
    const id: int
    const numeroCliente: int
    const montoSolicitado: real
    const monto: real
    const tipoMoneda: Option<string>
    const plazoMeses: int
    var estado: Option<string>
    var saldoRestante: real
    var pagosRealizados: int
    const planPagos: seq<PlanPago>

    /** `PrestamoEntity(Prestamo)`: flattens a loan into its stored shape. */
    constructor (prestamo: Prestamo)
      ensures id == prestamo.id && numeroCliente == prestamo.dniTitular
      ensures montoSolicitado == prestamo.montoSolicitado && monto == prestamo.monto
      ensures tipoMoneda == EncodeMoneda(prestamo.moneda)
      ensures plazoMeses == prestamo.plazoMeses
      ensures estado == EncodeStatus(prestamo.loanStatus)
      ensures planPagos == StoredPlan(prestamo.planDePagos)
      ensures saldoRestante == prestamo.saldoRestante
      ensures pagosRealizados == prestamo.pagosRealizados
    {
      id := prestamo.id;
      numeroCliente := prestamo.dniTitular;
      montoSolicitado := prestamo.montoSolicitado;
      monto := prestamo.monto;
      tipoMoneda := if prestamo.moneda.Some? then Some(MonedaDescripcion(prestamo.moneda.value)) else None;
      plazoMeses := prestamo.plazoMeses;
      estado := if prestamo.loanStatus.Some? then Some(Descripcion(prestamo.loanStatus.value)) else None;
      var plan: seq<PlanPago> := [];
      if prestamo.planDePagos.Some? && prestamo.planDePagos.value != [] {
        var source := prestamo.planDePagos.value;
        for i := 0 to |source|
          invariant plan == source[..i]
        {
          plan := plan + [source[i]];
        }
      }
      planPagos := plan;
      saldoRestante := prestamo.saldoRestante;
      pagosRealizados := prestamo.pagosRealizados;
    }

    /**
     * `toPrestamo()`: rebuilds the loan. The currency is decoded before the status,
     * so a bad currency token is what is reported when both are bad.
     */
    function ToPrestamo(): (r: Result<Prestamo, RestoreError>)
      reads this
      ensures r.Success? <==> MonedaFromString(tipoMoneda).Some? && FromString(estado).Success?
      ensures MonedaFromString(tipoMoneda).None? ==> r == Failure(BadMoneda(tipoMoneda))
      ensures MonedaFromString(tipoMoneda).Some? && FromString(estado).Failure? ==>
                r == Failure(BadEstado(FromString(estado).error))
      ensures r.Success? ==>
                && r.value.id == id && r.value.dniTitular == numeroCliente
                && r.value.montoSolicitado == montoSolicitado && r.value.monto == monto
                && r.value.plazoMeses == plazoMeses
                && r.value.planDePagos == Some(planPagos)
                && r.value.saldoRestante == saldoRestante
                && r.value.pagosRealizados == pagosRealizados
                && EncodeMoneda(r.value.moneda) == tipoMoneda
                && EncodeStatus(r.value.loanStatus) == estado
    {
      match MonedaFromString(tipoMoneda)
      case None => Failure(BadMoneda(tipoMoneda))
      case Some(moneda) =>
        match FromString(estado)
        case Failure(e) => Failure(BadEstado(e))
        case Success(status) =>
          Success(Prestamo(id, numeroCliente, montoSolicitado, monto, Some(moneda), plazoMeses,
                           Some(status), Some(planPagos), saldoRestante, pagosRealizados))
    }

    /** `setEstado`: replaces the stored status token and nothing else. */
    method SetEstado(nuevo: Option<string>)
      modifies this`estado
      ensures estado == nuevo
      ensures saldoRestante == old(saldoRestante) && pagosRealizados == old(pagosRealizados)
    {
      estado := nuevo;
    }

    /** `setSaldoRestante`: replaces the remaining balance and nothing else. */
    method SetSaldoRestante(nuevo: real)
      modifies this`saldoRestante
      ensures saldoRestante == nuevo
      ensures estado == old(estado) && pagosRealizados == old(pagosRealizados)
    {
      saldoRestante := nuevo;
    }

    /** `setPagosRealizados`: replaces the count of payments made and nothing else. */
    method SetPagosRealizados(nuevo: int)
      modifies this`pagosRealizados
      ensures pagosRealizados == nuevo
      ensures estado == old(estado) && saldoRestante == old(saldoRestante)
    {
      pagosRealizados := nuevo;
    }
  }

  /**
   * `new PrestamoEntity(p).toPrestamo()`: a loan with a status and a currency comes
   * back unchanged except that a null plan comes back empty; a loan without a status
   * cannot be read back.
   */
  method StoreAndRestore(p: Prestamo) returns (r: Result<Prestamo, RestoreError>)
    ensures p.moneda.Some? && p.loanStatus.Some? ==>
              r == Success(p.(planDePagos := Some(StoredPlan(p.planDePagos))))
    ensures p.moneda.Some? && p.loanStatus.None? ==>
              r == Failure(BadEstado(IllegalArgument("Estado del prestamo no valido: null")))
    ensures p.moneda.None? ==> r == Failure(BadMoneda(None))
  {
    var entity := new PrestamoEntity(p);
    r := entity.ToPrestamo();
    FromStringRejects();
  }

  /**
   * Storing a loan, then a payment updating the three counters through the setters,
   * reads back as the same loan with the new counters and nothing else changed.
   */
  method StoreUpdateAndRestore(p: Prestamo, status: LoanStatus, saldo: real, pagos: int)
    returns (r: Result<Prestamo, RestoreError>)
    ensures p.moneda.Some? ==>
              r == Success(p.(loanStatus := Some(status), saldoRestante := saldo, pagosRealizados := pagos,
                              planDePagos := Some(StoredPlan(p.planDePagos))))
  {
    var entity := new PrestamoEntity(p);
    entity.SetEstado(Some(Descripcion(status)));
    entity.SetSaldoRestante(saldo);
    entity.SetPagosRealizados(pagos);
    r := entity.ToPrestamo();
    RoundTrip(status);
  }
}
