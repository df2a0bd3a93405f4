/**
 * Customer registry rules (service/imp/ClienteServiceImp.java). The customer DAO is
 * the map `clientes` from DNI to the stored customer; `find` is a map lookup and
 * `save`/`update` store a customer under its DNI.
 */
module ClienteServices {
  import opened Wrappers
  import opened Model

  /** The exceptions the service throws, with their messages. */
  datatype ClienteError =
    | ClienteAlreadyExists(message: string)
    | ClienteMayorDeEdad(message: string)
    | ClientNoExiste(message: string)
    | TipoCuentaYaExiste(message: string)

  const AlreadyExistsMessage: string := "Ya existe un cliente con ese DNI."
  const MenorDeEdadMessage: string := "El cliente debe ser mayor a 18 años"
  const NoExisteMessage: string := "El cliente no existe"

  /** The message of TipoCuentaYaExisteException for an account kind. */
  function TipoCuentaYaExisteMessage(t: TipoCuenta, m: TipoMoneda): string
  {
    "El cliente ya posee una " + TipoCuentaName(t) + " en " + MonedaName(m) + "."
  }

  /** The customer already holds an account of type `t` in currency `m`. */
  predicate HasAccountOfKind(cuentas: set<Cuenta>, t: TipoCuenta, m: TipoMoneda)
  {
    exists c :: c in cuentas && c.tipoCuenta == t && c.tipoMoneda == m
  }

  /** At most one account per (account type, currency) pair. */
  ghost predicate OneAccountPerKind(cuentas: set<Cuenta>)
  {
    forall a, b :: a in cuentas && b in cuentas && a.tipoCuenta == b.tipoCuenta && a.tipoMoneda == b.tipoMoneda ==> a == b
  }

  /** Every stored customer keeps the one-account-per-kind rule. */
  ghost predicate AllAccountsOnePerKind(store: map<int, Cliente>)
  {
    forall d :: d in store ==> OneAccountPerKind(store[d].cuentas)
  }

  /** `verificarEdadValida`: an adult is 18 or older. */
  function VerificarEdadValida(edad: int): (o: Outcome<ClienteError>)
    ensures o.Pass? <==> 18 <= edad
    ensures o.Fail? ==> o.error == ClienteMayorDeEdad(MenorDeEdadMessage)
  {
    if edad < 18 then Fail(ClienteMayorDeEdad(MenorDeEdadMessage)) else Pass
  }

  /**
   * `actualizarDatos`: a null or empty phone or email, or a null active flag, leaves
   * that field as it was; every other field is kept.
   */
  function ActualizarDatos(cliente: Cliente, nuevoTelefono: Option<string>, nuevoEmail: Option<string>,
                           activo: Option<bool>): (r: Cliente)
    ensures nuevoTelefono.None? || nuevoTelefono == Some("") ==> r.telefono == cliente.telefono
    ensures nuevoTelefono.Some? && nuevoTelefono != Some("") ==> r.telefono == nuevoTelefono
    ensures nuevoEmail.None? || nuevoEmail == Some("") ==> r.email == cliente.email
    ensures nuevoEmail.Some? && nuevoEmail != Some("") ==> r.email == nuevoEmail
    ensures activo.None? ==> r.activo == cliente.activo
    ensures activo.Some? ==> r.activo == activo.value
    ensures r == cliente.(telefono := r.telefono, email := r.email, activo := r.activo)
  {
    var c1 := if nuevoTelefono.Some? && |nuevoTelefono.value| != 0 then cliente.(telefono := nuevoTelefono) else cliente;
    var c2 := if nuevoEmail.Some? && |nuevoEmail.value| != 0 then c1.(email := nuevoEmail) else c1;
    if activo.Some? then c2.(activo := activo.value) else c2
  }

  /** Adding an account of a kind the customer does not yet hold keeps one account per kind. */
  lemma AddAccountKeepsOnePerKind(cuentas: set<Cuenta>, cuenta: Cuenta)
    requires OneAccountPerKind(cuentas)
    requires !HasAccountOfKind(cuentas, cuenta.tipoCuenta, cuenta.tipoMoneda)
    ensures OneAccountPerKind(cuentas + {cuenta})
    ensures HasAccountOfKind(cuentas + {cuenta}, cuenta.tipoCuenta, cuenta.tipoMoneda)
  {
  }

  /** Applying the same update twice is the same as applying it once. */
  lemma ActualizarDatosIdempotent(cliente: Cliente, nuevoTelefono: Option<string>, nuevoEmail: Option<string>,
                                  activo: Option<bool>)
    ensures var once := ActualizarDatos(cliente, nuevoTelefono, nuevoEmail, activo);
            ActualizarDatos(once, nuevoTelefono, nuevoEmail, activo) == once
  {
  }

  class ClienteServiceImp {
    /** The customer DAO: the stored customer of each DNI. */
    var clientes: map<int, Cliente>

    /** Every customer is stored under its own DNI. */
    ghost predicate Valid()
      reads this
    {
      forall d :: d in clientes ==> clientes[d].dni == d
    }

    /** `ClienteServiceImp(clienteDao, cuentaDao)`: adopts the injected DAO, whatever it already holds. */
    constructor (dao: map<int, Cliente>)
      requires forall d :: d in dao ==> dao[d].dni == d
      ensures Valid() && clientes == dao
    {
      clientes := dao;
    }

    /** `verificarClienteExistente`: fails exactly when the DNI is already stored. */
    method VerificarClienteExistente(dni: int) returns (o: Outcome<ClienteError>)
      ensures o.Fail? <==> dni in clientes
      ensures o.Fail? ==> o.error == ClienteAlreadyExists(AlreadyExistsMessage)
    {
      if dni in clientes {
        o := Fail(ClienteAlreadyExists(AlreadyExistsMessage));
      } else {
        o := Pass;
      }
    }

    /**
     * `verificarTipoCuentaExistenteEnMoneda`: walks the customer's accounts and fails
     * on the first one of type `t` in currency `m`.
     */
    method VerificarTipoCuentaExistenteEnMoneda(titular: Cliente, t: TipoCuenta, m: TipoMoneda)
      returns (o: Outcome<ClienteError>)
      ensures o.Pass? <==> !HasAccountOfKind(titular.cuentas, t, m)
      ensures o.Fail? ==> o.error == TipoCuentaYaExiste(TipoCuentaYaExisteMessage(t, m))
    {
      var pendientes := titular.cuentas;
      while pendientes != {}
        invariant pendientes <= titular.cuentas
        invariant forall c :: c in titular.cuentas - pendientes ==> !(c.tipoCuenta == t && c.tipoMoneda == m)
        decreases pendientes
      {
        var cuenta :| cuenta in pendientes;
        if cuenta.tipoCuenta == t && cuenta.tipoMoneda == m {
          return Fail(TipoCuentaYaExiste(TipoCuentaYaExisteMessage(t, m)));
        }
        pendientes := pendientes - {cuenta};
      }
      o := Pass;
    }

    /**
     * `darDeAltaCliente`: a new DNI of an adult is stored and the customer returned.
     * The duplicate check runs first, so a duplicate minor is reported as a duplicate;
     * on either failure nothing is stored.
     */
    method DarDeAltaCliente(cliente: Cliente) returns (r: Result<Cliente, ClienteError>)
      requires Valid()
      modifies this
      ensures Valid()
      ensures r.Success? <==> cliente.dni !in old(clientes) && 18 <= cliente.edad
      ensures cliente.dni in old(clientes) ==> r == Failure(ClienteAlreadyExists(AlreadyExistsMessage))
      ensures cliente.dni !in old(clientes) && cliente.edad < 18 ==>
                r == Failure(ClienteMayorDeEdad(MenorDeEdadMessage))
      ensures r.Failure? ==> clientes == old(clientes)
      ensures r.Success? ==> r.value == cliente && clientes == old(clientes)[cliente.dni := cliente]
      ensures old(AllAccountsOnePerKind(clientes)) && OneAccountPerKind(cliente.cuentas) ==>
                AllAccountsOnePerKind(clientes)
    {
      var existe := VerificarClienteExistente(cliente.dni);
      if existe.Fail? {
        return Failure(existe.error);
      }
      var edad := VerificarEdadValida(cliente.edad);
      if edad.Fail? {
        return Failure(edad.error);
      }
      clientes := clientes[cliente.dni := cliente];
      r := Success(cliente);
    }

    /** `buscarClientePorDni`: the stored customer, or ClientNoExisteException. */
    method BuscarClientePorDni(dni: int) returns (r: Result<Cliente, ClienteError>)
      ensures r.Success? <==> dni in clientes
      ensures r.Success? ==> r.value == clientes[dni]
      ensures r.Failure? ==> r.error == ClientNoExiste(NoExisteMessage)
    {
      if dni !in clientes {
        return Failure(ClientNoExiste(NoExisteMessage));
      }
      r := Success(clientes[dni]);
    }

    /** `buscarClientes`: every stored customer. */
    method BuscarClientes() returns (r: set<Cliente>)
      requires Valid()
      ensures forall c :: c in r <==> c.dni in clientes && clientes[c.dni] == c
    {
      r := set d | d in clientes :: clientes[d];
    }

    /**
     * `desactivarCliente`: marks a stored customer inactive and changes nothing else;
     * deactivating an inactive customer changes nothing at all.
     */
    method DesactivarCliente(dni: int) returns (r: Result<Cliente, ClienteError>)
      requires Valid()
      modifies this
      ensures Valid()
      ensures r.Success? <==> dni in old(clientes)
      ensures r.Failure? ==> r.error == ClientNoExiste(NoExisteMessage) && clientes == old(clientes)
      ensures r.Success? ==> r.value == old(clientes)[dni].(activo := false)
      ensures r.Success? ==> clientes == old(clientes)[dni := r.value]
      ensures dni in old(clientes) && !old(clientes)[dni].activo ==> clientes == old(clientes)
      ensures old(AllAccountsOnePerKind(clientes)) ==> AllAccountsOnePerKind(clientes)
    {
      var encontrado := BuscarClientePorDni(dni);
      if encontrado.Failure? {
        return encontrado;
      }
      var cliente := encontrado.value.(activo := false);
      clientes := clientes[dni := cliente];
      r := Success(cliente);
    }

    /**
     * `agregarCuenta`: adds the account to the customer's accounts unless the customer
     * already holds one of the same type and currency; the one-account-per-kind rule
     * is kept. The customer must be stored: the source does not check it.
     */
    method AgregarCuenta(cuenta: Cuenta, dniTitular: int) returns (o: Outcome<ClienteError>)
      requires Valid()
      requires dniTitular in clientes
      modifies this
      ensures Valid()
      ensures o.Pass? <==> !HasAccountOfKind(old(clientes)[dniTitular].cuentas, cuenta.tipoCuenta, cuenta.tipoMoneda)
      ensures o.Fail? ==> o.error == TipoCuentaYaExiste(TipoCuentaYaExisteMessage(cuenta.tipoCuenta, cuenta.tipoMoneda))
      ensures o.Fail? ==> clientes == old(clientes)
      ensures o.Pass? ==>
                var titular := old(clientes)[dniTitular];
                clientes == old(clientes)[dniTitular := titular.(cuentas := titular.cuentas + {cuenta})]
      ensures old(AllAccountsOnePerKind(clientes)) ==> AllAccountsOnePerKind(clientes)
    {
      var titular := clientes[dniTitular];
      o := VerificarTipoCuentaExistenteEnMoneda(titular, cuenta.tipoCuenta, cuenta.tipoMoneda);
      if o.Fail? {
        return;
      }
      if OneAccountPerKind(titular.cuentas) {
        AddAccountKeepsOnePerKind(titular.cuentas, cuenta);
      }
      var actualizado := titular.(cuentas := titular.cuentas + {cuenta});
      clientes := clientes[actualizado.dni := actualizado];
    }

    /** `agregarPrestamo`: appends the loan to the stored customer's loans only. */
    method AgregarPrestamo(prestamo: Prestamo, dniTitular: int) returns (o: Outcome<ClienteError>)
      requires Valid()
      modifies this
      ensures Valid()
      ensures o.Pass? <==> dniTitular in old(clientes)
      ensures o.Fail? ==> o.error == ClientNoExiste(NoExisteMessage) && clientes == old(clientes)
      ensures o.Pass? ==>
                var titular := old(clientes)[dniTitular];
                clientes == old(clientes)[dniTitular := titular.(prestamos := titular.prestamos + [prestamo])]
      ensures old(AllAccountsOnePerKind(clientes)) ==> AllAccountsOnePerKind(clientes)
    {
      var encontrado := BuscarClientePorDni(dniTitular);
      if encontrado.Failure? {
        return Fail(encontrado.error);
      }
      var titular := encontrado.value;
      var actualizado := titular.(prestamos := titular.prestamos + [prestamo]);
      clientes := clientes[actualizado.dni := actualizado];
      o := Pass;
    }
  }
}
