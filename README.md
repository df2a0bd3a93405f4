# Loan simulator: status codec, loan persistence record and customer registry rules

A Dafny model of three pieces of the bank's loan simulator:

- **Loan status codec** (`LoanStatuses`, from `LoanStatus.java`): the closed
  enumeration APROBADO / RECHAZADO / CERRADO, its one-letter persisted tokens
  "A" / "R" / "C", and `fromString`, the search over `values()` that returns the
  status whose token equals the text or throws `IllegalArgumentException`.
- **Loan persistence record** (`PrestamoEntities`, from `PrestamoEntity.java`): a
  class whose constructor flattens a loan (`Prestamo`) into its stored shape
  (status and currency as tokens, null kept as null, the installment plan copied
  element by element into a fresh list), whose three setters change the three
  mutable counters, and whose `ToPrestamo` function rebuilds the loan, failing when
  the currency or the status token does not decode.
- **Customer registry rules** (`ClienteServices`, from `ClienteServiceImp.java`): a
  class holding the customer DAO as a map from DNI to customer, with registration
  (duplicate DNI rejected first, then minors), lookup, listing, deactivation,
  adding an account under the rule "at most one account per (account type,
  currency)", adding a loan, and the private field update `actualizarDatos`.

`Wrappers` holds `Option` (a Java reference that may be null), `Result` (a value or
the exception thrown instead) and `Outcome` (a `void` check that may throw). `Model`
holds the values the core reads: `Prestamo`, `PlanPago`, `Cuenta`, `Cliente`,
`TipoMoneda` and `TipoCuenta`. Their Java classes are not part of this model, so
each is reduced to the fields the three core files use.

What is proved, beyond each operation's own contract:

- decoding the token of any status gives that status back, the encoding is
  injective, and decoding succeeds exactly on "A", "R" and "C" (case-sensitive,
  null rejected) and then re-encodes to the same text;
- storing a loan that has a status and a currency and reading it back gives the
  same loan, except that a null plan comes back as an empty one; a loan without a
  status cannot be read back; updating the counters through the setters between
  the two changes exactly those counters;
- registration, deactivation, adding an account and adding a loan keep every
  customer stored under its own DNI and change only the customer they name;
  deactivation, adding an account and adding a loan keep the one-account-per-kind
  rule for every stored customer, and registration keeps it when the new customer's
  own accounts obey it (registration does not check them); deactivating an inactive
  customer changes nothing.

The constructor's plan copy and the account scan of
`verificarTipoCuentaExistenteEnMoneda` are loops with invariants, as in the source.

## Model

| member | source | states |
|---|---|---|
| LoanStatuses.Descripcion | src/main/java/ar/edu/utn/frbb/tup/model/enums/LoanStatus.java:4-16 | every status is persisted as a one-letter token, one of "A", "R", "C" |
| LoanStatuses.Search | src/main/java/ar/edu/utn/frbb/tup/model/enums/LoanStatus.java:17-22 | the loop over the constants finds a status whose token equals the text, or proves that no constant's token does (null matches none) |
| LoanStatuses.FromString | src/main/java/ar/edu/utn/frbb/tup/model/enums/LoanStatus.java:17-24 | a decoded status re-encodes to the input text; on failure no status has that token and the error is IllegalArgumentException "Estado del prestamo no valido: " followed by the text ("null" for null) |
| LoanStatuses.RoundTrip | src/main/java/ar/edu/utn/frbb/tup/model/enums/LoanStatus.java:4-24 | for every status s, decoding the token of s gives s |
| LoanStatuses.DescripcionInjective | src/main/java/ar/edu/utn/frbb/tup/model/enums/LoanStatus.java:4-6 | two statuses have the same token if and only if they are the same status |
| LoanStatuses.FromStringSucceedsIff | src/main/java/ar/edu/utn/frbb/tup/model/enums/LoanStatus.java:17-22 | decoding succeeds exactly when the text is "A", "R" or "C", and the decoded status's token is then the text |
| LoanStatuses.FromStringRejects | src/main/java/ar/edu/utn/frbb/tup/model/enums/LoanStatus.java:17-24 | examples, implied by FromString and FromStringSucceedsIff: lower-case "a", the constant name "APROBADO" and null are rejected, with the messages the source builds |
| Model.MonedaDescripcion | src/main/java/ar/edu/utn/frbb/tup/persistence/entity/PrestamoEntity.java:30 | every currency is persisted as a one-letter token |
| Model.MonedaFromString | src/main/java/ar/edu/utn/frbb/tup/persistence/entity/PrestamoEntity.java:48 | a decoded currency re-encodes to the input text; otherwise no currency has that token |
| PrestamoEntities.EncodeStatus | src/main/java/ar/edu/utn/frbb/tup/persistence/entity/PrestamoEntity.java:32 | a null status is stored as null; any other status is stored as a token that decodes back to it |
| PrestamoEntities.EncodeMoneda | src/main/java/ar/edu/utn/frbb/tup/persistence/entity/PrestamoEntity.java:30 | a null currency is stored as null; any other currency is stored as a token that decodes back to it |
| PrestamoEntities.PrestamoEntity.constructor | src/main/java/ar/edu/utn/frbb/tup/persistence/entity/PrestamoEntity.java:24-40 | the entity holds the loan's id, its holder's DNI as client number, both amounts, the term and the counters unchanged, the status and currency tokens, and a copy of the plan with the same length and order, empty when the loan's plan is null or empty |
| PrestamoEntities.PrestamoEntity.ToPrestamo | src/main/java/ar/edu/utn/frbb/tup/persistence/entity/PrestamoEntity.java:42-55 | succeeds if and only if both tokens decode; a bad currency token is reported before a bad status token; on success every stored field maps back to its loan field, client number to holder DNI, and the decoded status and currency re-encode to the stored tokens |
| PrestamoEntities.PrestamoEntity.SetEstado | src/main/java/ar/edu/utn/frbb/tup/persistence/entity/PrestamoEntity.java:78-80 | replaces the status token and leaves every other field unchanged |
| PrestamoEntities.PrestamoEntity.SetSaldoRestante | src/main/java/ar/edu/utn/frbb/tup/persistence/entity/PrestamoEntity.java:89-91 | replaces the remaining balance and leaves every other field unchanged |
| PrestamoEntities.PrestamoEntity.SetPagosRealizados | src/main/java/ar/edu/utn/frbb/tup/persistence/entity/PrestamoEntity.java:96-98 | replaces the count of payments made and leaves every other field unchanged |
| PrestamoEntities.StoreAndRestore | src/main/java/ar/edu/utn/frbb/tup/persistence/entity/PrestamoEntity.java:24-55 | `toPrestamo(new PrestamoEntity(p))` gives p back when p has a status and a currency, with a null plan turned into an empty one; a loan without a status fails with IllegalArgumentException for "null" |
| PrestamoEntities.StoreUpdateAndRestore | src/main/java/ar/edu/utn/frbb/tup/persistence/entity/PrestamoEntity.java:24-98 | storing a loan, setting status, balance and payments made, and reading it back gives the loan with exactly those three fields replaced |
| ClienteServices.VerificarEdadValida | src/main/java/ar/edu/utn/frbb/tup/service/imp/ClienteServiceImp.java:74-78 | passes if and only if the age is at least 18 (18 itself passes); otherwise ClienteMayorDeEdadException with its message |
| ClienteServices.ActualizarDatos | src/main/java/ar/edu/utn/frbb/tup/service/imp/ClienteServiceImp.java:104-114 | a null or empty phone or email, or a null active flag, leaves that field unchanged; a present one replaces it; no other field changes |
| ClienteServices.ActualizarDatosIdempotent | src/main/java/ar/edu/utn/frbb/tup/service/imp/ClienteServiceImp.java:104-114 | applying the same update twice equals applying it once |
| ClienteServices.AddAccountKeepsOnePerKind | src/main/java/ar/edu/utn/frbb/tup/service/imp/ClienteServiceImp.java:80-95 | adding an account of a (type, currency) pair the customer does not hold keeps at most one account per pair |
| ClienteServices.ClienteServiceImp.constructor | src/main/java/ar/edu/utn/frbb/tup/service/imp/ClienteServiceImp.java:27-30 | the service adopts the injected customer store as it is, provided every customer in it is stored under its own DNI |
| ClienteServices.ClienteServiceImp.VerificarClienteExistente | src/main/java/ar/edu/utn/frbb/tup/service/imp/ClienteServiceImp.java:68-72 | fails with ClienteAlreadyExistsException "Ya existe un cliente con ese DNI." if and only if the DNI is stored |
| ClienteServices.ClienteServiceImp.VerificarTipoCuentaExistenteEnMoneda | src/main/java/ar/edu/utn/frbb/tup/service/imp/ClienteServiceImp.java:80-87 | passes if and only if no account of the customer has the given type and currency; otherwise TipoCuentaYaExisteException naming both |
| ClienteServices.ClienteServiceImp.DarDeAltaCliente | src/main/java/ar/edu/utn/frbb/tup/service/imp/ClienteServiceImp.java:33-39 | succeeds if and only if the DNI is new and the customer is at least 18; a stored DNI is reported as a duplicate whatever the age; on failure nothing is stored; on success exactly that customer is added under its DNI and returned; if the new customer's own accounts hold at most one per (type, currency), the rule still holds for every stored customer (the new customer's accounts are not checked) |
| ClienteServices.ClienteServiceImp.BuscarClientePorDni | src/main/java/ar/edu/utn/frbb/tup/service/imp/ClienteServiceImp.java:42-48 | returns the stored customer if and only if the DNI is stored, otherwise ClientNoExisteException "El cliente no existe" |
| ClienteServices.ClienteServiceImp.BuscarClientes | src/main/java/ar/edu/utn/frbb/tup/service/imp/ClienteServiceImp.java:51-54 | returns exactly the stored customers |
| ClienteServices.ClienteServiceImp.DesactivarCliente | src/main/java/ar/edu/utn/frbb/tup/service/imp/ClienteServiceImp.java:57-65 | an unknown DNI fails with ClientNoExisteException and changes nothing; otherwise only that customer's active flag becomes false and the updated customer is returned; on an inactive customer nothing changes (idempotent) |
| ClienteServices.ClienteServiceImp.AgregarCuenta | src/main/java/ar/edu/utn/frbb/tup/service/imp/ClienteServiceImp.java:90-95 | fails with TipoCuentaYaExisteException and changes nothing if and only if the customer holds an account of the same type and currency; otherwise exactly that account is added to that customer only; the one-account-per-kind rule is kept |
| ClienteServices.ClienteServiceImp.AgregarPrestamo | src/main/java/ar/edu/utn/frbb/tup/service/imp/ClienteServiceImp.java:98-102 | an unknown DNI fails with ClientNoExisteException and changes nothing; otherwise the loan is appended to that customer's loans and nothing else changes |

## Left out

- The loan lifecycle, amortization schedule and credit evaluation: the loan service, the loan controller and `Prestamo.java` are not part of this model, so nothing here computes installments, balances or status transitions.
- `TipoMoneda.java` is not part of this model. The currency is an enumeration PESOS / DOLARES with tokens "P" and "D" (the tokens the test files use), and its `fromString` is taken to match exactly and to fail on null or any other text; that failure is `RestoreError.BadMoneda`, since the exception it throws is not visible.
- `TipoCuenta.java`, `Cuenta.java`, `Cliente.java` and `PlanPago.java` are not part of this model: each is a value with the fields the core uses.
- The constant lists of both enumerations are assumed: only PESOS and CAJA_AHORRO appear in the visible sources, so DOLARES, CUENTA_CORRIENTE, the completeness of each list, and the assumption that neither enum overrides `toString` (on which the duplicate-account message depends) are not confirmed.
- Aliasing: customers and loans are values, so the model does not capture that `buscarClientePorDni` returns the very object the DAO holds, nor that `toPrestamo` hands the entity's own plan list to the loan it builds.
- `actualizarDatos` mutates a customer object in place; here it returns the updated customer. The service never calls it.
- ClienteServices.ClienteServiceImp.AgregarCuenta: requires the DNI to be stored; for an unknown DNI the source dereferences null (a NullPointerException), which is not modelled, although the service interface declares ClientNoExisteException for it.
- The customer DAO (`find`, `save`, `update`, `findAll`) is a map from DNI to customer; the boolean flag passed to `find` is ignored, `findAll` is the set of stored customers (its order is the DAO's), and storage failures are not modelled.
- A customer's age is a field; its derivation from the birth date (a clock read) is not modelled.
- Monetary amounts (Java `double`) are only copied, so they are `real`; `long` and `int` identifiers and counters are only copied, so no fixed width is modelled. Boxed `Long` arguments are never null here.
- A customer's loans are taken to be a list, so `getPrestamos().add(prestamo)` appends and keeps duplicates and order; `Cliente.java` is not part of this model, and if that collection were a set, adding an equal loan twice would leave it unchanged.
- The customer's accounts are a set of values compared structurally; how Java's `HashSet` compares `Cuenta` objects depends on `Cuenta.equals`, which is not visible.
- The getters of `PrestamoEntity` are its fields; the `BaseEntity` superclass, Spring wiring and the unused `CuentaDao` are not modelled.
