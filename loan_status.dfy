/**
 * The loan status enumeration and its one-letter persisted token
 * (model/enums/LoanStatus.java).
 */
module LoanStatuses {
  import opened Wrappers

  /** The three constants, in declaration order. */
  datatype LoanStatus = Aprobado | Rechazado | Cerrado

  /** IllegalArgumentException with its message. */
  datatype IllegalArgument = IllegalArgument(message: string)

  /** `values()`: every constant, in declaration order. */
  const Values: seq<LoanStatus> := [Aprobado, Rechazado, Cerrado]

  /** `getDescripcion()`: the token stored for a status. */
  function Descripcion(s: LoanStatus): (t: string)
    ensures |t| == 1
    ensures t == "A" || t == "R" || t == "C"
  {
    match s
    case Aprobado => "A"
    case Rechazado => "R"
    case Cerrado => "C"
  }

  /** How Java's string concatenation renders a possibly-null string. */
  function Shown(text: Option<string>): string
  {
    match text
    case None => "null"
    case Some(t) => t
  }

  /**
   * The `for` loop of `fromString` over `vals`: the first constant whose token
   * `equals` the text. `equals` on a null argument is false, so `None` never matches.
   */
  function Search(vals: seq<LoanStatus>, text: Option<string>): (r: Option<LoanStatus>)
    ensures r.Some? ==> r.value in vals && text == Some(Descripcion(r.value))
    ensures r.None? ==> forall v :: v in vals ==> text != Some(Descripcion(v))
  {
    if vals == [] then None
    else if text == Some(Descripcion(vals[0])) then Some(vals[0])
    else Search(vals[1..], text)
  }

  /** `fromString`: the status whose token is exactly `text`, or IllegalArgumentException. */
  function FromString(text: Option<string>): (r: Result<LoanStatus, IllegalArgument>)
    ensures r.Success? ==> text == Some(Descripcion(r.value))
    ensures r.Failure? ==> forall s: LoanStatus :: text != Some(Descripcion(s))
    ensures r.Failure? ==> r.error == IllegalArgument("Estado del prestamo no valido: " + Shown(text))
  {
    match Search(Values, text)
    case Some(s) => Success(s)
    case None =>
      forall s: LoanStatus ensures s in Values {
        assert s == Values[0] || s == Values[1] || s == Values[2];
      }
      Failure(IllegalArgument("Estado del prestamo no valido: " + Shown(text)))
  }

  /** Decoding the token of a status gives that status back. */
  lemma RoundTrip(s: LoanStatus)
    ensures FromString(Some(Descripcion(s))) == Success(s)
  {
  }

  /** The three tokens are pairwise distinct, so the encoding is injective. */
  lemma DescripcionInjective(s1: LoanStatus, s2: LoanStatus)
    ensures Descripcion(s1) == Descripcion(s2) <==> s1 == s2
  {
  }

  /** Decoding succeeds exactly on the three tokens, and re-encodes to the same text. */
  lemma FromStringSucceedsIff(text: Option<string>)
    ensures FromString(text).Success? <==> text == Some("A") || text == Some("R") || text == Some("C")
    ensures FromString(text).Success? ==> Some(Descripcion(FromString(text).value)) == text
  {
  }

  /** Examples: lower-case text, a constant's name and null are rejected, with their messages. */
  lemma FromStringRejects()
    ensures FromString(Some("a")) == Failure(IllegalArgument("Estado del prestamo no valido: a"))
    ensures FromString(Some("APROBADO")).Failure?
    ensures FromString(None) == Failure(IllegalArgument("Estado del prestamo no valido: null"))
  {
    FromStringSucceedsIff(Some("a"));
    FromStringSucceedsIff(Some("APROBADO"));
    FromStringSucceedsIff(None);
    assert Shown(Some("a")) == "a";
    assert "Estado del prestamo no valido: " + "a" == "Estado del prestamo no valido: a";
    assert "Estado del prestamo no valido: " + "null" == "Estado del prestamo no valido: null";
  }
}
