/** Types shared by the whole front end: optional values and results, the
    (opaque) value universe, namespaced variable identifiers, and the decimal
    rendering that the compiler uses to synthesise names ("0", "n1", "c3"). */
module Base {

  datatype Option<+T> = None | Some(value: T)

  /** The ways in which one compilation of a unit can abort. */
  datatype FrontendError =
    | UnknownTerminal(text: string)       // a terminal token that is neither an integer nor a boolean literal
    | MultipleAssignment(id: Identifier)  // a variable bound by more than one assignment
    | ElaborationBound                    // function elaboration did not reach its fixpoint within the bound

  datatype Result<+T> = Ok(value: T) | Err(error: FrontendError)

  /** No element occurs twice. */
  predicate Distinct<T(==)>(s: seq<T>) {
    forall i, j :: 0 <= i < j < |s| ==> s[i] != s[j]
  }

  /** The value universe is outside the core: integers, booleans and the nil
      type are the literals the front end builds itself; everything else
      (types, port and node types, nodes, connections) is an immutable value
      known to the core only through an opaque handle. */
  datatype Value =
    | IntegerValue(i: int)
    | BooleanValue(b: bool)
    | NilTypeValue
    | External(handle: nat)

  /** A namespaced variable identifier `a.b.c`: a non-empty sequence of name
      segments, compared structurally. */
  type Identifier = s: seq<string> | |s| > 0 witness [""]

  /** The non-namespaced part of an identifier: its last segment. */
  function Name(id: Identifier): (r: string)
    ensures r in id
    ensures |id| == 1 ==> r == id[0]
  {
    id[|id| - 1]
  }

  // ----- decimal rendering of counters -----

  predicate IsDigit(c: char) {
    '0' <= c <= '9'
  }

  function DigitChar(d: nat): (c: char)
    requires d < 10
    ensures IsDigit(c) && (c as int) - ('0' as int) == d
  {
    ('0' as int + d) as char
  }

  /** Decimal rendering of a natural number, as `Integer.toString` prints a
      non-negative counter: no sign, no leading zeros. */
  function NatToString(n: nat): (s: string)
    ensures |s| >= 1
    ensures forall i :: 0 <= i < |s| ==> IsDigit(s[i])
    ensures |s| > 1 ==> s[0] != '0'
  {
    if n < 10 then [DigitChar(n)] else NatToString(n / 10) + [DigitChar(n % 10)]
  }

  /** Reading a string of decimal digits back as a number; the partner of
      NatToString. */
  function ParseNat(s: string): nat
    requires forall i :: 0 <= i < |s| ==> IsDigit(s[i])
  {
    if s == [] then 0
    else
      assert IsDigit(s[|s| - 1]);
      ParseNat(s[..|s| - 1]) * 10 + ((s[|s| - 1] as int) - ('0' as int))
  }

  lemma {:induction false} ParseNatToString(n: nat)
    ensures ParseNat(NatToString(n)) == n
  {
    var s := NatToString(n);
    if n >= 10 {
      ParseNatToString(n / 10);
      assert s[..|s| - 1] == NatToString(n / 10);
    }
  }

  /** Distinct counters are rendered as distinct strings. */
  lemma NatToStringInjective(a: nat, b: nat)
    ensures NatToString(a) == NatToString(b) ==> a == b
  {
    ParseNatToString(a);
    ParseNatToString(b);
  }
}
