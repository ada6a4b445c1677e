/**
 * Confirmation scenarios: the closed set of ways a payer approves a payment,
 * and the lowercase tokens the API uses for them.
 */
module Confirmations {
  import opened Wrappers

  /** The five scenarios, in declaration order. */
  datatype ConfirmationType = Embedded | External | MobileApplication | QR | Redirect

  /** The integer a scenario stands for: its position in the declaration (0 to 4). */
  function Ordinal(c: ConfirmationType): (n: nat)
    ensures n < |Tokens|
  {
    match c
    case Embedded => 0
    case External => 1
    case MobileApplication => 2
    case QR => 3
    case Redirect => 4
  }

  /** The token table, indexed by ordinal. */
  const Tokens: seq<string> := ["embedded", "external", "mobile_application", "qr", "redirect"]

  /** A character a token may contain: a lowercase Latin letter or an underscore. */
  predicate IsTokenChar(ch: char) {
    'a' <= ch <= 'z' || ch == '_'
  }

  /**
   * The token of scenario number `c`. Only 0 to 4 are scenarios; any other
   * integer indexes outside the table, so callers must stay in range.
   */
  function String(c: int): (t: string)
    requires 0 <= c < |Tokens|
    ensures t in Tokens
    ensures t != [] && forall i :: 0 <= i < |t| ==> IsTokenChar(t[i])
  {
    Tokens[c]
  }

  /** The scenario named by a token, if any: the inverse of `String`. */
  function Parse(t: string): (r: Option<int>)
    ensures r.Some? ==> 0 <= r.value < |Tokens| && Tokens[r.value] == t
    ensures r.None? ==> t !in Tokens
  {
    IndexFrom(t, 0)
  }

  function IndexFrom(t: string, from: nat): (r: Option<int>)
    requires from <= |Tokens|
    ensures r.Some? ==> from <= r.value < |Tokens| && Tokens[r.value] == t
    ensures r.None? ==> forall i :: from <= i < |Tokens| ==> Tokens[i] != t
    decreases |Tokens| - from
  {
    if from == |Tokens| then None
    else if Tokens[from] == t then Some(from)
    else IndexFrom(t, from + 1)
  }

  /** The tokens are pairwise different. */
  lemma TokensDistinct()
    ensures forall i, j :: 0 <= i < j < |Tokens| ==> Tokens[i] != Tokens[j]
  {
  }

  /** Each scenario renders as its documented token. */
  lemma StringTable()
    ensures String(Ordinal(Embedded)) == "embedded"
    ensures String(Ordinal(External)) == "external"
    ensures String(Ordinal(MobileApplication)) == "mobile_application"
    ensures String(Ordinal(QR)) == "qr"
    ensures String(Ordinal(Redirect)) == "redirect"
  {
  }

  /** Distinct scenarios yield distinct tokens. */
  lemma StringInjective(c: int, d: int)
    requires 0 <= c < |Tokens| && 0 <= d < |Tokens|
    requires String(c) == String(d)
    ensures c == d
  {
  }

  /** Distinct scenario values have distinct ordinals, so their tokens differ too. */
  lemma OrdinalInjective(a: ConfirmationType, b: ConfirmationType)
    ensures Ordinal(a) == Ordinal(b) <==> a == b
    ensures a != b ==> String(Ordinal(a)) != String(Ordinal(b))
  {
  }

  /** Parsing a rendered token gives the scenario back, and only rendered tokens parse. */
  lemma ParseString(c: int, t: string)
    requires 0 <= c < |Tokens|
    ensures Parse(String(c)) == Some(c)
    ensures Parse(t) == Some(c) <==> String(c) == t
  {
  }
}
