/**
 * Review action tokens and the Linear comment markers built from them: a token determines its decision, and one
 * decision's marker never starts with another's.
 */
module Tokens {
  import opened Text

  function ReviewActionToken(cycleId: string, revisionCount: nat): string {
    cycleId + "-r" + Decimal(revisionCount)
  }

  /** The literal a review comment must start with. */
  function Marker(token: string): string {
    MARKER_OPENING + token + "]"
  }

  const MARKER_OPENING := "[OPUS REVIEW #"

  /** The shape of a `randomUUID()` result, as far as the proofs need it. */
  predicate IsUuid(s: string) {
    |s| == 36 && forall c :: c in s ==> IsDigit(c) || 'a' <= c <= 'f' || c == '-'
  }

  /** A token determines its cycle and its revision count, whatever characters the cycle id contains. */
  lemma TokenInjective(a: string, m: nat, b: string, n: nat)
    requires ReviewActionToken(a, m) == ReviewActionToken(b, n)
    ensures a == b && m == n
  {
    NumeralsAlign(a, Decimal(m), b, Decimal(n));
    DecimalInjective(m, n);
  }

  /** The last 'r' before a run of digits fixes where the numeral starts. */
  lemma NumeralsAlign(a: string, s: string, b: string, t: string)
    requires forall c :: c in s ==> IsDigit(c)
    requires forall c :: c in t ==> IsDigit(c)
    requires a + "-r" + s == b + "-r" + t
    ensures a == b && s == t
  {
    if |s| < |t| {
      LetterInLongerTail(a, s, b, t);
    }
    if |t| < |s| {
      LetterInLongerTail(b, t, a, s);
    }
    var u := a + "-r" + s;
    assert a == u[..|a|] && b == u[..|b|];
    assert s == u[|a| + 2..] && t == u[|b| + 2..];
  }

  lemma LetterInLongerTail(a: string, s: string, b: string, t: string)
    requires a + "-r" + s == b + "-r" + t
    requires |s| < |t|
    ensures 'r' in t
  {
    var u := a + "-r" + s;
    assert |u| == |a| + 2 + |s| == |b| + 2 + |t|;
    assert u[|a| + 1] == 'r' && u[|a| + 1] == t[|a| - |b| - 1];
  }

  /** For cycle ids without a closing bracket, a marker that starts a text starting with another marker is that marker. */
  lemma MarkersPrefixFree(a: string, m: nat, b: string, n: nat, text: string)
    requires ']' !in a && ']' !in b
    requires Marker(ReviewActionToken(a, m)) <= text && Marker(ReviewActionToken(b, n)) <= text
    ensures a == b && m == n
  {
    var s, t := ReviewActionToken(a, m), ReviewActionToken(b, n);
    var k := |MARKER_OPENING|;
    assert text[k + |s|] == ']' && text[k + |t|] == ']';
    if |s| < |t| {
      assert text[k + |s|] == t[|s|];
      TokenHasNoBracket(b, n);
    }
    if |t| < |s| {
      assert text[k + |t|] == s[|t|];
      TokenHasNoBracket(a, m);
    }
    assert s == text[k..k + |s|] && t == text[k..k + |t|];
    TokenInjective(a, m, b, n);
  }

  lemma TokenHasNoBracket(a: string, m: nat)
    requires ']' !in a
    ensures ']' !in ReviewActionToken(a, m)
  {
    assert forall c :: c in Decimal(m) ==> IsDigit(c);
  }

  /** Revision 1 is never mistaken for revision 10: the bracket ends the numeral. */
  lemma RevisionOneIsNotTen(cycleId: string, text: string)
    requires ']' !in cycleId && Marker(ReviewActionToken(cycleId, 10)) <= text
    ensures !(Marker(ReviewActionToken(cycleId, 1)) <= text)
  {
    if Marker(ReviewActionToken(cycleId, 1)) <= text {
      MarkersPrefixFree(cycleId, 1, cycleId, 10, text);
    }
  }

  /** Without the restriction on brackets the markers are not prefix-free. */
  lemma BracketedIdsClash()
    ensures Marker(ReviewActionToken("a", 1)) <= Marker(ReviewActionToken("a-r1]b", 2))
  {
    assert Decimal(1) == "1" && Decimal(2) == "2";
    var m := Marker(ReviewActionToken("a", 1));
    var n := Marker(ReviewActionToken("a-r1]b", 2));
    assert m == MARKER_OPENING + "a-r1]";
    assert n == m + "b-r2]";
  }

  // ---------------------------------------------------------------- review comments

  datatype ReviewOutcome = Pass | RevisionRequired | NeedsHuman

  function Label(o: ReviewOutcome): string {
    match o
    case Pass => " PASS"
    case RevisionRequired => " REVISION REQUIRED"
    case NeedsHuman => " NEEDS HUMAN"
  }

  /** The text is a review comment for this token, recording this outcome. */
  predicate Records(text: string, token: string, o: ReviewOutcome) {
    Marker(token) + Label(o) <= text
  }

  /** A review comment records one outcome only. */
  lemma RecordsOneOutcome(text: string, token: string, o: ReviewOutcome, p: ReviewOutcome)
    requires Records(text, token, o) && Records(text, token, p)
    ensures o == p
  {
    var k := |Marker(token)|;
    assert text[k + 1] == (Marker(token) + Label(o))[k + 1] == Label(o)[1];
    assert text[k + 1] == (Marker(token) + Label(p))[k + 1] == Label(p)[1];
  }

  /** The comment a review turn has to post, spelled out. */
  lemma RecordsLiterally(text: string, cycleId: string, rev: nat)
    ensures var head := "[OPUS REVIEW #" + cycleId + "-r" + Decimal(rev) + "]";
            && Marker(ReviewActionToken(cycleId, rev)) == head
            && (Records(text, ReviewActionToken(cycleId, rev), Pass) <==> head + " PASS" <= text)
            && (Records(text, ReviewActionToken(cycleId, rev), RevisionRequired) <==> head + " REVISION REQUIRED" <= text)
            && (Records(text, ReviewActionToken(cycleId, rev), NeedsHuman) <==> head + " NEEDS HUMAN" <= text)
  {
    var head := "[OPUS REVIEW #" + cycleId + "-r" + Decimal(rev) + "]";
    assert Marker(ReviewActionToken(cycleId, rev)) == head;
  }
}
