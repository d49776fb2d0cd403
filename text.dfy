/** Text helpers for the deprecation formatter: decimal rendering of counts,
    joining of message parts, and substring containment and order, which is
    how the formatter's output is described. */
module Text {

  /** The decimal digit character for a value below ten. */
  function DigitChar(d: nat): (c: char)
    requires d < 10
    ensures '0' <= c <= '9'
  {
    "0123456789"[d]
  }

  /** The value of a decimal digit character. */
  function DigitValue(c: char): (d: nat)
    requires '0' <= c <= '9'
    ensures d < 10
  {
    (c as int - '0' as int) as nat
  }

  predicate IsDigits(s: string) {
    forall i :: 0 <= i < |s| ==> '0' <= s[i] <= '9'
  }

  /** The decimal form of n, as Ruby's string interpolation of an Integer
      writes it: at least one digit and no leading zero. */
  function NatToString(n: nat): (r: string)
    ensures |r| >= 1 && IsDigits(r)
    ensures r[0] == '0' ==> n == 0
    decreases n
  {
    if n < 10 then [DigitChar(n)] else NatToString(n / 10) + [DigitChar(n % 10)]
  }

  /** Reads a string of decimal digits back as a number; the partner of
      NatToString. */
  function ParseDecimal(s: string): (n: nat)
    requires IsDigits(s)
    decreases |s|
  {
    if |s| == 0 then 0 else 10 * ParseDecimal(s[..|s| - 1]) + DigitValue(s[|s| - 1])
  }

  lemma DigitRoundTrip(d: nat)
    requires d < 10
    ensures DigitValue(DigitChar(d)) == d
  {
  }

  /** Rendering a count and reading it back gives the same count, so the
      digits in a summary line report exactly the count. */
  lemma {:induction false} ParseNatToString(n: nat)
    ensures ParseDecimal(NatToString(n)) == n
    decreases n
  {
    var s := NatToString(n);
    if n < 10 {
      DigitRoundTrip(n);
      assert s[..0] == [];
    } else {
      ParseNatToString(n / 10);
      DigitRoundTrip(n % 10);
      assert s[..|s| - 1] == NatToString(n / 10);
    }
  }

  /** NatToString is injective: different counts give different text. */
  lemma NatToStringInjective(m: nat, n: nat)
    requires NatToString(m) == NatToString(n)
    ensures m == n
  {
    ParseNatToString(m);
    ParseNatToString(n);
  }

  /** The parts joined with a single space between neighbours. */
  function Join(parts: seq<string>): string
    decreases |parts|
  {
    if |parts| == 0 then ""
    else if |parts| == 1 then parts[0]
    else parts[0] + " " + Join(parts[1..])
  }

  /** t occurs in s at position i. */
  predicate OccursAt(s: string, t: string, i: int) {
    0 <= i && i + |t| <= |s| && s[i..i + |t|] == t
  }

  /** t is a substring of s (Ruby's `match` against a literal pattern). */
  predicate Contains(s: string, t: string) {
    exists i :: 0 <= i <= |s| && OccursAt(s, t, i)
  }

  /** t1 occurs in s entirely before an occurrence of t2. */
  predicate OccursBefore(s: string, t1: string, t2: string) {
    exists k :: 0 <= k <= |s| && Contains(s[..k], t1) && Contains(s[k..], t2)
  }

  lemma ContainsInfix(a: string, t: string, b: string)
    ensures Contains(a + t + b, t)
  {
    assert (a + t + b)[|a|..|a| + |t|] == t;
    assert OccursAt(a + t + b, t, |a|);
  }

  lemma ContainsPrefix(s: string, t: string, b: string)
    requires Contains(s, t)
    ensures Contains(s + b, t)
  {
    var i :| 0 <= i <= |s| && OccursAt(s, t, i);
    assert (s + b)[i..i + |t|] == s[i..i + |t|];
    assert OccursAt(s + b, t, i);
  }

  lemma ContainsSuffix(a: string, s: string, t: string)
    requires Contains(s, t)
    ensures Contains(a + s, t)
  {
    var i :| 0 <= i <= |s| && OccursAt(s, t, i);
    assert (a + s)[|a| + i..|a| + i + |t|] == s[i..i + |t|];
    assert OccursAt(a + s, t, |a| + i);
  }

  lemma OccursBeforeExtend(s: string, t1: string, t2: string, b: string)
    requires OccursBefore(s, t1, t2)
    ensures OccursBefore(s + b, t1, t2)
  {
    var k :| 0 <= k <= |s| && Contains(s[..k], t1) && Contains(s[k..], t2);
    assert (s + b)[..k] == s[..k];
    assert (s + b)[k..] == s[k..] + b;
    ContainsPrefix(s[k..], t2, b);
  }

  /** Every part appears in the joined text. */
  lemma {:induction false} JoinContains(parts: seq<string>, k: nat)
    requires k < |parts|
    ensures Contains(Join(parts), parts[k])
    decreases |parts|
  {
    if |parts| == 1 {
      ContainsInfix("", parts[0], "");
      assert "" + parts[0] + "" == Join(parts);
    } else if k == 0 {
      ContainsInfix("", parts[0], " " + Join(parts[1..]));
      assert "" + parts[0] + (" " + Join(parts[1..])) == Join(parts);
    } else {
      JoinContains(parts[1..], k - 1);
      ContainsSuffix(parts[0] + " ", Join(parts[1..]), parts[k]);
    }
  }

  /** Joining a sequence cut at k is joining both halves with a space. */
  lemma {:induction false} JoinSplit(parts: seq<string>, k: nat)
    requires 0 < k < |parts|
    ensures Join(parts) == Join(parts[..k]) + " " + Join(parts[k..])
    decreases |parts|
  {
    if k == 1 {
      assert parts[..1] == [parts[0]];
      assert parts[k..] == parts[1..];
    } else {
      JoinSplit(parts[1..], k - 1);
      assert parts[1..][..k - 1] == parts[..k][1..];
      assert parts[1..][k - 1..] == parts[k..];
    }
  }

  /** An occurrence in the left piece comes before one in the right piece. */
  lemma OccursBeforeConcat(l: string, r: string, t1: string, t2: string)
    requires Contains(l, t1) && Contains(r, t2)
    ensures OccursBefore(l + r, t1, t2)
  {
    assert (l + r)[..|l|] == l;
    assert (l + r)[|l|..] == r;
  }

  /** Joining keeps the order of the parts: an earlier part appears before a
      later one. */
  lemma JoinOrder(parts: seq<string>, i: nat, j: nat)
    requires i < j < |parts|
    ensures OccursBefore(Join(parts), parts[i], parts[j])
  {
    var front, back := parts[..j], parts[j..];
    var l, r := Join(front), Join(back);
    assert front[i] == parts[i];
    JoinContains(front, i);
    assert back[0] == parts[j];
    JoinContains(back, 0);
    ContainsSuffix(" ", r, parts[j]);
    OccursBeforeConcat(l, " " + r, parts[i], parts[j]);
    JoinSplitAssoc(parts, j);
  }

  lemma JoinSplitAssoc(parts: seq<string>, j: nat)
    requires 0 < j < |parts|
    ensures Join(parts) == Join(parts[..j]) + (" " + Join(parts[j..]))
  {
    JoinSplit(parts, j);
  }
}
