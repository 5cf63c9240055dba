/** The two range headers a download reads, as text. */
module HttpHeaders {
  import opened Wrappers

  predicate IsDigit(c: char) {
    '0' <= c <= '9'
  }

  function DigitValue(c: char): nat
    requires IsDigit(c)
  {
    c as int - '0' as int
  }

  /** Digits only, most significant first. */
  function ParseNat(s: string): (n: Option<nat>) {
    if s == "" || !IsDigit(s[|s| - 1]) then None
    else if |s| == 1 then Some(DigitValue(s[0]))
    else
      var front := ParseNat(s[..|s| - 1]);
      if front.None? then None else Some(10 * front.value + DigitValue(s[|s| - 1]))
  }

  function TrimLeft(s: string): string {
    if s != "" && s[0] == ' ' then TrimLeft(s[1..]) else s
  }

  function TrimRight(s: string): string {
    if s != "" && s[|s| - 1] == ' ' then TrimRight(s[..|s| - 1]) else s
  }

  /** A whole number with an optional sign, blanks around it ignored. */
  function ParseInt(s: string): Option<int> {
    var t := TrimRight(TrimLeft(s));
    if t == "" then None
    else if t[0] == '-' then
      var n := ParseNat(t[1..]);
      if n.None? then None else
      var value: int := n.value;
      Some(0 - value)
    else ParseNat(if t[0] == '+' then t[1..] else t)
  }

  function NatToString(n: nat): (s: string)
    ensures s != "" && forall i :: 0 <= i < |s| ==> IsDigit(s[i])
  {
    var last := ['0' + (n % 10) as char];
    if n < 10 then last else NatToString(n / 10) + last
  }

  /** The position of the first `c`, if it occurs. */
  function IndexOf(s: string, c: char): (i: Option<nat>)
    ensures i.Some? ==> i.value < |s| && s[i.value] == c && c !in s[..i.value]
    ensures i.None? ==> c !in s
  {
    if s == "" then None
    else if s[0] == c then Some(0)
    else
      var rest := IndexOf(s[1..], c);
      if rest.None? then None
      else
        assert s[..rest.value + 1] == [s[0]] + s[1..][..rest.value];
        Some(rest.value + 1)
  }

  const BYTES := "bytes "
  const UNSATISFIED := "bytes */"

  /** The text before the first `c` and the text after it. */
  function SplitOnce(s: string, c: char): Option<(string, string)> {
    var i := IndexOf(s, c);
    if i.None? then None else Some((s[..i.value], s[i.value + 1..]))
  }

  function Span(body: string): Option<(int, int)> {
    var parts := SplitOnce(body, '/');
    if parts.None? then None
    else
      var span := SplitOnce(parts.value.0, '-');
      if span.None? then None
      else
        var start, total := ParseInt(span.value.0), ParseInt(parts.value.1);
        if start.None? || total.None? then None else Some((start.value, total.value))
  }

  /** The first position and the total length of a partial answer. */
  function ContentRange(value: string): Option<(int, int)> {
    if BYTES <= value then Span(value[6..]) else None
  }

  function UnsatisfiedTotal(value: string): Option<int> {
    if UNSATISFIED <= value then ParseInt(value[8..]) else None
  }

  // ---------------------------------------------------------------- what a server writes is read back

  lemma {:induction false} NatRoundTrip(n: nat)
    ensures ParseNat(NatToString(n)) == Some(n)
  {
    if n >= 10 {
      NatRoundTrip(n / 10);
      var s := NatToString(n);
      assert s[..|s| - 1] == NatToString(n / 10);
    }
  }

  lemma IntRoundTrip(n: nat)
    ensures ParseInt(NatToString(n)) == Some(n)
  {
    NatRoundTrip(n);
    var s := NatToString(n);
    assert IsDigit(s[0]) && IsDigit(s[|s| - 1]);
    assert TrimLeft(s) == s && TrimRight(s) == s;
  }

  lemma {:induction false} IndexAfter(a: string, c: char, b: string)
    requires c !in a
    ensures IndexOf(a + [c] + b, c) == Some(|a|)
  {
    var s := a + [c] + b;
    if a != "" {
      assert a[0] in a;
      assert s[1..] == a[1..] + [c] + b;
      IndexAfter(a[1..], c, b);
    }
  }

  lemma SplitAfter(a: string, c: char, b: string)
    requires c !in a
    ensures SplitOnce(a + [c] + b, c) == Some((a, b))
  {
    IndexAfter(a, c, b);
    assert (a + [c] + b)[..|a|] == a && (a + [c] + b)[|a| + 1..] == b;
  }

  lemma DigitsOnly(n: nat, c: char)
    requires !IsDigit(c)
    ensures c !in NatToString(n)
  {
  }

  lemma SpanRoundTrip(a: string, b: string, t: string, first: nat, total: nat)
    requires '/' !in a && '/' !in b && '-' !in a
    requires ParseInt(a) == Some(first) && ParseInt(t) == Some(total)
    ensures Span(a + ['-'] + b + ['/'] + t) == Some((first, total))
  {
    SplitAfter(a + ['-'] + b, '/', t);
    SplitAfter(a, '-', b);
  }

  /** A partial answer for positions `first` to `last` of `total` is understood as starting at `first`. */
  lemma ContentRangeRoundTrip(first: nat, last: nat, total: nat)
    ensures ContentRange(BYTES + (NatToString(first) + ['-'] + NatToString(last) + ['/'] + NatToString(total)))
         == Some((first, total))
  {
    var a, b, t := NatToString(first), NatToString(last), NatToString(total);
    DigitsOnly(first, '/');
    DigitsOnly(last, '/');
    DigitsOnly(first, '-');
    IntRoundTrip(first);
    IntRoundTrip(total);
    SpanRoundTrip(a, b, t, first, total);
    AfterBytes(a + ['-'] + b + ['/'] + t);
  }

  lemma AfterBytes(body: string)
    ensures ContentRange(BYTES + body) == Span(body)
  {
    assert (BYTES + body)[6..] == body;
  }

  lemma UnsatisfiedRoundTrip(total: nat)
    ensures UnsatisfiedTotal(UNSATISFIED + NatToString(total)) == Some(total)
  {
    var value := UNSATISFIED + NatToString(total);
    assert value[8..] == NatToString(total) && value[..8] == UNSATISFIED;
    IntRoundTrip(total);
  }

  /** An unsatisfied range is never mistaken for a partial answer. */
  lemma UnsatisfiedIsNoRange(total: nat)
    ensures ContentRange(UNSATISFIED + NatToString(total)).None?
  {
    var t := NatToString(total);
    assert UNSATISFIED + t == BYTES + (['*'] + ['/'] + t);
    AfterBytes(['*'] + ['/'] + t);
    SplitAfter(['*'], '/', t);
  }
}
