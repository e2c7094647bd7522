/** The text key of a position, "<instrument>:<side>", and reading it back. */
module PositionKeys {
  import opened Ordering

  const I32_MIN := -0x8000_0000
  const I32_MAX := 0x7fff_ffff

  type I32 = n: int | I32_MIN <= n <= I32_MAX

  function Digit(d: int): char
    requires 0 <= d < 10
  {
    ('0' as int + d) as char
  }

  predicate IsDigit(c: char) { '0' <= c <= '9' }

  function Digits(n: nat): (s: string)
    ensures s != [] && forall c :: c in s ==> IsDigit(c)
  {
    if n < 10 then [Digit(n)] else Digits(n / 10) + [Digit(n % 10)]
  }

  function FormatInt(n: int): string {
    if n < 0 then "-" + Digits(-n) else Digits(n)
  }

  /** The value of a string of digits. */
  function Value(s: string): Option<int> {
    if s == [] then Some(0)
    else
      var c, high := s[|s| - 1], Value(s[..|s| - 1]);
      if !IsDigit(c) || high.None? then None else Some(high.value * 10 + (c as int - '0' as int))
  }

  function InRange(n: Option<int>): Option<I32> {
    if n.Some? && I32_MIN <= n.value <= I32_MAX then Some(n.value) else None
  }

  function ParseInt(s: string): Option<I32> {
    if s == [] || s == "-" || s == "+" then None
    else if s[0] == '-' then
      var v := Value(s[1..]);
      InRange(if v.Some? then Some(-v.value) else None)
    else if s[0] == '+' then InRange(Value(s[1..]))
    else InRange(Value(s))
  }

  lemma {:induction false} ValueOfDigits(n: nat)
    ensures Value(Digits(n)) == Some(n)
    decreases n
  {
    var s := Digits(n);
    if n >= 10 {
      ValueOfDigits(n / 10);
      assert s[..|s| - 1] == Digits(n / 10);
    }
  }

  lemma ParseNegative(m: int)
    requires m >= 0
    ensures ParseInt("-" + Digits(m)) == InRange(Some(-m))
  {
    var s := "-" + Digits(m);
    ValueOfDigits(m);
    assert s[1..] == Digits(m) && s[0] == '-' && |s| > 1;
  }

  lemma ParseNonNegative(m: nat)
    ensures ParseInt(Digits(m)) == InRange(Some(m))
  {
    ValueOfDigits(m);
    assert IsDigit(Digits(m)[0]);
  }

  /** Every 32-bit integer reads back as itself. */
  lemma ParseFormat(n: I32)
    ensures ParseInt(FormatInt(n)) == Some(n)
  {
    var m: int := n;
    if m < 0 { ParseNegative(-m); } else { ParseNonNegative(m); }
  }

  function Format(instrument: string, side: I32): string {
    instrument + [':'] + FormatInt(side)
  }

  /** Split at the first ':'; a side that is not a number reads as 0. */
  function Parse(key: string): Option<(string, I32)> {
    var i := FirstIndex(key, ':');
    if i == |key| then None
    else
      var side := ParseInt(key[i + 1..]);
      Some((key[..i], if side.Some? then side.value else 0))
  }

  /** Where a key is split. */
  lemma SplitsAfter(name: string, tail: string)
    requires ':' !in name
    ensures var key := name + [':'] + tail;
            FirstIndex(key, ':') == |name| && key[..|name|] == name && key[|name| + 1..] == tail
  {
    FirstIndexAfter(name, [':'] + tail, ':');
    assert name + [':'] + tail == name + ([':'] + tail);
  }

  lemma SplitsInside(name: string, tail: string)
    requires ':' in name
    ensures FirstIndex(name + [':'] + tail, ':') < |name|
  {
    var k :| 0 <= k < |name| && name[k] == ':';
    assert (name + [':'] + tail)[k] == ':';
  }

  /** A key reads back as the position it was made for exactly when the instrument has no ':' in its name. */
  lemma KeyRoundTrip(instrument: string, side: I32)
    ensures Parse(Format(instrument, side)) == Some((instrument, side)) <==> ':' !in instrument
  {
    if ':' !in instrument {
      SplitsAfter(instrument, FormatInt(side));
      ParseFormat(side);
    } else {
      SplitsInside(instrument, FormatInt(side));
    }
  }

  /** The key of side 1 of "A:B" reads back as side 0 of "A". */
  lemma ColonMisread()
    ensures Parse(Format("A:B", 1)) == Some(("A", 0))
  {
    var key := Format("A:B", 1);
    assert key == "A:B:1" && FirstIndex(key, ':') == 1 && key[..1] == "A" && key[2..] == "B:1";
    assert "B:1"[..2] == "B:" && Value("B:") == None;
  }

  /** So distinct positions have distinct keys. */
  lemma KeysDistinct(instrument: string, side: I32, instrument': string, side': I32)
    requires ':' !in instrument && ':' !in instrument'
    requires Format(instrument, side) == Format(instrument', side')
    ensures instrument == instrument' && side == side'
  {
    KeyRoundTrip(instrument, side);
    KeyRoundTrip(instrument', side');
  }

  /** What is read from a key has no ':' in its name. */
  lemma ParsedIsColonFree(key: string)
    ensures Parse(key).Some? ==> ':' !in Parse(key).value.0
  {}

  /** A key that equals one of an instrument without ':' in its name was not made for one with it. */
  lemma FirstColonOf(i: string, s: I32, i': string, s': I32)
    requires ':' !in i && Format(i, s) == Format(i', s')
    ensures ':' !in i'
  {
    FormatIntColonFree(s);
    LastColon(i, FormatInt(s), i', FormatInt(s'));
  }

  lemma LastColon(i: string, tail: string, i': string, tail': string)
    requires ':' !in i && ':' !in tail && i + [':'] + tail == i' + [':'] + tail'
    ensures i == i'
  {
    var key := i + [':'] + tail;
    assert key[|i'|] == ':';
    assert forall k :: |i| < k < |key| ==> key[k] == tail[k - |i| - 1] && tail[k - |i| - 1] in tail;
    assert key[..|i|] == i && key[..|i'|] == i';
  }

  lemma FormatIntColonFree(n: int)
    ensures ':' !in FormatInt(n)
  {}
}
