/**
 * The text the generators emit: disk numbers rendered in decimal (string
 * concatenation of an integer in both JavaScript and Java) and the
 * "Move disk k from X to Y" line shared by the optimised Java solver and the
 * page's move list.
 */
module Text {
  import opened Wrappers
  import opened Hanoi

  predicate IsDigit(c: char)
  {
    '0' <= c <= '9'
  }

  function DigitChar(d: nat): (c: char)
    requires d < 10
    ensures IsDigit(c)
  {
    ['0', '1', '2', '3', '4', '5', '6', '7', '8', '9'][d]
  }

  function DigitValue(c: char): (d: nat)
    requires IsDigit(c)
    ensures d < 10
  {
    c as int - '0' as int
  }

  /** The decimal rendering of k, most significant digit first, without leading zeros. */
  function DecimalString(k: nat): (s: string)
    ensures |s| >= 1
    ensures forall i :: 0 <= i < |s| ==> IsDigit(s[i])
    ensures k >= 10 ==> s[0] != '0'
    decreases k
  {
    if k < 10 then [DigitChar(k)] else DecimalString(k / 10) + [DigitChar(k % 10)]
  }

  /** The value of a string of decimal digits. */
  function ParseDecimal(s: string): (k: nat)
    requires forall i :: 0 <= i < |s| ==> IsDigit(s[i])
    decreases |s|
  {
    if s == [] then 0 else 10 * ParseDecimal(s[..|s| - 1]) + DigitValue(s[|s| - 1])
  }

  lemma DigitRoundTrip(d: nat)
    requires d < 10
    ensures DigitValue(DigitChar(d)) == d
  {
  }

  /** Reading the decimal rendering back gives the number. */
  lemma {:induction false} DecimalRoundTrip(k: nat)
    ensures ParseDecimal(DecimalString(k)) == k
    decreases k
  {
    var s := DecimalString(k);
    if k < 10 {
      DigitRoundTrip(k);
      assert s[..|s| - 1] == [];
    } else {
      DecimalRoundTrip(k / 10);
      DigitRoundTrip(k % 10);
      assert s[..|s| - 1] == DecimalString(k / 10);
    }
  }

  /** A decimal numeral as rendered: at least one digit and no leading zero. */
  predicate Canonical(s: string)
  {
    |s| >= 1 && (forall i :: 0 <= i < |s| ==> IsDigit(s[i])) && (|s| >= 2 ==> s[0] != '0')
  }

  lemma {:induction false} LeadingDigitCounts(s: string)
    requires |s| >= 1 && forall i :: 0 <= i < |s| ==> IsDigit(s[i])
    requires s[0] != '0'
    ensures ParseDecimal(s) >= 1
    decreases |s|
  {
    if |s| >= 2 {
      LeadingDigitCounts(s[..|s| - 1]);
    }
  }

  /** Every canonical numeral is the rendering of its value, so the rendering is onto them. */
  lemma {:induction false} CanonicalDecimal(s: string)
    requires Canonical(s)
    ensures DecimalString(ParseDecimal(s)) == s
    decreases |s|
  {
    var last := s[|s| - 1];
    var init := s[..|s| - 1];
    if |s| == 1 {
      assert DigitChar(DigitValue(last)) == last;
      assert s == [last];
    } else {
      CanonicalDecimal(init);
      LeadingDigitCounts(init);
      var k := ParseDecimal(s);
      assert k / 10 == ParseDecimal(init) && k % 10 == DigitValue(last);
      assert DigitChar(DigitValue(last)) == last;
      assert s == init + [last];
    }
  }

  /** String.prototype.toUpperCase on the ASCII letters; other characters are kept. */
  function Upper(c: char): (u: char)
    ensures 'a' <= c <= 'z' ==> 'A' <= u <= 'Z' && u as int == c as int - 32
    ensures !('a' <= c <= 'z') ==> u == c
  {
    if 'a' <= c <= 'z' then (c as int - 32) as char else c
  }

  /** An integer as string concatenation renders it: a minus sign before negative values. */
  function IntString(k: int): (s: string)
    ensures k >= 0 ==> s == DecimalString(k)
  {
    if k < 0 then "-" + DecimalString(-k) else DecimalString(k)
  }

  /** "Move disk k from X to Y". */
  function Describe(disk: int, from: Label, to: Label): (s: string)
  {
    "Move disk " + (IntString(disk) + (" from " + ([from] + (" to " + [to]))))
  }

  /** The number of leading decimal digits of s. */
  function DigitRun(s: string): (k: nat)
    ensures k <= |s|
    ensures forall i :: 0 <= i < k ==> IsDigit(s[i])
    ensures k < |s| ==> !IsDigit(s[k])
  {
    if s == [] || !IsDigit(s[0]) then 0 else 1 + DigitRun(s[1..])
  }

  /** What follows prefix in s, or None when s does not start with prefix. */
  function After(prefix: string, s: string): (r: Option<string>)
    ensures r.Some? ==> s == prefix + r.value
  {
    if |s| >= |prefix| && s[..|prefix|] == prefix then
      assert s == s[..|prefix|] + s[|prefix|..];
      Some(s[|prefix|..])
    else None
  }

  lemma AfterConcat(prefix: string, s: string)
    ensures After(prefix, prefix + s) == Some(s)
  {
    assert (prefix + s)[..|prefix|] == prefix;
    assert (prefix + s)[|prefix|..] == s;
  }

  /** Reads a "Move disk k from X to Y" line back into its move; None when s has another form. */
  function ParseDescription(s: string): (r: Option<Move>)
    ensures r.Some? ==> r.value.disk >= 0
  {
    match After("Move disk ", s)
    case None => None
    case Some(rest) =>
      var k := DigitRun(rest);
      if k == 0 || (k >= 2 && rest[0] == '0') then None
      else
        match After(" from ", rest[k..])
        case None => None
        case Some(r2) =>
          if |r2| == 0 then None
          else
            match After(" to ", r2[1..])
            case None => None
            case Some(r3) =>
              if |r3| != 1 then None
              else Some(Move(ParseDecimal(rest[..k]), r2[0], r3[0]))
  }

  /** The line names its move unambiguously: parsing it gives back the disk and both labels. */
  lemma DescribeRoundTrip(disk: int, from: Label, to: Label)
    requires disk >= 0
    ensures ParseDescription(Describe(disk, from, to)) == Some(Move(disk, from, to))
  {
    var digits := DecimalString(disk);
    var r3 := [to];
    var r2 := [from] + (" to " + r3);
    var r1 := " from " + r2;
    var rest := digits + r1;
    AfterConcat("Move disk ", rest);
    DigitRunStops(digits, r1);
    assert rest[..|digits|] == digits;
    assert rest[|digits|..] == r1;
    AfterConcat(" from ", r2);
    assert r2[1..] == " to " + r3;
    AfterConcat(" to ", r3);
    DecimalRoundTrip(disk);
  }

  /** Only such lines parse: whatever parses is the description of the move it gives. */
  lemma ParseIsExact(s: string)
    requires ParseDescription(s).Some?
    ensures s == Describe(ParseDescription(s).value.disk, ParseDescription(s).value.from, ParseDescription(s).value.to)
  {
    var rest := After("Move disk ", s).value;
    var k := DigitRun(rest);
    var r2 := After(" from ", rest[k..]).value;
    var r3 := After(" to ", r2[1..]).value;
    var m := ParseDescription(s).value;
    CanonicalDecimal(rest[..k]);
    assert r3 == [m.to];
    assert r2 == [m.from] + r2[1..];
    assert rest == rest[..k] + rest[k..];
    assert rest[..k] == DecimalString(m.disk);
  }

  /** A string of digits is one run. */
  lemma {:induction false} DigitRunStopsAtEnd(digits: string)
    requires forall i :: 0 <= i < |digits| ==> IsDigit(digits[i])
    ensures DigitRun(digits) == |digits|
    decreases |digits|
  {
    if digits != [] {
      DigitRunStopsAtEnd(digits[1..]);
    }
  }

  /** A run of digits followed by a non-digit is counted exactly. */
  lemma {:induction false} DigitRunStops(digits: string, tail: string)
    requires forall i :: 0 <= i < |digits| ==> IsDigit(digits[i])
    requires |tail| > 0 && !IsDigit(tail[0])
    ensures DigitRun(digits + tail) == |digits|
    decreases |digits|
  {
    if digits == [] {
      assert digits + tail == tail;
    } else {
      assert (digits + tail)[1..] == digits[1..] + tail;
      DigitRunStops(digits[1..], tail);
    }
  }
}
