/** Canonical UUID texts (internal/domain/id.go): 32 hexadecimal digits in five groups. */
module Identifiers {
  import opened Prelude

  const DIGITS := "0123456789abcdef"

  predicate IsHex(c: char) {
    '0' <= c <= '9' || 'a' <= c <= 'f' || 'A' <= c <= 'F'
  }

  function Digit(c: char): (d: nat)
    requires IsHex(c)
    ensures d < 16
  {
    if '0' <= c <= '9' then c as int - '0' as int
    else if 'a' <= c <= 'f' then c as int - 'a' as int + 10
    else c as int - 'A' as int + 10
  }

  /** The letter of a digit as it is rendered. */
  function LowerHex(c: char): char {
    if IsHex(c) then DIGITS[Digit(c)] else c
  }

  function LowerHexes(s: string): (r: string)
    ensures |r| == |s| && forall i :: 0 <= i < |s| ==> r[i] == LowerHex(s[i])
  {
    seq(|s|, i requires 0 <= i < |s| => LowerHex(s[i]))
  }

  predicate AllHex(s: string) {
    forall i :: 0 <= i < |s| ==> IsHex(s[i])
  }

  /** hex.Decode, as one number. */
  function Value(s: string): nat
    requires AllHex(s)
  {
    if s == "" then 0 else 16 * Value(s[..|s| - 1]) + Digit(s[|s| - 1])
  }

  /** hex.Encode of a number of that many digits. */
  function Encode(n: nat, digits: nat): string {
    if digits == 0 then "" else Encode(n / 16, digits - 1) + [DIGITS[n % 16]]
  }

  function Pow16(n: nat): (r: nat)
    ensures r >= 1
  {
    if n == 0 then 1 else 16 * Pow16(n - 1)
  }

  // ---------- digits and numbers ----------

  lemma DigitIsRendered(d: nat)
    requires d < 16
    ensures IsHex(DIGITS[d]) && Digit(DIGITS[d]) == d
  {
  }

  lemma {:induction false} EncodeIsHex(n: nat, digits: nat)
    requires n < Pow16(digits)
    ensures |Encode(n, digits)| == digits && AllHex(Encode(n, digits)) && Value(Encode(n, digits)) == n
  {
    hide IsHex;
    hide Digit;
    if digits == 0 {
    } else {
      EncodeIsHex(n / 16, digits - 1);
      DigitIsRendered(n % 16);
      var s := Encode(n, digits);
      assert s[..|s| - 1] == Encode(n / 16, digits - 1);
    }
  }

  lemma {:induction false} EncodeOfValue(s: string)
    requires AllHex(s)
    ensures Value(s) < Pow16(|s|) && Encode(Value(s), |s|) == LowerHexes(s)
  {
    if s == "" {
    } else {
      var front, last := s[..|s| - 1], s[|s| - 1];
      EncodeOfValue(front);
      assert Value(s) / 16 == Value(front) && Value(s) % 16 == Digit(last);
      assert LowerHexes(s) == LowerHexes(front) + [LowerHex(last)];
    }
  }

  // ---------- groups ----------

  predicate Grouped(t: string) {
    |t| == 36 && t[8] == '-' && t[13] == '-' && t[18] == '-' && t[23] == '-'
  }

  /** How many hyphens come before a digit. */
  function Hyphens(digit: nat): nat {
    if digit < 8 then 0 else if digit < 12 then 1 else if digit < 16 then 2 else if digit < 20 then 3 else 4
  }

  /** The digits without the hyphens. */
  function Compact(t: string): (s: string)
    requires Grouped(t)
    ensures |s| == 32 && forall i :: 0 <= i < 32 ==> s[i] == t[i + Hyphens(i)]
  {
    t[..8] + t[9..13] + t[14..18] + t[19..23] + t[24..]
  }

  function Dashed(s: string): (t: string)
    requires |s| == 32
    ensures Grouped(t) && forall i :: 0 <= i < 32 ==> t[i + Hyphens(i)] == s[i]
  {
    s[..8] + "-" + s[8..12] + "-" + s[12..16] + "-" + s[16..20] + "-" + s[20..]
  }

  // ---------- ParseID and String ----------

  function ParseID(t: string): (r: Result<Id>)
    ensures if r.Ok? then r.value != NO_ID else r.code == INVALID_ID
  {
    if !Grouped(t) then Fail(INVALID_ID)
    else if !AllHex(Compact(t)) || Value(Compact(t)) == NO_ID then Fail(INVALID_ID)
    else Ok(Value(Compact(t)))
  }

  /** ID.String. */
  function Render(id: Id): (t: string)
    requires id < Pow16(32)
    ensures |t| == 36
  {
    EncodeIsHex(id, 32);
    Dashed(Encode(id, 32))
  }

  lemma {:induction false} ZeroIsAllZeros(s: string)
    requires AllHex(s)
    ensures Value(s) == 0 <==> forall i :: 0 <= i < |s| ==> s[i] == '0'
  {
    if s == "" {
    } else {
      ZeroIsAllZeros(s[..|s| - 1]);
      assert forall i :: 0 <= i < |s| - 1 ==> s[i] == s[..|s| - 1][i];
    }
  }

  predicate HyphenAt(i: int) { i in {8, 13, 18, 23} }

  /** A position that is not a hyphen's is that of one digit. */
  lemma DigitAt(i: nat) returns (digit: nat)
    requires i < 36 && !HyphenAt(i)
    ensures digit < 32 && digit + Hyphens(digit) == i
  {
    digit := i - (if i < 8 then 0 else if i < 13 then 1 else if i < 18 then 2 else if i < 23 then 3 else 4);
  }

  /**
   * A text is accepted exactly if it has 36 characters, hyphens at four places and hexadecimal digits of either case
   * at all others, not all of them zero.
   */
  lemma ParseAccepts(t: string)
    ensures ParseID(t).Ok? <==>
      && |t| == 36
      && (forall i :: 0 <= i < 36 ==>
        if i in {8, 13, 18, 23} then t[i] == '-'
        else '0' <= t[i] <= '9' || 'a' <= t[i] <= 'f' || 'A' <= t[i] <= 'F')
      && (exists i :: 0 <= i < 36 && i !in {8, 13, 18, 23} && t[i] != '0')
  {
    if Grouped(t) {
      var s := Compact(t);
      if AllHex(s) {
        ZeroIsAllZeros(s);
      }
      forall i | 0 <= i < 36 && !HyphenAt(i) ensures exists d :: 0 <= d < 32 && s[d] == t[i] {
        var d := DigitAt(i);
      }
      assert forall d :: 0 <= d < 32 ==> s[d] == t[d + Hyphens(d)] && !HyphenAt(d + Hyphens(d));
    }
  }

  /** Rendering is undone by parsing, for every identifier but the all-zero one. */
  lemma ParseRendered(id: Id)
    requires id < Pow16(32)
    ensures ParseID(Render(id)) == if id == NO_ID then Fail(INVALID_ID) else Ok(id)
  {
    EncodeIsHex(id, 32);
    assert Compact(Render(id)) == Encode(id, 32);
  }

  /** What was parsed is rendered as the same text in lower case. */
  lemma RenderParsed(t: string)
    requires ParseID(t).Ok?
    ensures ParseID(t).value < Pow16(32) && Render(ParseID(t).value) == LowerHexes(t)
  {
    var s := Compact(t);
    EncodeOfValue(s);
    LowerIsDashed(t);
  }

  lemma LowerIsDashed(t: string)
    requires Grouped(t)
    ensures Dashed(LowerHexes(Compact(t))) == LowerHexes(t)
  {
    var s := Compact(t);
    var lower := Dashed(LowerHexes(s));
    forall i | 0 <= i < 36 ensures lower[i] == LowerHex(t[i]) {
      if !HyphenAt(i) {
        var digit := DigitAt(i);
        assert lower[digit + Hyphens(digit)] == LowerHexes(s)[digit];
      }
    }
  }

  /** Two texts name one identifier exactly if they differ in the case of letters only. */
  lemma SameIdentifier(t: string, u: string)
    requires ParseID(t).Ok? && ParseID(u).Ok?
    ensures ParseID(t) == ParseID(u) <==> LowerHexes(t) == LowerHexes(u)
  {
    RenderParsed(t);
    RenderParsed(u);
    ParseRendered(ParseID(t).value);
    ParseRendered(ParseID(u).value);
  }
}
