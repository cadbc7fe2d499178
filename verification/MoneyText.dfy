/** The decimal reading and printing of amounts (ParseMoney and String in internal/domain/money.go). */
module MoneyText {
  import opened Prelude
  import opened Money

  // ---------- what a text means, independently of the parser ----------

  predicate IsDigit(c: char) { '0' <= c <= '9' }

  predicate AllDigits(s: string) {
    forall i :: 0 <= i < |s| ==> IsDigit(s[i])
  }

  predicate Digits(s: string) { s != "" && AllDigits(s) }

  function DigitValue(c: char): nat
    requires IsDigit(c)
  {
    c as int - '0' as int
  }

  /** The number written by a string of decimal digits. */
  function Val(s: string): nat
    requires AllDigits(s)
  {
    if s == "" then 0 else 10 * Val(s[..|s| - 1]) + DigitValue(s[|s| - 1])
  }

  /** The one place where a decimal point splits s into two runs of digits. */
  predicate PointAt(s: string, i: int) {
    0 <= i < |s| && s[i] == '.' && Digits(s[..i]) && Digits(s[i + 1..])
  }

  /** A fraction of one or two digits, in hundredths. */
  function Hundredths(f: string): nat
    requires Digits(f) && |f| <= 2
  {
    if |f| == 1 then 10 * Val(f) else Val(f)
  }

  /** s is an unsigned amount with at most two decimals that is worth v minor units. */
  ghost predicate Denotes(s: string, v: nat) {
    || (Digits(s) && v == 100 * Val(s))
    || (exists i :: PointAt(s, i) && |s| - i - 1 <= 2 && v == 100 * Val(s[..i]) + Hundredths(s[i + 1..]))
  }

  ghost predicate TooFine(s: string) {
    exists i :: PointAt(s, i) && |s| - i - 1 > 2
  }

  /** The printed form: two decimals, and no leading zero in front of another whole digit. */
  ghost predicate Canonical(s: string, v: nat) {
    && |s| >= 4 && PointAt(s, |s| - 3)
    && v == 100 * Val(s[..|s| - 3]) + Val(s[|s| - 2..])
    && (|s| > 4 ==> s[0] != '0')
  }

  lemma NoEarlierPoint(s: string, i: int, j: int)
    requires PointAt(s, i) && 0 <= j < i
    ensures s[j] != '.'
  {
    assert IsDigit(s[..i][j]);
  }

  lemma NoLaterPoint(s: string, i: int, j: int)
    requires PointAt(s, i) && i < j < |s|
    ensures s[j] != '.'
  {
    assert IsDigit(s[i + 1..][j - i - 1]);
  }

  lemma PointUnique(s: string, i: int, j: int)
    requires PointAt(s, i) && 0 <= j < |s| && s[j] == '.'
    ensures i == j
  {
    if j < i {
      NoEarlierPoint(s, i, j);
    } else if i < j {
      NoLaterPoint(s, i, j);
    }
  }

  /** A text has at most one value. */
  lemma DenotesUnique(s: string, v: nat, w: nat)
    requires Denotes(s, v) && Denotes(s, w)
    ensures v == w
  {
    forall i, j | PointAt(s, i) && PointAt(s, j)
      ensures i == j
    {
      PointUnique(s, i, j);
    }
    if Digits(s) {
      forall i | 0 <= i < |s| ensures s[i] != '.' {}
    }
  }

  // ---------- facts about digit strings ----------

  lemma {:induction false} ValAppend(a: string, b: string)
    requires AllDigits(a) && AllDigits(b)
    ensures AllDigits(a + b) && Val(a + b) == Pow10(|b|) * Val(a) + Val(b)
  {
    hide IsDigit;
    if b == "" {
      assert a + b == a;
    } else {
      var c := b[..|b| - 1];
      ValAppend(a, c);
      assert (a + b)[..|a + b| - 1] == a + c;
      TenTimes(Pow10(|c|), Val(a));
    }
  }

  lemma TenTimes(p: nat, x: nat)
    ensures 10 * (p * x) == (10 * p) * x
  {}

  function Pow10(n: nat): nat {
    if n == 0 then 1 else 10 * Pow10(n - 1)
  }

  lemma {:induction false} ValBound(s: string)
    requires AllDigits(s)
    ensures Val(s) < Pow10(|s|)
  {
    if s != "" {
      ValBound(s[..|s| - 1]);
    }
  }

  /** strings.TrimLeft(s, "0"). */
  function TrimZeros(s: string): string {
    if s != "" && s[0] == '0' then TrimZeros(s[1..]) else s
  }

  lemma {:induction false} TrimKeepsValue(s: string)
    requires AllDigits(s)
    ensures AllDigits(TrimZeros(s)) && Val(TrimZeros(s)) == Val(s)
    ensures TrimZeros(s) == "" <==> Val(s) == 0
  {
    if s != "" && s[0] == '0' {
      TrimKeepsValue(s[1..]);
      assert s == "0" + s[1..];
      ValAppend("0", s[1..]);
    } else if s != "" {
      assert s == s[..1] + s[1..];
      ValAppend(s[..1], s[1..]);
      assert s[..1] == [s[0]] && s[..1][..0] == "";
      Pow10Positive(|s| - 1);
      assert Pow10(|s| - 1) * Val(s[..1]) >= 1 by { MulPositive(Pow10(|s| - 1), Val(s[..1])); }
    }
  }

  lemma {:induction false} Pow10Positive(n: nat)
    ensures Pow10(n) >= 1
  {
    if n > 0 { Pow10Positive(n - 1); }
  }

  lemma MulPositive(a: nat, b: nat)
    requires a >= 1 && b >= 1
    ensures a * b >= 1
  {}

  /** Two digit strings without leading zeros that write the same number are the same. */
  lemma {:induction false} ValInjective(s: string, t: string)
    requires Digits(s) && Digits(t) && Val(s) == Val(t)
    requires |s| > 1 ==> s[0] != '0'
    requires |t| > 1 ==> t[0] != '0'
    ensures s == t
  {
    var s', t' := s[..|s| - 1], t[..|t| - 1];
    assert Val(s') == Val(t') && DigitValue(s[|s| - 1]) == DigitValue(t[|t| - 1]);
    assert s[|s| - 1] == t[|t| - 1];
    if s' == "" || t' == "" {
      if s' != "" { LeadingDigit(s'); }
      if t' != "" { LeadingDigit(t'); }
    } else {
      ValInjective(s', t');
    }
    assert s == s' + [s[|s| - 1]] && t == t' + [t[|t| - 1]];
  }

  lemma LeadingDigit(s: string)
    requires Digits(s) && s[0] != '0'
    ensures Val(s) > 0
  {
    TrimKeepsValue(s);
  }

  // ---------- library calls of the source ----------

  /** strings.Split(s, "."). */
  function Split(s: string): (parts: seq<string>)
    ensures |parts| >= 1
  {
    if s == "" then [""]
    else
      var rest := Split(s[1..]);
      if s[0] == '.' then [""] + rest else [[s[0]] + rest[0]] + rest[1..]
  }

  predicate Dotless(s: string) { '.' !in s }

  function Join(parts: seq<string>): string
    requires |parts| >= 1
  {
    if |parts| == 1 then parts[0] else parts[0] + "." + Join(parts[1..])
  }

  lemma {:induction false} SplitParts(s: string)
    ensures Join(Split(s)) == s
    ensures forall p :: p in Split(s) ==> Dotless(p)
  {
    if s != "" {
      SplitParts(s[1..]);
      var rest := Split(s[1..]);
      if s[0] == '.' {
        assert Split(s)[1..] == rest;
      } else {
        var h := [s[0]] + rest[0];
        assert Split(s)[1..] == rest[1..];
        assert Dotless(rest[0]) && Dotless(h);
        assert Join(Split(s)) == [s[0]] + Join(rest);
      }
    }
  }

  /** How the parts of a split text lie in it. */
  lemma SplitJoins(s: string)
    ensures forall p :: p in Split(s) ==> Dotless(p)
    ensures |Split(s)| == 1 ==> Split(s)[0] == s
    ensures |Split(s)| == 2 ==> s == Split(s)[0] + "." + Split(s)[1]
    ensures |Split(s)| > 1 ==> |Split(s)[0]| < |s| && s[|Split(s)[0]|] == '.' && s[..|Split(s)[0]|] == Split(s)[0]
    ensures |Split(s)| > 2 ==> !Dotless(s[|Split(s)[0]| + 1..])
  {
    SplitParts(s);
    var parts := Split(s);
    if |parts| > 1 {
      var tail := Join(parts[1..]);
      assert s == parts[0] + "." + tail;
      assert s[|parts[0]| + 1..] == tail;
      if |parts| > 2 {
        assert tail == parts[1] + "." + Join(parts[1..][1..]);
        assert tail[|parts[1]|] == '.';
      }
    }
  }

  /** strconv.FormatInt(n, 10) for a non-negative n. */
  function Decimal(n: nat): (s: string)
    ensures Digits(s) && Val(s) == n && (|s| > 1 ==> s[0] != '0')
  {
    var last := [(n % 10 + '0' as int) as char];
    if n < 10 then
      assert last[..0] == "";
      last
    else
      var s := Decimal(n / 10) + last;
      assert s[..|s| - 1] == Decimal(n / 10);
      assert |Decimal(n / 10)| == 1 ==> Val(Decimal(n / 10)[..0]) == 0;
      s
  }

  /** strconv.ParseInt(s, 10, 64) on a string of digits: None is the range error. */
  function ParseInt(s: string): (r: Option<int64>)
    requires AllDigits(s)
  {
    if s == "" || Val(s) > MAX_INT64 then None else Some(Val(s))
  }

  // ---------- the two methods ----------

  /**
   * ParseMoney accepts exactly the texts that denote an amount in range, returns exactly that
   * amount, and names the reason for every refusal.
   */
  method ParseMoney(amount: string, currency: Currency) returns (r: Result<Money>)
    ensures !ValidCurrency(currency) ==> r == Fail(INVALID_CURRENCY)
    ensures ValidCurrency(currency) ==> (r.Ok? <==> exists v: nat :: Denotes(amount, v) && v <= MAX_INT64)
    ensures r.Ok? ==> r.value.minor >= 0 && Denotes(amount, r.value.minor) && r.value.currency == currency
    ensures ValidCurrency(currency) ==> (r == Fail(OVERFLOW) <==> exists v: nat :: Denotes(amount, v) && v > MAX_INT64)
    ensures ValidCurrency(currency) ==> (r == Fail(INVALID_SCALE) <==> TooFine(amount))
    ensures ValidCurrency(currency) && r.Fail? ==> r.code in {OVERFLOW, INVALID_SCALE, INVALID_AMOUNT}
  {
    hide Val;
    hide Split;
    if !ValidCurrency(currency) {
      return Fail(INVALID_CURRENCY);
    }
    if amount == "" {
      return Fail(INVALID_AMOUNT);
    }
    var parts := Split(amount);
    SplitJoins(amount);
    if |parts| > 2 || parts[0] == "" {
      SplitRefused(amount);
      return Fail(INVALID_AMOUNT);
    }
    var k := 0;
    while k < |parts|
      invariant 0 <= k <= |parts|
      invariant forall j :: 0 <= j < k ==> Digits(parts[j])
    {
      var part := parts[k];
      if part == "" {
        SplitRefused(amount);
        return Fail(INVALID_AMOUNT);
      }
      var i := 0;
      while i < |part|
        invariant 0 <= i <= |part|
        invariant forall j :: 0 <= j < i ==> IsDigit(part[j])
      {
        if part[i] < '0' || part[i] > '9' {
          assert !Digits(parts[k]);
          SplitRefused(amount);
          return Fail(INVALID_AMOUNT);
        }
        i := i + 1;
      }
      k := k + 1;
    }
    SplitAccepted(amount);
    var fraction := "00";
    ZeroFraction();
    if |parts| == 2 {
      if |parts[1]| > 2 {
        return Fail(INVALID_SCALE);
      }
      fraction := parts[1];
      if |fraction| == 1 {
        fraction := fraction + "0";
        TenthsFraction(parts[1]);
      }
    }
    var digits := TrimZeros(parts[0] + fraction);
    ghost var v := 100 * Val(parts[0]) + Val(fraction);
    JoinedValue(parts[0], fraction);
    assert Denotes(amount, v);
    OnlyValue(amount, v);
    var minor := ParseInt(digits);
    if digits == "" {
      return NewMoney(0, currency);
    }
    if minor == None {
      return Fail(OVERFLOW);
    }
    return NewMoney(minor.value, currency);
  }

  lemma {:induction false} SplitDotless(s: string)
    requires Dotless(s)
    ensures Split(s) == [s]
  {
    if s != "" {
      assert Dotless(s[1..]);
      SplitDotless(s[1..]);
      assert s == [s[0]] + s[1..];
    }
  }

  lemma {:induction false} SplitAtDot(s: string, i: int)
    requires 0 <= i < |s| && s[i] == '.' && Dotless(s[..i])
    ensures Split(s) == [s[..i]] + Split(s[i + 1..])
  {
    if i > 0 {
      var t := s[1..];
      assert t[..i - 1] == s[..i][1..];
      assert s[..i][0] == s[0] != '.';
      SplitAtDot(t, i - 1);
      assert t[i - 1 + 1..] == s[i + 1..];
      assert s[..i] == [s[0]] + t[..i - 1];
    }
  }

  lemma SplitAmount(s: string)
    ensures Digits(s) ==> Split(s) == [s]
    ensures forall i :: PointAt(s, i) ==> Split(s) == [s[..i], s[i + 1..]]
  {
    if Digits(s) {
      SplitDotless(s);
    }
    forall i | PointAt(s, i) ensures Split(s) == [s[..i], s[i + 1..]] {
      assert Dotless(s[..i]) && Dotless(s[i + 1..]);
      SplitAtDot(s, i);
      SplitDotless(s[i + 1..]);
    }
  }

  lemma OnlyValue(s: string, v: nat)
    requires Denotes(s, v)
    ensures forall w: nat :: Denotes(s, w) ==> w == v
  {
    forall w: nat | Denotes(s, w) ensures w == v { DenotesUnique(s, v, w); }
  }

  lemma ZeroFraction()
    ensures Digits("00") && Val("00") == 0
  {
    assert "00"[..1] == "0" && "0"[..0] == "";
  }

  lemma TenthsFraction(f: string)
    requires Digits(f)
    ensures Digits(f + "0") && Val(f + "0") == 10 * Val(f)
  {
    assert (f + "0")[..|f|] == f;
  }

  lemma LeadingZero(s: string)
    requires Digits(s)
    ensures Digits("0" + s) && Val("0" + s) == Val(s)
  {
    ValAppend("0", s);
    assert "0"[..0] == "";
  }

  lemma JoinedValue(whole: string, fraction: string)
    requires Digits(whole) && Digits(fraction) && |fraction| == 2
    ensures AllDigits(TrimZeros(whole + fraction)) &&
      Val(TrimZeros(whole + fraction)) == 100 * Val(whole) + Val(fraction)
    ensures TrimZeros(whole + fraction) == "" <==> 100 * Val(whole) + Val(fraction) == 0
  {
    ValAppend(whole, fraction);
    TrimKeepsValue(whole + fraction);
    assert Pow10(2) == 100 by { assert Pow10(1) == 10; }
  }

  /** A text whose parts are not one or two runs of digits denotes nothing. */
  lemma SplitRefused(s: string)
    requires |Split(s)| > 2 || exists j :: 0 <= j < |Split(s)| && !Digits(Split(s)[j])
    ensures forall v: nat :: !Denotes(s, v)
    ensures !TooFine(s)
  {
    SplitAmount(s);
    assert forall i :: PointAt(s, i) ==> |Split(s)| == 2 && Digits(Split(s)[0]) && Digits(Split(s)[1]);
  }

  /** The split of an accepted text is where its decimal point is. */
  lemma SplitAccepted(s: string)
    requires |Split(s)| <= 2 && forall j :: 0 <= j < |Split(s)| ==> Digits(Split(s)[j])
    ensures |Split(s)| == 1 ==> Digits(s) && Split(s)[0] == s && !TooFine(s)
    ensures |Split(s)| == 2 ==> var i := |Split(s)[0]|;
      PointAt(s, i) && s[..i] == Split(s)[0] && s[i + 1..] == Split(s)[1] && (TooFine(s) <==> |s| - i - 1 > 2)
    ensures TooFine(s) ==> forall v: nat :: !Denotes(s, v)
  {
    SplitAmount(s);
    SplitJoins(s);
    if |Split(s)| == 2 {
      var i := |Split(s)[0]|;
      assert s[i + 1..] == Split(s)[1];
      assert PointAt(s, i);
      forall j | PointAt(s, j) ensures j == i { PointUnique(s, j, i); }
    }
  }

  lemma PointParts(whole: string, fraction: string)
    ensures var body := whole + "." + fraction;
      && |body| == |whole| + 1 + |fraction| && body[|whole|] == '.'
      && body[..|whole|] == whole && body[|whole| + 1..] == fraction
  {
  }

  lemma SplitValue(s: string)
    requires Digits(s) && |s| >= 3
    ensures Digits(s[..|s| - 2]) && Digits(s[|s| - 2..]) && Val(s) == 100 * Val(s[..|s| - 2]) + Val(s[|s| - 2..])
  {
    assert Pow10(2) == 100 by { assert Pow10(1) == 10; }
    hide Val;
    hide Pow10;
    var whole, fraction := s[..|s| - 2], s[|s| - 2..];
    assert s == whole + fraction;
    ValAppend(whole, fraction);
  }

  /** A point before the last two of at least three digits makes a canonical text. */
  lemma Punctuated(s: string)
    requires Digits(s) && |s| >= 3 && (|s| > 3 ==> s[0] != '0')
    ensures Canonical(s[..|s| - 2] + "." + s[|s| - 2..], Val(s))
  {
    hide Val;
    var whole, fraction := s[..|s| - 2], s[|s| - 2..];
    SplitValue(s);
    PointParts(whole, fraction);
  }

  /** String prints the canonical text of a non-negative amount, and "-" before it otherwise. */
  method Print(m: Money) returns (text: string)
    ensures !m.Valid() ==> text == "<invalid money>"
    ensures m.Valid() && m.minor >= 0 ==> Canonical(text, m.minor)
    ensures m.Valid() && m.minor < 0 ==> text != "" && text[0] == '-' && Canonical(text[1..], 0 - m.minor)
  {
    hide Val;
    hide Decimal;
    if !m.Valid() {
      return "<invalid money>";
    }
    ghost var n := if m.minor < 0 then 0 - m.minor else m.minor;
    var s := if m.minor < 0 then "-" + Decimal(0 - m.minor) else Decimal(m.minor);
    var prefix := "";
    if s[0] == '-' {
      prefix, s := "-", s[1..];
    }
    assert s == Decimal(n);
    while |s| < 3
      invariant Digits(s) && Val(s) == n
      invariant |s| > 3 ==> s[0] != '0'
      decreases 3 - |s|
    {
      LeadingZero(s);
      s := "0" + s;
    }
    var whole, fraction := s[..|s| - 2], s[|s| - 2..];
    ghost var body := whole + "." + fraction;
    Punctuated(s);
    text := prefix + whole + "." + fraction;
    if m.minor < 0 {
      assert text == "-" + body;
      assert text[1..] == body;
    } else {
      assert text == body;
    }
  }

  lemma CanonicalDenotes(s: string, v: nat)
    requires Canonical(s, v)
    ensures Denotes(s, v)
  {
    assert s[|s| - 3 + 1..] == s[|s| - 2..];
    assert PointAt(s, |s| - 3);
  }

  /** There is one canonical text for each amount. */
  lemma CanonicalUnique(s: string, t: string, v: nat)
    requires Canonical(s, v) && Canonical(t, v)
    ensures s == t
  {
    var ws, fs := s[..|s| - 3], s[|s| - 2..];
    var wt, ft := t[..|t| - 3], t[|t| - 2..];
    assert s[|s| - 3 + 1..] == fs && t[|t| - 3 + 1..] == ft;
    assert Pow10(2) == 100 by { assert Pow10(1) == 10; }
    ValBound(fs);
    ValBound(ft);
    assert Val(ws) == Val(wt) && Val(fs) == Val(ft);
    ValInjective(ws, wt);
    assert fs[..1][..0] == "" && ft[..1][..0] == "";
    assert Val(fs) == 10 * DigitValue(fs[0]) + DigitValue(fs[1]);
    assert Val(ft) == 10 * DigitValue(ft[0]) + DigitValue(ft[1]);
    assert fs[0] == ft[0] && fs[1] == ft[1];
    assert s == ws + "." + fs && t == wt + "." + ft;
  }

  /** Reading back a printed non-negative amount gives the amount. */
  method ReadPrinted(m: Money) returns (r: Result<Money>)
    requires m.Valid() && m.minor >= 0
    ensures r == Ok(m)
  {
    var text := Print(m);
    CanonicalDenotes(text, m.minor);
    r := ParseMoney(text, m.currency);
    DenotesUnique(text, r.value.minor, m.minor);
  }

  /** Printing what was read gives the one canonical text of that amount, whatever the spelling. */
  method Normalize(amount: string, currency: Currency) returns (text: Option<string>)
    requires ValidCurrency(currency)
    ensures text.Some? <==> exists v: nat :: Denotes(amount, v) && v <= MAX_INT64
    ensures text.Some? ==> exists v: nat :: Denotes(amount, v) && Canonical(text.value, v)
  {
    var r := ParseMoney(amount, currency);
    if r.Fail? {
      return None;
    }
    var printed := Print(r.value);
    return Some(printed);
  }
}
