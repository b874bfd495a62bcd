/** Token amounts as text: exact decimal parsing, canonical printing, and why the two undo each other. */
module Amounts {

  import opened Wrappers
  import opened EngineTypes
  import opened Numerals
  import Preflight
  import PoolEvents

  const MAX_DECIMALS := 255

  datatype AmountError = InvalidAmount

  type Parsed = Result<nat, AmountError>

  // ----- text

  predicate IsSpace(c: char) {
    c == ' ' || '\t' <= c <= '\r' || c == '\U{A0}' || c == '\U{1680}' || '\U{2000}' <= c <= '\U{200A}'
    || c == '\U{2028}' || c == '\U{2029}' || c == '\U{202F}' || c == '\U{205F}' || c == '\U{3000}' || c == '\U{FEFF}'
  }

  function TrimStart(s: string): string {
    if s != [] && IsSpace(s[0]) then TrimStart(s[1..]) else s
  }

  function TrimEnd(s: string): string {
    if s != [] && IsSpace(s[|s| - 1]) then TrimEnd(s[..|s| - 1]) else s
  }

  function Trim(s: string): string {
    TrimEnd(TrimStart(s))
  }

  function Zeros(n: nat): (z: string)
    ensures |z| == n && forall i :: 0 <= i < n ==> z[i] == '0'
  {
    seq(n, i => '0')
  }

  /** Without the zeros at its end. */
  function StripZeros(s: string): string {
    if s != [] && s[|s| - 1] == '0' then StripZeros(s[..|s| - 1]) else s
  }

  predicate IsDigits(s: string) {
    AllDigits(s, Ten)
  }

  // ----- parsing

  /** The part before the first point, and the part after it if there is one. */
  function SplitPoint(s: string): (string, Option<string>) {
    if s == [] then ([], None)
    else if s[0] == '.' then ([], Some(s[1..]))
    else
      var (head, tail) := SplitPoint(s[1..]);
      ([s[0]] + head, tail)
  }

  /** A canonical whole part, and a non-empty run of digits after the point if there is a point. */
  function MatchHuman(s: string): Option<(string, string)> {
    var (whole, rest) := SplitPoint(s);
    if !IsDigits(whole) || !Numerals.Canonical(whole) then None
    else if rest.None? then Some((whole, []))
    else if rest.value != [] && IsDigits(rest.value) then Some((whole, rest.value))
    else None
  }

  function Units(whole: string, fraction: string, decimals: nat): nat {
    Value(whole, Ten) * Pow10(decimals) + Value((fraction + Zeros(decimals))[..decimals], Ten)
  }

  function ParseTokenAmount(text: string, decimals: int): Parsed {
    if decimals < 0 || decimals > MAX_DECIMALS then Err(InvalidAmount)
    else
      var parts := MatchHuman(Trim(text));
      if parts.None? || |parts.value.1| > decimals then Err(InvalidAmount)
      else
        var units := Units(parts.value.0, parts.value.1, decimals);
        if units == 0 || units > PoolEvents.MAX_U128 then Err(InvalidAmount) else Ok(units)
  }

  function ParseBaseUnitAmount(text: string): Parsed {
    if text == [] || text[0] == '0' || !IsDigits(text) then Err(InvalidAmount)
    else
      var amount := Value(text, Ten);
      if amount == 0 || amount > PoolEvents.MAX_U128 then Err(InvalidAmount) else Ok(amount)
  }

  // ----- printing

  /** The numeral, with zeros in front up to the given width. */
  function PadStart(s: string, width: nat): (padded: string)
    ensures |padded| >= width
  {
    if |s| >= width then s else Zeros(width - |s|) + s
  }

  function Join(whole: string, fraction: string): string {
    if fraction == [] then whole else whole + "." + fraction
  }

  function FormatTokenAmount(amount: nat, decimals: int): Result<string, AmountError> {
    if decimals < 0 || decimals > MAX_DECIMALS then Err(InvalidAmount)
    else if decimals == 0 then Ok(Print(amount, Ten))
    else
      var padded := PadStart(Print(amount, Ten), decimals + 1);
      var cut := |padded| - decimals;
      Ok(Join(padded[..cut], StripZeros(padded[cut..])))
  }

  // ----- digits and values

  lemma {:induction false} ValueConcat(a: string, b: string)
    ensures Value(a + b, Ten) == Value(a, Ten) * Pow10(|b|) + Value(b, Ten)
  {
    if b == [] {
      assert a + b == a;
    } else {
      var init, last := b[..|b| - 1], b[|b| - 1];
      assert a + b == (a + init) + [last] && b == init + [last];
      ValueConcat(a, init);
      ValueSnoc(a + init, last, Ten);
      ValueSnoc(init, last, Ten);
      Regroup(Value(a, Ten), Pow10(|init|), Value(init, Ten), DigitValue(last));
    }
  }

  lemma Regroup(v: nat, p: nat, w: nat, d: nat)
    ensures (v * p + w) * 10 + d == v * (10 * p) + (w * 10 + d)
  {
  }

  lemma {:induction false} ValueOfZeros(n: nat)
    ensures Value(Zeros(n), Ten) == 0
  {
    if n > 0 {
      ValueOfZeros(n - 1);
      assert Zeros(n)[..n - 1] == Zeros(n - 1);
    }
  }

  lemma {:induction false} ValueBound(s: string)
    requires IsDigits(s)
    ensures Value(s, Ten) < Pow10(|s|)
    ensures Value(s, Ten) == 0 <==> s == Zeros(|s|)
  {
    if s != [] {
      ValueBound(s[..|s| - 1]);
      var c := s[|s| - 1];
      DigitValueInverse(c);
      assert s == s[..|s| - 1] + [c];
      assert s == Zeros(|s|) ==> s[..|s| - 1] == Zeros(|s| - 1);
      assert DigitValue(c) == 0 <==> c == '0';
    }
  }

  lemma PaddedValue(s: string, width: nat)
    requires IsDigits(s)
    ensures Value(PadStart(s, width), Ten) == Value(s, Ten) && IsDigits(PadStart(s, width))
  {
    if |s| < width {
      ValueConcat(Zeros(width - |s|), s);
      ValueOfZeros(width - |s|);
    }
  }

  lemma {:induction false} StripSplits(s: string)
    ensures |StripZeros(s)| <= |s| && s == StripZeros(s) + Zeros(|s| - |StripZeros(s)|)
    ensures StripZeros(s) != [] ==> StripZeros(s)[|StripZeros(s)| - 1] != '0'
    ensures IsDigits(s) ==> IsDigits(StripZeros(s))
  {
    if s != [] && s[|s| - 1] == '0' {
      var init := s[..|s| - 1];
      StripSplits(init);
      assert s == init + ['0'];
      assert Zeros(|init| - |StripZeros(init)|) + ['0'] == Zeros(|s| - |StripZeros(s)|);
    }
  }

  lemma {:induction false} StripExtended(s: string, n: nat)
    ensures StripZeros(s + Zeros(n)) == StripZeros(s)
  {
    if n == 0 {
      assert s + Zeros(n) == s;
    } else {
      assert (s + Zeros(n))[..|s| + n - 1] == s + Zeros(n - 1);
      StripExtended(s, n - 1);
    }
  }

  // ----- reading a printed amount

  lemma NoSpaceNoTrim(s: string)
    requires s != [] && !IsSpace(s[0]) && !IsSpace(s[|s| - 1])
    ensures Trim(s) == s
  {
  }

  lemma {:induction false} SplitJoined(whole: string, fraction: string)
    requires IsDigits(whole)
    ensures SplitPoint(Join(whole, fraction)) == (whole, if fraction == [] then None else Some(fraction))
  {
    if whole == [] {
      if fraction != [] {
        assert ("." + fraction)[1..] == fraction;
      }
    } else {
      SplitJoined(whole[1..], fraction);
      assert Join(whole, fraction)[1..] == Join(whole[1..], fraction);
      assert whole == [whole[0]] + whole[1..];
    }
  }

  lemma MatchJoined(whole: string, fraction: string)
    requires IsDigits(whole) && Numerals.Canonical(whole) && IsDigits(fraction)
    ensures MatchHuman(Trim(Join(whole, fraction))) == Some((whole, fraction))
  {
    SplitJoined(whole, fraction);
    NoSpaceNoTrim(Join(whole, fraction));
  }

  lemma FillFraction(fraction: string, decimals: nat)
    requires |fraction| <= decimals
    ensures (fraction + Zeros(decimals))[..decimals] == fraction + Zeros(decimals - |fraction|)
  {
  }

  /** The exact decimal meaning of the two parts: no rounding takes place. */
  lemma UnitsMeaning(whole: string, fraction: string, decimals: nat)
    requires |fraction| <= decimals
    ensures Units(whole, fraction, decimals) == Value(whole + fraction, Ten) * Pow10(decimals - |fraction|)
    ensures Units(whole, fraction, decimals) == Value(whole + (fraction + Zeros(decimals - |fraction|)), Ten)
  {
    var zeros := Zeros(decimals - |fraction|);
    FillFraction(fraction, decimals);
    ValueConcat(whole, fraction + zeros);
    ValueConcat(whole + fraction, zeros);
    ValueOfZeros(decimals - |fraction|);
    assert (whole + fraction) + zeros == whole + (fraction + zeros);
  }

  lemma PaddedWhole(amount: nat, decimals: nat)
    ensures var padded := PadStart(Print(amount, Ten), decimals + 1);
            var whole := padded[..|padded| - decimals];
            IsDigits(whole) && Numerals.Canonical(whole)
  {
    PrintRead(amount, Ten);
    PaddedValue(Print(amount, Ten), decimals + 1);
  }

  /** How an amount is displayed: its padded numeral, cut before the fraction, without the zeros at the end. */
  lemma FormatParts(amount: nat, decimals: nat)
    requires decimals <= MAX_DECIMALS
    ensures var padded := PadStart(Print(amount, Ten), decimals + 1);
            var cut := |padded| - decimals;
            FormatTokenAmount(amount, decimals) == Ok(Join(padded[..cut], StripZeros(padded[cut..])))
  {
    hide Print;
    if decimals == 0 {
      var text := Print(amount, Ten);
      assert text[..|text|] == text && text[|text|..] == [];
    }
  }

  /** Parsing the printed amount returns the amount, for every amount and every number of decimals. */
  lemma FormatThenParse(amount: nat, decimals: nat)
    requires 0 < amount <= PoolEvents.MAX_U128 && decimals <= MAX_DECIMALS
    ensures FormatTokenAmount(amount, decimals).Ok?
    ensures ParseTokenAmount(FormatTokenAmount(amount, decimals).value, decimals) == Ok(amount)
  {
    hide Value, Print, StripZeros, PadStart, MatchHuman, Trim, Units;
    var padded := PadStart(Print(amount, Ten), decimals + 1);
    PrintRead(amount, Ten);
    PaddedValue(Print(amount, Ten), decimals + 1);
    PaddedWhole(amount, decimals);
    FormatParts(amount, decimals);
    var cut := |padded| - decimals;
    var whole, fraction := padded[..cut], StripZeros(padded[cut..]);
    StripSplits(padded[cut..]);
    MatchJoined(whole, fraction);
    UnitsMeaning(whole, fraction, decimals);
    assert whole + padded[cut..] == padded;
  }

  // ----- printing a parsed amount

  lemma {:induction false} LeadingZeros(s: string) returns (k: nat)
    requires s != [] && IsDigits(s)
    ensures k < |s| && s[..k] == Zeros(k) && Numerals.Canonical(s[k..])
  {
    if s[0] == '0' && |s| > 1 {
      var rest := LeadingZeros(s[1..]);
      k := rest + 1;
      assert s[..k] == [s[0]] + s[1..][..rest];
      assert s[k..] == s[1..][rest..];
    } else {
      k := 0;
      assert s[k..] == s;
    }
  }

  /** A digit string that is no wider than it needs to be is the padded numeral of its value. */
  lemma PaddedUnique(s: string, width: nat)
    requires IsDigits(s) && 0 < width <= |s| && (|s| == width || s[0] != '0')
    ensures PadStart(Print(Value(s, Ten), Ten), width) == s
  {
    hide Value, Print, PadStart, AllDigits, Numerals.Canonical;
    var k := LeadingZeros(s);
    var rest := s[k..];
    assert s == Zeros(k) + rest;
    ValueAfterZeros(k, rest);
    DigitsOfRest(s, k);
    ReadPrint(rest, Ten);
    PadRestores(s, k, width);
  }

  lemma ValueAfterZeros(k: nat, rest: string)
    ensures Value(Zeros(k) + rest, Ten) == Value(rest, Ten)
  {
    hide Value, Pow10;
    ValueConcat(Zeros(k), rest);
    ValueOfZeros(k);
  }

  lemma DigitsOfRest(s: string, k: nat)
    requires IsDigits(s) && k <= |s|
    ensures IsDigits(s[k..])
  {
  }

  /** Padding puts back the zeros that were in front. */
  lemma PadRestores(s: string, k: nat, width: nat)
    requires k < |s| && s == Zeros(k) + s[k..] && 0 < width <= |s| && (|s| == width || s[0] != '0')
    ensures PadStart(s[k..], width) == s
  {
    if k > 0 {
      assert s[0] == Zeros(k)[0];
    } else {
      assert s[0..] == s;
    }
  }

  /** The canonical form of an accepted text: trimmed, and without the zeros at the end of its fraction. */
  function CanonicalText(text: string): string {
    match MatchHuman(Trim(text))
    case None => text
    case Some(parts) => Join(parts.0, StripZeros(parts.1))
  }

  lemma PrintedPadded(whole: string, fraction: string, decimals: nat)
    requires IsDigits(whole) && Numerals.Canonical(whole) && IsDigits(fraction) && |fraction| <= decimals
    ensures PadStart(Print(Units(whole, fraction, decimals), Ten), decimals + 1)
            == whole + (fraction + Zeros(decimals - |fraction|))
  {
    hide Value, Print, StripZeros, Units, PadStart;
    UnitsMeaning(whole, fraction, decimals);
    PaddedUnique(whole + (fraction + Zeros(decimals - |fraction|)), decimals + 1);
  }

  lemma PrintedParts(whole: string, fraction: string, decimals: nat)
    requires IsDigits(whole) && Numerals.Canonical(whole) && IsDigits(fraction)
    requires |fraction| <= decimals <= MAX_DECIMALS
    ensures FormatTokenAmount(Units(whole, fraction, decimals), decimals) == Ok(Join(whole, StripZeros(fraction)))
  {
    hide Value, Print, StripZeros, Units, PadStart, FormatTokenAmount, Join, AllDigits;
    var filled := fraction + Zeros(decimals - |fraction|);
    PrintedPadded(whole, fraction, decimals);
    FormatParts(Units(whole, fraction, decimals), decimals);
    StripExtended(fraction, decimals - |fraction|);
    assert (whole + filled)[..|whole|] == whole && (whole + filled)[|whole|..] == filled;
  }

  /** Printing what was parsed gives the canonical form of the text, and that parses to the same amount. */
  lemma ParseThenFormat(text: string, decimals: int)
    requires ParseTokenAmount(text, decimals).Ok?
    ensures var amount := ParseTokenAmount(text, decimals).value;
            && FormatTokenAmount(amount, decimals) == Ok(CanonicalText(text))
            && ParseTokenAmount(CanonicalText(text), decimals) == Ok(amount)
  {
    hide Value, Print, StripZeros, Units, Trim;
    var parts := MatchHuman(Trim(text)).value;
    PrintedParts(parts.0, parts.1, decimals);
    FormatThenParse(Units(parts.0, parts.1, decimals), decimals);
  }

  /** Two texts denote the same amount exactly when their canonical forms coincide. */
  lemma SameAmountSameText(a: string, b: string, decimals: int)
    requires ParseTokenAmount(a, decimals).Ok? && ParseTokenAmount(b, decimals).Ok?
    ensures ParseTokenAmount(a, decimals) == ParseTokenAmount(b, decimals) <==> CanonicalText(a) == CanonicalText(b)
  {
    ParseThenFormat(a, decimals);
    ParseThenFormat(b, decimals);
  }

  /** Base-unit text is accepted exactly when it is the numeral of a positive u128. */
  lemma BaseUnitRoundTrip(text: string, amount: nat)
    ensures ParseBaseUnitAmount(text) == Ok(amount) <==> 0 < amount <= PoolEvents.MAX_U128 && text == Print(amount, Ten)
  {
    PrintRead(amount, Ten);
    if ParseBaseUnitAmount(text).Ok? {
      ReadPrint(text, Ten);
    }
  }

  // ----- the fingerprint signal

  function DisplayedDecimals(amount: nat, decimals: nat): nat {
    var padded := PadStart(Print(amount, Ten), decimals + 1);
    |StripZeros(padded[|padded| - decimals..])|
  }

  lemma StripShort(s: string, n: nat)
    requires n <= |s|
    ensures |StripZeros(s)| <= n <==> s[n..] == Zeros(|s| - n)
  {
    StripSplits(s);
    var stripped := StripZeros(s);
    if |stripped| > n {
      assert stripped[|stripped| - 1] == s[|stripped| - 1] == s[n..][|stripped| - 1 - n];
    }
  }

  lemma RemainderIsTail(prefix: string, tail: string)
    requires IsDigits(tail)
    ensures Value(prefix + tail, Ten) % Pow10(|tail|) == Value(tail, Ten)
  {
    ValueConcat(prefix, tail);
    ValueBound(tail);
    RemainderOf(Value(prefix, Ten), Pow10(|tail|), Value(tail, Ten));
  }

  lemma RemainderOf(q: nat, p: nat, r: nat)
    requires r < p
    ensures (q * p + r) % p == r
  {
    var n := q * p + r;
    assert n == n / p * p + n % p;
    if n / p != q {
      Apart(n / p, q, p);
    }
  }

  lemma Apart(a: nat, b: nat, p: nat)
    requires a != b
    ensures a * p >= b * p + p || b * p >= a * p + p
  {
    if a > b {
      assert a * p >= (b + 1) * p;
    } else {
      assert b * p >= (a + 1) * p;
    }
  }

  lemma TailOfZeros(s: string, cut: nat)
    requires IsDigits(s) && cut <= |s|
    ensures Value(s, Ten) % Pow10(|s| - cut) == 0 <==> s[cut..] == Zeros(|s| - cut)
  {
    hide Value, Pow10;
    assert s == s[..cut] + s[cut..];
    RemainderIsTail(s[..cut], s[cut..]);
    ValueBound(s[cut..]);
  }

  /** The evaluator's round amounts are exactly those displayed with at most two decimals. */
  lemma RoundMeansFewDecimals(amount: nat, decimals: nat)
    requires amount > 0
    ensures Preflight.IsRoundAmount(amount, decimals)
            <==> DisplayedDecimals(amount, decimals) <= ROUND_AMOUNT_DECIMAL_PLACES
  {
    hide Value, Print, StripZeros, Pow10, PadStart, AllDigits;
    var padded := PadStart(Print(amount, Ten), decimals + 1);
    PrintRead(amount, Ten);
    PaddedValue(Print(amount, Ten), decimals + 1);
    var retained := if decimals <= ROUND_AMOUNT_DECIMAL_PLACES then decimals else ROUND_AMOUNT_DECIMAL_PLACES;
    var fraction, cut := padded[|padded| - decimals..], |padded| - decimals + retained;
    StripShort(fraction, retained);
    assert fraction[retained..] == padded[cut..];
    TailOfZeros(padded, cut);
    StripSplits(fraction);
  }
}
