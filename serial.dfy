/**
  Serial-number derivation for issued certificates, and the decimal rendering
  of a serial that a CA stores as its `id`.

  A serial is the integer whose hexadecimal digits are a time-ordered unique
  identifier with its hyphens removed. The identifier itself comes from an
  opaque generator and is passed in.
*/
module Serials {
  import opened Base

  predicate IsHexDigit(c: char) {
    '0' <= c <= '9' || 'a' <= c <= 'f' || 'A' <= c <= 'F'
  }

  predicate AllHex(s: string) {
    forall i :: 0 <= i < |s| ==> IsHexDigit(s[i])
  }

  /** The value of one hexadecimal digit; upper- and lower-case letters are worth the same. */
  function HexDigitValue(c: char): (v: nat)
    requires IsHexDigit(c)
    ensures v < 16
  {
    if '0' <= c <= '9' then c as int - '0' as int
    else if 'a' <= c <= 'f' then c as int - 'a' as int + 10
    else c as int - 'A' as int + 10
  }

  function Pow16(n: nat): (p: nat)
    ensures p >= 1
  {
    if n == 0 then 1 else 16 * Pow16(n - 1)
  }

  /** The integer written by the hexadecimal digits `s`, most significant first; it has fewer than |s| digits' worth of bits. */
  function HexValue(s: string): (v: nat)
    requires AllHex(s)
    ensures v < Pow16(|s|)
  {
    if s == [] then 0
    else
      var high := HexValue(s[..|s| - 1]);
      var low := HexDigitValue(s[|s| - 1]);
      assert high * 16 + low < 16 * Pow16(|s| - 1) by {
        assert high <= Pow16(|s| - 1) - 1;
        assert high * 16 <= (Pow16(|s| - 1) - 1) * 16;
      }
      high * 16 + low
  }

  /** `strings.Replace(s, "-", "", -1)`: `s` with every hyphen removed and every other character kept in order. */
  function RemoveHyphens(s: string): (r: string)
    ensures '-' !in r
    ensures forall c :: c != '-' ==> (c in r <==> c in s)
    ensures |r| <= |s|
    ensures '-' !in s ==> r == s
  {
    if s == [] then []
    else if s[0] == '-' then RemoveHyphens(s[1..])
    else [s[0]] + RemoveHyphens(s[1..])
  }

  /** Removing hyphens distributes over concatenation. */
  lemma {:induction false} RemoveHyphensAppend(s: string, t: string)
    ensures RemoveHyphens(s + t) == RemoveHyphens(s) + RemoveHyphens(t)
  {
    if s == [] {
      assert s + t == t;
    } else {
      assert (s + t)[0] == s[0] && (s + t)[1..] == s[1..] + t;
      RemoveHyphensAppend(s[1..], t);
      if s[0] == '-' {
        assert RemoveHyphens(s + t) == RemoveHyphens(s[1..] + t);
        assert RemoveHyphens(s) == RemoveHyphens(s[1..]);
      } else {
        assert RemoveHyphens(s + t) == [s[0]] + RemoveHyphens(s[1..] + t);
        assert RemoveHyphens(s) == [s[0]] + RemoveHyphens(s[1..]);
      }
    }
  }

  /** The length of the run of hexadecimal digits `s` starts with. */
  function HexPrefixLength(s: string): (n: nat)
    ensures n <= |s|
    ensures AllHex(s[..n])
    ensures n < |s| ==> !IsHexDigit(s[n])
  {
    if s == [] || !IsHexDigit(s[0]) then 0
    else
      var n := 1 + HexPrefixLength(s[1..]);
      assert s[..n] == [s[0]] + s[1..][..n - 1];
      n
  }

  /**
    A character whose UTF-8 encoding is longer than one byte. `big.Int` scans
    byte by byte, and reading such a character is an error, not the end of
    the number.
  */
  predicate IsMultiByte(c: char) {
    c as int > 0x7f
  }

  /**
    `fmt.Sscanf(text, "%x", i)` into a `*big.Int`: an optional sign, then the
    longest run of hexadecimal digits. A text with no digit there fails, and so
    does a run followed by a multi-byte character; any other text after the
    run is left unread.
  */
  function ScanHex(text: string): (r: Option<int>)
    ensures r.None? <==>
      (var digits := if |text| > 0 && (text[0] == '+' || text[0] == '-') then text[1..] else text;
       var n := HexPrefixLength(digits);
       n == 0 || (n < |digits| && IsMultiByte(digits[n])))
    ensures (forall i :: 0 <= i < |text| ==> !IsMultiByte(text[i])) ==>
      (r.None? <==>
        (var digits := if |text| > 0 && (text[0] == '+' || text[0] == '-') then text[1..] else text;
         digits == [] || !IsHexDigit(digits[0])))
    ensures r.Some? && r.value < 0 ==> text[0] == '-'
    ensures text != [] && AllHex(text) ==> r == Some(HexValue(text))
  {
    var signed := |text| > 0 && (text[0] == '+' || text[0] == '-');
    var digits := if signed then text[1..] else text;
    var n := HexPrefixLength(digits);
    assert text != [] && AllHex(text) ==> !signed && n == |text| && digits[..n] == text by {
      if text != [] && AllHex(text) {
        assert IsHexDigit(text[0]);
      }
    }
    if n == 0 || (n < |digits| && IsMultiByte(digits[n])) then None
    else
      var magnitude: int := HexValue(digits[..n]);
      Some(if signed && text[0] == '-' then -magnitude else magnitude)
  }

  /**
    `NewSerial` with the identifier `uuid` the generator produced: the hyphens
    are removed and the rest is scanned as hexadecimal. Because every hyphen
    is removed first, no minus sign survives, so a serial is never negative.
  */
  function NewSerial(uuid: string): (r: Result<int, Error>)
    ensures r.Success? ==> r.value >= 0
    ensures r.Failure? ==> r.error == SerialError
    ensures r.Success? <==> ScanHex(RemoveHyphens(uuid)).Some?
  {
    match ScanHex(RemoveHyphens(uuid))
    case None => Failure(SerialError)
    case Some(v) => Success(v)
  }

  /**
    For an identifier made of hexadecimal digits and hyphens, with at least one
    digit, the serial is exactly the integer whose base-16 digits are the
    identifier with all hyphens removed.
  */
  lemma SerialOfHexIdentifier(uuid: string)
    requires forall i :: 0 <= i < |uuid| ==> IsHexDigit(uuid[i]) || uuid[i] == '-'
    requires RemoveHyphens(uuid) != []
    ensures AllHex(RemoveHyphens(uuid))
    ensures NewSerial(uuid) == Success(HexValue(RemoveHyphens(uuid)))
  {
    var clean := RemoveHyphens(uuid);
    forall i | 0 <= i < |clean| ensures IsHexDigit(clean[i]) {
      assert clean[i] in clean;
      assert clean[i] in uuid;
    }
  }

  /**
    An identifier fails to give a serial exactly when, after hyphens and an
    optional sign, it does not start with a hexadecimal digit, or its run of
    digits is followed by a multi-byte character.
  */
  lemma SerialFailure(uuid: string)
    ensures NewSerial(uuid).Failure? <==>
      (var clean := RemoveHyphens(uuid);
       var digits := if |clean| > 0 && clean[0] == '+' then clean[1..] else clean;
       var n := HexPrefixLength(digits);
       n == 0 || (n < |digits| && IsMultiByte(digits[n])))
  {
    var clean := RemoveHyphens(uuid);
    if |clean| > 0 {
      assert clean[0] in clean;
    }
  }

  /** The groups of an identifier joined by hyphens, as the generator writes them. */
  function Hyphenated(groups: seq<string>): string {
    if |groups| <= 1 then (if groups == [] then "" else groups[0])
    else groups[0] + "-" + Hyphenated(groups[1..])
  }

  /** The groups of an identifier run together. */
  function Concat(groups: seq<string>): string {
    if groups == [] then "" else groups[0] + Concat(groups[1..])
  }

  /** One separator step: a hyphen-free group, a hyphen, and the rest. */
  lemma RemoveHyphensAtSeparator(group: string, rest: string)
    requires '-' !in group
    ensures RemoveHyphens(group + "-" + rest) == group + RemoveHyphens(rest)
  {
    RemoveHyphensAppend(group + "-", rest);
    RemoveHyphensAppend(group, "-");
    assert RemoveHyphens("-") == RemoveHyphens("-"[1..]);
  }

  /** Removing the hyphens from hyphen-free groups joined by hyphens runs them together. */
  lemma {:induction false} RemoveHyphensOfGroups(groups: seq<string>)
    requires forall g :: g in groups ==> '-' !in g
    ensures RemoveHyphens(Hyphenated(groups)) == Concat(groups)
  {
    if |groups| == 1 {
      assert groups[0] in groups;
      assert Concat(groups[1..]) == "";
      assert Concat(groups) == groups[0];
    } else if |groups| > 1 {
      assert groups[0] in groups;
      assert forall g :: g in groups[1..] ==> g in groups;
      RemoveHyphensOfGroups(groups[1..]);
      RemoveHyphensAtSeparator(groups[0], Hyphenated(groups[1..]));
    }
  }

  /** The digits of hexadecimal groups stay hexadecimal when run together. */
  lemma {:induction false} ConcatAllHex(groups: seq<string>)
    requires forall g :: g in groups ==> AllHex(g)
    ensures AllHex(Concat(groups))
    ensures |Concat(groups)| == (if groups == [] then 0 else |groups[0]| + |Concat(groups[1..])|)
  {
    if groups != [] {
      ConcatAllHex(groups[1..]);
      var rest := Concat(groups[1..]);
      assert groups[0] in groups;
      forall i | 0 <= i < |groups[0] + rest| ensures IsHexDigit((groups[0] + rest)[i]) {
        if i >= |groups[0]| { assert (groups[0] + rest)[i] == rest[i - |groups[0]|]; }
      }
    }
  }

  /**
    A standard identifier, five hexadecimal groups of 8, 4, 4, 4 and 12 digits
    joined by hyphens, gives the serial written by its 32 digits, which is
    below 16^32 = 2^128.
  */
  lemma SerialOfStandardIdentifier(groups: seq<string>)
    requires |groups| == 5
    requires |groups[0]| == 8 && |groups[1]| == 4 && |groups[2]| == 4 && |groups[3]| == 4 && |groups[4]| == 12
    requires forall g :: g in groups ==> AllHex(g)
    ensures AllHex(Concat(groups)) && |Concat(groups)| == 32
    ensures NewSerial(Hyphenated(groups)) == Success(HexValue(Concat(groups)))
    ensures HexValue(Concat(groups)) < Pow16(32)
  {
    forall g | g in groups ensures '-' !in g {
      assert AllHex(g);
    }
    RemoveHyphensOfGroups(groups);
    ConcatAllHex(groups);
    ConcatAllHex(groups[1..]);
    ConcatAllHex(groups[2..]);
    ConcatAllHex(groups[3..]);
    ConcatAllHex(groups[4..]);
    assert groups[4..][1..] == [];
  }

  predicate IsLowerHex(s: string) {
    forall i :: 0 <= i < |s| ==> '0' <= s[i] <= '9' || 'a' <= s[i] <= 'f'
  }

  /** A number below 16 is the last base-16 digit of `high * 16 + low`: the split is unique. */
  lemma SplitDigit(h1: nat, d1: nat, h2: nat, d2: nat)
    requires d1 < 16 && d2 < 16 && h1 * 16 + d1 == h2 * 16 + d2
    ensures h1 == h2 && d1 == d2
  {
  }

  /** Distinct lower-case hexadecimal digits have distinct values. */
  lemma LowerHexDigitInjective(c: char, d: char)
    requires '0' <= c <= '9' || 'a' <= c <= 'f'
    requires '0' <= d <= '9' || 'a' <= d <= 'f'
    requires HexDigitValue(c) == HexDigitValue(d)
    ensures c == d
  {
  }

  /** Two lower-case hexadecimal texts of equal length with the same value are equal. */
  lemma {:induction false} HexValueInjective(s: string, t: string)
    requires IsLowerHex(s) && IsLowerHex(t) && |s| == |t|
    requires HexValue(s) == HexValue(t)
    ensures s == t
  {
    if s != [] {
      var n := |s| - 1;
      var hs, ht := HexValue(s[..n]), HexValue(t[..n]);
      var ds, dt := HexDigitValue(s[n]), HexDigitValue(t[n]);
      assert HexValue(s) == hs * 16 + ds;
      assert HexValue(t) == ht * 16 + dt;
      SplitDigit(hs, ds, ht, dt);
      LowerHexDigitInjective(s[n], t[n]);
      assert IsLowerHex(s[..n]) && IsLowerHex(t[..n]);
      HexValueInjective(s[..n], t[..n]);
      assert s == s[..n] + [s[n]] && t == t[..n] + [t[n]];
    }
  }

  /** The character of a decimal digit. */
  function DigitChar(d: nat): (c: char)
    requires d < 10
    ensures '0' <= c <= '9'
  {
    ('0' as int + d) as char
  }

  predicate AllDecimal(s: string) {
    forall i :: 0 <= i < |s| ==> '0' <= s[i] <= '9'
  }

  /** The decimal digits of `n`, with no leading zero. */
  function DecimalDigits(n: nat): (s: string)
    ensures |s| >= 1 && AllDecimal(s)
    ensures |s| > 1 ==> s[0] != '0'
  {
    if n < 10 then [DigitChar(n)]
    else DecimalDigits(n / 10) + [DigitChar(n % 10)]
  }

  /** `fmt.Sprintf("%d", n)` for a `*big.Int`: a minus sign for a negative number, then its decimal digits. */
  function Decimal(n: int): (s: string)
    ensures |s| >= 1
    ensures s[0] == '-' <==> n < 0
    ensures s[0] == '-' ==> |s| >= 2 && AllDecimal(s[1..]) && s[1] != '0'
    ensures s[0] != '-' ==> AllDecimal(s)
  {
    if n < 0 then "-" + DecimalDigits(-n) else DecimalDigits(n)
  }

  /** The value of a text of decimal digits. */
  function DecimalValue(s: string): nat
    requires AllDecimal(s)
  {
    if s == [] then 0 else DecimalValue(s[..|s| - 1]) * 10 + (s[|s| - 1] as int - '0' as int)
  }

  /** Reads back what `Decimal` writes. */
  function ParseDecimal(s: string): int
    requires s == [] || (s[0] == '-' && AllDecimal(s[1..])) || AllDecimal(s)
  {
    if s != [] && s[0] == '-' then -(DecimalValue(s[1..]) as int) else DecimalValue(s)
  }

  lemma {:induction false} DecimalDigitsRoundTrip(n: nat)
    ensures DecimalValue(DecimalDigits(n)) == n
  {
    if n >= 10 {
      DecimalDigitsRoundTrip(n / 10);
      var s := DecimalDigits(n);
      assert s[..|s| - 1] == DecimalDigits(n / 10);
    }
  }

  /**
    The rendering of a serial as an `id` is faithful: it reads back as the same
    integer, so distinct serials give distinct ids.
  */
  lemma DecimalRoundTrip(n: int, m: int)
    ensures Decimal(n)[0] == '-' ==> AllDecimal(Decimal(n)[1..])
    ensures ParseDecimal(Decimal(n)) == n
    ensures Decimal(n) == Decimal(m) ==> n == m
  {
    DecimalDigitsRoundTrip(if n < 0 then -n else n);
    DecimalDigitsRoundTrip(if m < 0 then -m else m);
    if n < 0 { assert Decimal(n)[1..] == DecimalDigits(-n); }
    if m < 0 { assert Decimal(m)[1..] == DecimalDigits(-m); }
  }

  /**
    Serial uniqueness follows from identifier uniqueness: two distinct standard
    lower-case identifiers give distinct serials and so distinct ids.
  */
  lemma DistinctIdentifiersGiveDistinctIds(g: seq<string>, h: seq<string>)
    requires |g| == 5 && |g[0]| == 8 && |g[1]| == 4 && |g[2]| == 4 && |g[3]| == 4 && |g[4]| == 12
    requires |h| == 5 && |h[0]| == 8 && |h[1]| == 4 && |h[2]| == 4 && |h[3]| == 4 && |h[4]| == 12
    requires forall s :: s in g ==> AllHex(s)
    requires forall s :: s in h ==> AllHex(s)
    requires IsLowerHex(Concat(g)) && IsLowerHex(Concat(h))
    requires Concat(g) != Concat(h)
    ensures NewSerial(Hyphenated(g)).Success? && NewSerial(Hyphenated(h)).Success?
    ensures Decimal(NewSerial(Hyphenated(g)).value) != Decimal(NewSerial(Hyphenated(h)).value)
  {
    SerialOfStandardIdentifier(g);
    SerialOfStandardIdentifier(h);
    if HexValue(Concat(g)) == HexValue(Concat(h)) {
      HexValueInjective(Concat(g), Concat(h));
    }
    DecimalRoundTrip(HexValue(Concat(g)), HexValue(Concat(h)));
  }
}
