/** String operations the components rely on, with JavaScript's semantics:
    `String.prototype.includes`, `String.prototype.replace` with a string pattern
    (first occurrence only), number-to-string conversion in template literals, and
    the global `parseInt` with no radix argument. */
module Text {
  import opened Options

  // ---------------------------------------------------------------------------
  // Substring search
  // ---------------------------------------------------------------------------

  /** `pat` occurs in `s` starting at index `i`. */
  predicate OccursAt(s: string, pat: string, i: nat) {
    i + |pat| <= |s| && s[i..i + |pat|] == pat
  }

  /** First index at or after `k` where `pat` occurs, given that it occurs nowhere before `k`. */
  function IndexFrom(s: string, pat: string, k: nat): (r: Option<nat>)
    requires forall j: nat :: j < k ==> !OccursAt(s, pat, j)
    ensures r.Some? ==> k <= r.value && OccursAt(s, pat, r.value)
    ensures r.Some? ==> forall j: nat :: j < r.value ==> !OccursAt(s, pat, j)
    ensures r.None? ==> forall j: nat :: !OccursAt(s, pat, j)
    decreases |s| - k
  {
    if k + |pat| > |s| then None
    else if s[k..k + |pat|] == pat then Some(k)
    else IndexFrom(s, pat, k + 1)
  }

  /** Index of the first occurrence of `pat` in `s` (`String.prototype.indexOf`, with `None` for -1). */
  function IndexOf(s: string, pat: string): (r: Option<nat>)
    ensures r.Some? ==> OccursAt(s, pat, r.value)
    ensures r.Some? ==> forall j: nat :: j < r.value ==> !OccursAt(s, pat, j)
    ensures r.None? ==> forall j: nat :: !OccursAt(s, pat, j)
  {
    IndexFrom(s, pat, 0)
  }

  /** `s.includes(pat)`. */
  predicate Contains(s: string, pat: string) {
    IndexOf(s, pat).Some?
  }

  /** `Contains` holds exactly when some occurrence exists. */
  lemma ContainsIff(s: string, pat: string)
    ensures Contains(s, pat) <==> exists i: nat :: OccursAt(s, pat, i)
  {
  }

  // ---------------------------------------------------------------------------
  // First-occurrence replacement
  // ---------------------------------------------------------------------------

  /** `s.replace(pat, rep)` for a string pattern: scans left to right and replaces
      the first match only. (`rep` is taken literally; the replacements used by the
      components contain no `$` patterns.) */
  function ReplaceFirst(s: string, pat: string, rep: string): (r: string)
    decreases |s|
  {
    if |s| < |pat| then s
    else if s[..|pat|] == pat then rep + s[|pat|..]
    else [s[0]] + ReplaceFirst(s[1..], pat, rep)
  }

  /** The first occurrence in `s` sits one place later than the first occurrence in
      its tail when there is none at index 0. */
  lemma {:induction false} IndexOfShift(s: string, pat: string)
    requires |s| > 0 && !OccursAt(s, pat, 0)
    ensures IndexOf(s, pat).None? <==> IndexOf(s[1..], pat).None?
    ensures IndexOf(s, pat).Some? ==> IndexOf(s, pat).value == IndexOf(s[1..], pat).value + 1
  {
    forall j: nat
      ensures OccursAt(s, pat, j + 1) <==> OccursAt(s[1..], pat, j)
    {
      if j + 1 + |pat| <= |s| {
        var a := s[1..][j..j + |pat|];
        var b := s[j + 1..j + 1 + |pat|];
        assert |a| == |b|;
        assert forall k :: 0 <= k < |a| ==> a[k] == b[k];
        assert a == b;
      }
    }
    var a := IndexOf(s, pat);
    var b := IndexOf(s[1..], pat);
    if a.Some? {
      assert a.value >= 1;
      assert OccursAt(s[1..], pat, a.value - 1);
    }
    if b.Some? {
      assert OccursAt(s, pat, b.value + 1);
    }
  }

  /** Splicing into the tail of `s` and putting the first character back is splicing
      one place further into `s`. */
  lemma SpliceShift(s: string, rep: string, i: nat, n: nat)
    requires |s| > 0 && i + n <= |s| - 1
    ensures [s[0]] + (s[1..][..i] + rep + s[1..][i + n..]) == s[..i + 1] + rep + s[i + 1 + n..]
  {
    assert [s[0]] + s[1..][..i] == s[..i + 1];
    assert s[1..][i + n..] == s[i + 1 + n..];
  }

  /** `ReplaceFirst` leaves `s` unchanged when `pat` is absent and otherwise splices
      `rep` in place of exactly the first occurrence, keeping every other character. */
  lemma {:induction false} ReplaceFirstSpec(s: string, pat: string, rep: string)
    ensures IndexOf(s, pat).None? ==> ReplaceFirst(s, pat, rep) == s
    ensures IndexOf(s, pat).Some? ==>
              var i := IndexOf(s, pat).value;
              ReplaceFirst(s, pat, rep) == s[..i] + rep + s[i + |pat|..]
    decreases |s|
  {
    if |s| < |pat| {
      assert IndexOf(s, pat).None?;
    } else if s[..|pat|] == pat {
      ReplaceFirstAtStart(s, pat, rep);
    } else {
      assert |s| > 0 && !OccursAt(s, pat, 0);
      IndexOfShift(s, pat);
      ReplaceFirstSpec(s[1..], pat, rep);
      var b := IndexOf(s[1..], pat);
      if b.Some? {
        assert OccursAt(s[1..], pat, b.value);
        ReplaceFirstLaterAt(s, pat, rep, b.value);
      } else {
        ReplaceFirstLaterNone(s, pat, rep);
      }
    }
  }

  /** A match at the start is the first one, and is the one replaced. */
  lemma ReplaceFirstAtStart(s: string, pat: string, rep: string)
    requires |pat| <= |s| && s[..|pat|] == pat
    ensures IndexOf(s, pat) == Some(0)
    ensures ReplaceFirst(s, pat, rep) == s[..0] + rep + s[0 + |pat|..]
  {
    assert OccursAt(s, pat, 0);
    assert s[..0] == [];
  }

  /** Without a match at the start, the replacement happens in the tail, one place
      further along. */
  lemma ReplaceFirstLaterAt(s: string, pat: string, rep: string, i: nat)
    requires |pat| <= |s| && s[..|pat|] != pat && i + |pat| <= |s| - 1
    requires ReplaceFirst(s[1..], pat, rep) == s[1..][..i] + rep + s[1..][i + |pat|..]
    ensures ReplaceFirst(s, pat, rep) == s[..i + 1] + rep + s[i + 1 + |pat|..]
  {
    assert ReplaceFirst(s, pat, rep) == [s[0]] + ReplaceFirst(s[1..], pat, rep);
    SpliceShift(s, rep, i, |pat|);
  }

  /** Without a match at the start or in the tail, nothing is replaced. */
  lemma ReplaceFirstLaterNone(s: string, pat: string, rep: string)
    requires |pat| <= |s| && s[..|pat|] != pat && |s| > 0
    requires ReplaceFirst(s[1..], pat, rep) == s[1..]
    ensures ReplaceFirst(s, pat, rep) == s
  {
    assert [s[0]] + s[1..] == s;
  }

  /** Every character of a pattern that occurs in `s` is a character of `s`; so a
      pattern with a character that `s` lacks does not occur in `s`. */
  lemma OccurrenceHasPatternChars(s: string, pat: string, k: nat)
    requires k < |pat|
    ensures forall i: nat :: OccursAt(s, pat, i) ==> pat[k] in s
  {
    forall i: nat | OccursAt(s, pat, i)
      ensures pat[k] in s
    {
      assert s[i..i + |pat|][k] == s[i + k];
    }
  }

  // ---------------------------------------------------------------------------
  // Digits and decimal formatting
  // ---------------------------------------------------------------------------

  /** The value of `c` as a digit in any radix up to 16, or 16 when it is none. */
  function DigitValue(c: char): (d: nat)
    ensures d <= 16
  {
    if '0' <= c <= '9' then c as int - '0' as int
    else if 'a' <= c <= 'f' then c as int - 'a' as int + 10
    else if 'A' <= c <= 'F' then c as int - 'A' as int + 10
    else 16
  }

  predicate IsDigit(c: char, radix: nat) {
    DigitValue(c) < radix
  }

  predicate AllDigits(s: string, radix: nat) {
    forall i :: 0 <= i < |s| ==> IsDigit(s[i], radix)
  }

  /** The number a digit string denotes, most significant digit first. */
  function DigitsValue(ds: string, radix: nat): nat {
    if |ds| == 0 then 0 else DigitsValue(ds[..|ds| - 1], radix) * radix + DigitValue(ds[|ds| - 1])
  }

  /** The longest prefix of `s` made of digits of `radix`. */
  function LeadingDigits(s: string, radix: nat): (ds: string)
    ensures |ds| <= |s| && ds == s[..|ds|]
    ensures AllDigits(ds, radix)
    ensures |ds| == |s| || !IsDigit(s[|ds|], radix)
  {
    if |s| == 0 || !IsDigit(s[0], radix) then [] else [s[0]] + LeadingDigits(s[1..], radix)
  }

  /** The digit prefix of a digit string followed by a non-digit is that digit string. */
  lemma {:induction false} LeadingDigitsOf(ds: string, rest: string, radix: nat)
    requires AllDigits(ds, radix)
    requires rest == [] || !IsDigit(rest[0], radix)
    ensures LeadingDigits(ds + rest, radix) == ds
  {
    if |ds| > 0 {
      assert (ds + rest)[1..] == ds[1..] + rest;
      LeadingDigitsOf(ds[1..], rest, radix);
      assert ds == [ds[0]] + ds[1..];
    } else {
      assert ds + rest == rest;
    }
  }

  function DigitChar(d: nat): (c: char)
    requires d < 10
    ensures DigitValue(c) == d && IsDigit(c, 10)
  {
    ('0' as int + d) as char
  }

  /** Decimal rendering of a natural number, as `${n}` produces for an integral number. */
  function ShowNat(n: nat): (s: string)
    ensures |s| > 0 && AllDigits(s, 10)
  {
    if n < 10 then [DigitChar(n)] else ShowNat(n / 10) + [DigitChar(n % 10)]
  }

  /** Decimal rendering of an integer, with a leading `-` when negative. */
  function ShowInt(i: int): (s: string)
    ensures |s| > 0
  {
    if i < 0 then "-" + ShowNat(-i) else ShowNat(i)
  }

  /** Reading back the digits `ShowNat` writes gives the number. */
  lemma {:induction false} ShowNatValue(n: nat)
    ensures DigitsValue(ShowNat(n), 10) == n
  {
    if n >= 10 {
      var s := ShowNat(n);
      assert s[..|s| - 1] == ShowNat(n / 10);
      ShowNatValue(n / 10);
    }
  }

  /** Distinct numbers have distinct renderings. */
  lemma ShowNatInjective(m: nat, n: nat)
    requires ShowNat(m) == ShowNat(n)
    ensures m == n
  {
    ShowNatValue(m);
    ShowNatValue(n);
  }

  // ---------------------------------------------------------------------------
  // parseInt
  // ---------------------------------------------------------------------------

  /** The characters `parseInt` skips before the number: ECMAScript's WhiteSpace
      (tab, vertical tab, form feed, ZWNBSP and every space separator) and LineTerminator. */
  predicate IsJsWhitespace(c: char) {
    || c == '\t' || c == '\n' || c == '\U{000B}' || c == '\U{000C}' || c == '\r' || c == ' '
    || c == '\U{00A0}' || c == '\U{1680}' || ('\U{2000}' <= c <= '\U{200A}')
    || c == '\U{2028}' || c == '\U{2029}' || c == '\U{202F}' || c == '\U{205F}'
    || c == '\U{3000}' || c == '\U{FEFF}'
  }

  /** `s` with its leading whitespace removed. */
  function TrimStart(s: string): (r: string)
    ensures |r| <= |s| && r == s[|s| - |r|..]
    ensures forall i :: 0 <= i < |s| - |r| ==> IsJsWhitespace(s[i])
    ensures |r| > 0 ==> !IsJsWhitespace(r[0])
  {
    if |s| > 0 && IsJsWhitespace(s[0]) then TrimStart(s[1..]) else s
  }

  /** The digits after the sign: a `0x`/`0X` prefix switches to radix 16, then the
      longest run of digits is read. No digit at all is `None`. */
  function ParseUnsigned(u: string): Option<nat> {
    var hex := |u| >= 2 && u[0] == '0' && (u[1] == 'x' || u[1] == 'X');
    var radix := if hex then 16 else 10;
    var digits := LeadingDigits(if hex then u[2..] else u, radix);
    if |digits| == 0 then None else Some(DigitsValue(digits, radix))
  }

  /** The number after whitespace: an optional `-` or `+`, then the digits. */
  function ParseSigned(t: string): Option<int> {
    if |t| > 0 && (t[0] == '-' || t[0] == '+') then
      match ParseUnsigned(t[1..])
      case None => None
      case Some(m) => Some(if t[0] == '-' then -(m as int) else m)
    else
      match ParseUnsigned(t)
      case None => None
      case Some(m) => Some(m)
  }

  /** `parseInt(s)`: skip leading whitespace, then read a signed number. `NaN` is
      modelled as `None`. */
  function ParseInt(s: string): Option<int> {
    ParseSigned(TrimStart(s))
  }

  /** Leading whitespace does not change what `parseInt` reads. */
  lemma {:induction false} TrimStartSkips(ws: string, t: string)
    requires forall i :: 0 <= i < |ws| ==> IsJsWhitespace(ws[i])
    requires |t| > 0 && !IsJsWhitespace(t[0])
    ensures TrimStart(ws + t) == t
  {
    if |ws| > 0 {
      assert (ws + t)[1..] == ws[1..] + t;
      TrimStartSkips(ws[1..], t);
    } else {
      assert ws + t == t;
    }
  }

  /** What may follow a number without being read as part of it. */
  predicate EndsNumber(rest: string) {
    rest == [] || (!IsDigit(rest[0], 10) && rest[0] != 'x' && rest[0] != 'X')
  }

  lemma ParseUnsignedShowNat(n: nat, rest: string)
    requires EndsNumber(rest)
    ensures ParseUnsigned(ShowNat(n) + rest) == Some(n)
  {
    var shown := ShowNat(n);
    var u := shown + rest;
    if |u| >= 2 {
      if |shown| >= 2 {
        assert u[1] == shown[1] && IsDigit(shown[1], 10);
      } else {
        assert u[1] == rest[0];
      }
    }
    LeadingDigitsOf(shown, rest, 10);
    ShowNatValue(n);
  }

  lemma ParseSignedNegative(n: nat, rest: string)
    requires n > 0 && EndsNumber(rest)
    ensures ParseSigned(['-'] + (ShowNat(n) + rest)) == Some(-(n as int))
  {
    var t := ['-'] + (ShowNat(n) + rest);
    assert t[1..] == ShowNat(n) + rest;
    ParseUnsignedShowNat(n, rest);
  }

  lemma ParseSignedNonNegative(n: nat, rest: string)
    requires EndsNumber(rest)
    ensures ParseSigned(ShowNat(n) + rest) == Some(n)
  {
    var u := ShowNat(n) + rest;
    assert u[0] == ShowNat(n)[0];
    assert IsDigit(u[0], 10);
    ParseUnsignedShowNat(n, rest);
  }

  lemma ParseSignedShowInt(i: int, rest: string)
    requires EndsNumber(rest)
    ensures ParseSigned(ShowInt(i) + rest) == Some(i)
  {
    if i < 0 {
      var n: nat := -i;
      ShowIntNegative(i);
      assert ShowInt(i) + rest == ['-'] + (ShowNat(n) + rest);
      ParseSignedNegative(n, rest);
    } else {
      assert ShowInt(i) == ShowNat(i);
      ParseSignedNonNegative(i, rest);
    }
  }

  lemma ShowIntNegative(i: int)
    requires i < 0
    ensures ShowInt(i) == ['-'] + ShowNat(-i)
  {
  }


  /** Text that does not start with whitespace is left as it is. */
  lemma TrimStartKeeps(t: string)
    requires |t| > 0 && !IsJsWhitespace(t[0])
    ensures TrimStart(t) == t
  {
  }

  /** A decimal rendering starts with `-` or a digit, so never with whitespace. */
  lemma ShowIntStart(i: int)
    ensures ShowInt(i)[0] == '-' || IsDigit(ShowInt(i)[0], 10)
    ensures !IsJsWhitespace(ShowInt(i)[0])
  {
    if i >= 0 {
      assert ShowInt(i) == ShowNat(i);
      assert IsDigit(ShowNat(i)[0], 10);
    } else {
      ShowIntNegative(i);
    }
  }

  /** `parseInt` reads back any integer written in decimal, whatever whitespace
      precedes it and whatever follows it, as long as what follows is not a digit
      and not an `x` that would turn a lone `0` into a hexadecimal prefix. */
  lemma ParseIntReadsShowInt(ws: string, i: int, rest: string)
    requires forall k :: 0 <= k < |ws| ==> IsJsWhitespace(ws[k])
    requires EndsNumber(rest)
    ensures ParseInt(ws + ShowInt(i) + rest) == Some(i)
  {
    var t := ShowInt(i) + rest;
    assert ws + ShowInt(i) + rest == ws + t;
    ShowIntStart(i);
    assert t[0] == ShowInt(i)[0];
    TrimStartSkips(ws, t);
    ParseSignedShowInt(i, rest);
  }

  /** The round trip used when a number is serialised and parsed back. */
  lemma ParseIntShowInt(i: int)
    ensures ParseInt(ShowInt(i)) == Some(i)
  {
    ShowIntStart(i);
    TrimStartKeeps(ShowInt(i));
    ParseSignedShowInt(i, []);
    assert ShowInt(i) + [] == ShowInt(i);
  }

  /** The number a message carries after a fixed lead: `parseInt` of the text after
      `lead` is the number written there. */
  lemma ParseIntAfter(lead: string, n: nat, rest: string)
    requires EndsNumber(rest)
    ensures |lead| <= |lead + ShowNat(n) + rest|
    ensures ParseInt((lead + ShowNat(n) + rest)[|lead|..]) == Some(n)
  {
    var t := ShowNat(n) + rest;
    assert (lead + ShowNat(n) + rest)[|lead|..] == t;
    assert t[0] == ShowNat(n)[0] && IsDigit(t[0], 10);
    TrimStartKeeps(t);
    ParseSignedNonNegative(n, rest);
  }

  /** Text without any digit where the number should start is `NaN`. */
  lemma ParseIntNaN(s: string)
    requires var t := TrimStart(s); |t| == 0 || (!IsDigit(t[0], 10) && t[0] != '-' && t[0] != '+')
    ensures ParseInt(s) == None
  {
  }
}
