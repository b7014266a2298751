/** The few JavaScript string operations the storefront relies on, over `seq<char>`. */
module Text {

  /** `s.startsWith(prefix)` */
  predicate StartsWith(s: string, prefix: string) {
    |prefix| <= |s| && s[..|prefix|] == prefix
  }

  /** `sub` occurs in `s` starting at position `i`. */
  predicate OccursAt(s: string, sub: string, i: int) {
    0 <= i && i + |sub| <= |s| && s[i..i + |sub|] == sub
  }

  /** `s.includes(sub)`, by scanning every start position. */
  function Contains(s: string, sub: string): (r: bool)
    ensures r <==> exists i :: OccursAt(s, sub, i)
    decreases |s|
  {
    if StartsWith(s, sub) then
      assert OccursAt(s, sub, 0);
      true
    else if |s| == 0 then
      false
    else
      var rest := Contains(s[1..], sub);
      assert forall j :: OccursAt(s[1..], sub, j) <==> OccursAt(s, sub, j + 1) by {
        forall j ensures OccursAt(s[1..], sub, j) <==> OccursAt(s, sub, j + 1) {
          if 0 <= j && j + |sub| <= |s| - 1 { assert s[1..][j..j + |sub|] == s[j + 1..j + 1 + |sub|]; }
        }
      }
      assert rest ==> exists i :: OccursAt(s, sub, i) by {
        if rest { var j :| OccursAt(s[1..], sub, j); assert OccursAt(s, sub, j + 1); }
      }
      assert (exists i :: OccursAt(s, sub, i)) ==> rest by {
        if exists i :: OccursAt(s, sub, i) {
          var i :| OccursAt(s, sub, i);
          assert i != 0;
          assert OccursAt(s[1..], sub, i - 1);
        }
      }
      rest
  }

  /** The characters `String.prototype.trim` removes: ECMAScript WhiteSpace and LineTerminator. */
  predicate IsWhitespace(c: char) {
    c == '\t' || c == '\n' || c == '\U{000B}' || c == '\U{000C}' || c == '\r' || c == ' '
    || c == '\U{00A0}' || c == '\U{1680}' || ('\U{2000}' <= c <= '\U{200A}')
    || c == '\U{2028}' || c == '\U{2029}' || c == '\U{202F}' || c == '\U{205F}' || c == '\U{3000}'
    || c == '\U{FEFF}'
  }

  /** Every character of `s` is white space (this includes the empty string). */
  ghost predicate Blank(s: string) {
    forall i :: 0 <= i < |s| ==> IsWhitespace(s[i])
  }

  function TrimStart(s: string): (r: string)
    ensures |r| <= |s| && r == s[|s| - |r|..]
    ensures Blank(s[..|s| - |r|])
    ensures r == "" || !IsWhitespace(r[0])
  {
    if |s| > 0 && IsWhitespace(s[0]) then
      var r := TrimStart(s[1..]);
      assert s[..|s| - |r|] == [s[0]] + s[1..][..|s| - 1 - |r|];
      r
    else s
  }

  function TrimEnd(s: string): (r: string)
    ensures |r| <= |s| && r == s[..|r|]
    ensures Blank(s[|r|..])
    ensures r == "" || !IsWhitespace(r[|r| - 1])
  {
    if |s| > 0 && IsWhitespace(s[|s| - 1]) then
      var r := TrimEnd(s[..|s| - 1]);
      assert s[|r|..] == s[..|s| - 1][|r|..] + [s[|s| - 1]];
      r
    else s
  }

  /** `r` is what is left of `s` once its first `i` characters and everything after `r`, both
      white space, are cut away; `r` itself neither starts nor ends with white space. */
  ghost predicate TrimmedAt(s: string, i: int, r: string) {
    0 <= i && i + |r| <= |s| && r == s[i..i + |r|] && Blank(s[..i]) && Blank(s[i + |r|..])
    && (r == "" || (!IsWhitespace(r[0]) && !IsWhitespace(r[|r| - 1])))
  }

  /** `s.trim()`: the part of `s` left between its leading white space (the `|s| - |TrimStart(s)|`
      characters `TrimStart` removes) and its trailing white space. */
  function Trim(s: string): (r: string)
    ensures TrimmedAt(s, |s| - |TrimStart(s)|, r)
  {
    var t := TrimStart(s);
    var r := TrimEnd(t);
    MiddleOfTrims(s, t, r);
    r
  }

  /** Cutting a white-space start off `s` and then a white-space end off the rest leaves a middle
      part of `s`. */
  lemma MiddleOfTrims(s: string, t: string, r: string)
    requires |t| <= |s| && t == s[|s| - |t|..] && Blank(s[..|s| - |t|]) && (t == "" || !IsWhitespace(t[0]))
    requires |r| <= |t| && r == t[..|r|] && Blank(t[|r|..]) && (r == "" || !IsWhitespace(r[|r| - 1]))
    ensures TrimmedAt(s, |s| - |t|, r)
  {
    var i := |s| - |t|;
    assert s[i..i + |r|] == t[..|r|];
    assert s[i + |r|..] == t[|r|..];
    assert r != "" ==> r[0] == t[0];
  }

  /** A string trims to "" exactly when it consists of white space only. */
  lemma TrimEmptyIffBlank(s: string)
    ensures Trim(s) == "" <==> Blank(s)
  {
    var t := TrimStart(s);
    if Trim(s) == "" {
      assert Blank(t[0..]);
      assert t == "";
      assert s[..|s| - |t|] == s;
    }
  }

  /** `c.toLowerCase()` restricted to ASCII letters. */
  function LowerChar(c: char): char {
    if 'A' <= c <= 'Z' then (c as int + 32) as char else c
  }

  /** `s.toLowerCase()` (ASCII letters only). */
  function ToLower(s: string): (r: string)
    ensures |r| == |s|
    ensures forall i :: 0 <= i < |s| ==> r[i] == LowerChar(s[i])
  {
    if s == [] then [] else [LowerChar(s[0])] + ToLower(s[1..])
  }

  /** Every character is a decimal digit. */
  predicate IsDigits(s: string) {
    forall i :: 0 <= i < |s| ==> '0' <= s[i] <= '9'
  }

  /** The number a string of decimal digits denotes, most significant digit first (Horner's rule). */
  function DigitsValue(s: string): nat
    requires IsDigits(s)
  {
    if s == [] then 0 else DigitsValue(s[..|s| - 1]) * 10 + (s[|s| - 1] as int - '0' as int)
  }

  /** The canonical spelling: a single digit, or no leading zero. */
  predicate Canonical(s: string) {
    |s| == 1 || (|s| > 1 && s[0] != '0')
  }

  /** Decimal digits of a natural number, most significant first: the canonical digit string that
      denotes `n`. */
  function NatToString(n: nat): (r: string)
    ensures IsDigits(r) && Canonical(r)
    ensures DigitsValue(r) == n
  {
    if n < 10 then
      var r := [('0' as int + n) as char];
      assert r[..0] == [];
      r
    else
      var high := NatToString(n / 10);
      var r := high + [('0' as int + n % 10) as char];
      assert r[..|r| - 1] == high;
      assert |high| == 1 ==> high[0] != '0' by {
        if |high| == 1 { assert high[..0] == []; }
      }
      r
  }

  /** A canonical digit string starting with a non-zero digit denotes a positive number. */
  lemma {:induction false} LeadingDigitPositive(s: string)
    requires IsDigits(s) && |s| >= 1 && s[0] != '0'
    ensures DigitsValue(s) >= 1
    decreases |s|
  {
    if |s| == 1 {
      assert s[..0] == [];
    } else {
      var high := s[..|s| - 1];
      assert high[0] == s[0];
      LeadingDigitPositive(high);
    }
  }

  /** Every canonical digit string is the spelling of the number it denotes, so the spelling is a
      bijection between the naturals and the canonical digit strings. */
  lemma {:induction false} DigitsRoundTrip(s: string)
    requires IsDigits(s) && Canonical(s)
    ensures NatToString(DigitsValue(s)) == s
    decreases |s|
  {
    if |s| == 1 {
      assert s[..0] == [];
    } else {
      var high := s[..|s| - 1];
      var d := s[|s| - 1] as int - '0' as int;
      assert high[0] == s[0];
      LeadingDigitPositive(high);
      assert Canonical(high);
      DigitsRoundTrip(high);
      var v := DigitsValue(s);
      assert v == DigitsValue(high) * 10 + d;
      assert v / 10 == DigitsValue(high) && v % 10 == d;
      assert s == high + [s[|s| - 1]];
    }
  }

  /** `n.toString()` for an integer: a minus sign exactly for a negative number, then the canonical
      digits of its magnitude. */
  function IntToString(n: int): (r: string)
    ensures |r| >= 1
    ensures r[0] == '-' <==> n < 0
    ensures n >= 0 ==> IsDigits(r) && Canonical(r) && DigitsValue(r) == n
    ensures n < 0 ==> IsDigits(r[1..]) && Canonical(r[1..]) && DigitsValue(r[1..]) == -n
  {
    if n >= 0 then
      var r := NatToString(n);
      assert r[0] != '-';
      r
    else
      var r := "-" + NatToString(-n);
      assert r[1..] == NatToString(-n);
      r
  }

  /** Different integers have different texts. */
  lemma IntToStringInjective(m: int, n: int)
    requires IntToString(m) == IntToString(n)
    ensures m == n
  {
    if m < 0 {
      assert IntToString(m)[1..] == IntToString(n)[1..];
    }
  }

  /** `path` without its trailing slashes: the API client's `clean` of a configured URL, and the
      part of a location every route pattern looks at, since each accepts any number of trailing
      slashes. */
  function TrimTrailingSlashes(path: string): (r: string)
    ensures |r| <= |path| && r == path[..|r|]
    ensures forall i :: |r| <= i < |path| ==> path[i] == '/'
    ensures r == "" || r[|r| - 1] != '/'
    decreases |path|
  {
    if path != [] && path[|path| - 1] == '/' then TrimTrailingSlashes(path[..|path| - 1]) else path
  }

  /** The trimmed path is the only prefix that leaves nothing but slashes and does not itself end
      in one. */
  lemma TrimUnique(path: string, q: string)
    requires |q| <= |path| && q == path[..|q|]
    requires forall i :: |q| <= i < |path| ==> path[i] == '/'
    requires q == "" || q[|q| - 1] != '/'
    ensures TrimTrailingSlashes(path) == q
  {
    var p := TrimTrailingSlashes(path);
    assert p == "" || path[|p| - 1] != '/';
    assert q == "" || path[|q| - 1] != '/';
    assert |p| == |q|;
  }

  /** Trimming an already trimmed string changes nothing. */
  lemma TrimTrailingSlashesIdempotent(path: string)
    ensures TrimTrailingSlashes(TrimTrailingSlashes(path)) == TrimTrailingSlashes(path)
  {
    var r := TrimTrailingSlashes(path);
    assert r == "" || r[|r| - 1] != '/';
  }

  /** A string that does not end in "/" is its own trimmed form. */
  lemma UnslashedIsTrimmed(path: string)
    requires path == "" || path[|path| - 1] != '/'
    ensures TrimTrailingSlashes(path) == path
  {
  }
}
