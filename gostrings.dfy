/** The Go standard-library string helpers the core relies on:
    `strings.TrimSpace`, `strings.ToLower`, `strings.ToUpper`,
    `strings.TrimPrefix`, `strconv.ParseInt(s, 0, 64)` (what viper's
    `GetInt` applies to an environment string) and `%d` formatting. */
module GoStrings {
  import opened Base

  // ---------------------------------------------------------------------
  // Whitespace (unicode.IsSpace) and strings.TrimSpace
  // ---------------------------------------------------------------------

  /** The runes Go's `unicode.IsSpace` accepts. */
  predicate IsSpace(c: char) {
    || c == ' ' || c == '\t' || c == '\n' || c == '\U{000B}' || c == '\U{000C}' || c == '\r'
    || c == '\U{0085}' || c == '\U{00A0}' || c == '\U{1680}'
    || ('\U{2000}' <= c <= '\U{200A}')
    || c == '\U{2028}' || c == '\U{2029}' || c == '\U{202F}' || c == '\U{205F}' || c == '\U{3000}'
  }

  predicate AllSpace(s: string) {
    forall i | 0 <= i < |s| :: IsSpace(s[i])
  }

  /** Neither end of `s` is a space. */
  predicate Trimmed(s: string) {
    s != [] ==> !IsSpace(s[0]) && !IsSpace(s[|s| - 1])
  }

  /** Drops the leading run of spaces. */
  function TrimLeft(s: string): (r: string)
    ensures |r| <= |s| && r == s[|s| - |r|..]
    ensures r != [] ==> !IsSpace(r[0])
  {
    if s != [] && IsSpace(s[0]) then TrimLeft(s[1..]) else s
  }

  /** Drops the trailing run of spaces. */
  function TrimRight(s: string): (r: string)
    ensures |r| <= |s| && r == s[..|r|]
    ensures r != [] ==> !IsSpace(r[|r| - 1])
  {
    if s != [] && IsSpace(s[|s| - 1]) then TrimRight(s[..|s| - 1]) else s
  }

  /** `strings.TrimSpace`: no space is left at either end. */
  function TrimSpace(s: string): (r: string)
    ensures Trimmed(r) && |r| <= |s|
  {
    var l := TrimLeft(s);
    var r := TrimRight(l);
    assert r != [] ==> r[0] == l[0];
    r
  }

  /** What `TrimLeft` drops is space. */
  lemma {:induction false} TrimLeftDropsSpace(s: string)
    ensures forall k | 0 <= k < |s| - |TrimLeft(s)| :: IsSpace(s[k])
    decreases |s|
  {
    if s != [] && IsSpace(s[0]) {
      TrimLeftDropsSpace(s[1..]);
      assert forall k | 1 <= k < |s| :: s[k] == s[1..][k - 1];
    }
  }

  /** What `TrimRight` drops is space. */
  lemma {:induction false} TrimRightDropsSpace(s: string)
    ensures forall k | |TrimRight(s)| <= k < |s| :: IsSpace(s[k])
    decreases |s|
  {
    if s != [] && IsSpace(s[|s| - 1]) {
      var init := s[..|s| - 1];
      TrimRightDropsSpace(init);
      assert forall k | 0 <= k < |init| :: s[k] == init[k];
    }
  }

  /** A string without surrounding space is its own trimming. */
  lemma TrimSpaceOfTrimmed(s: string)
    requires Trimmed(s)
    ensures TrimSpace(s) == s
  {
  }

  /** `TrimSpace` is `TrimLeft` followed by `TrimRight`. */
  lemma TrimSpaceVia(s: string, l: string, r: string)
    requires TrimLeft(s) == l && TrimRight(l) == r
    ensures TrimSpace(s) == r
  {
  }

  /** Spaces padded on either side of a trimmed core are exactly what
      `TrimSpace` removes. */
  lemma TrimSpacePadded(pre: string, core: string, post: string)
    requires AllSpace(pre) && AllSpace(post) && Trimmed(core)
    ensures TrimSpace(pre + core + post) == core
  {
    var s := pre + core + post;
    if core == [] {
      assert s == pre + post;
      TrimLeftAllSpace(pre + post);
      TrimSpaceVia(s, [], []);
    } else {
      assert s == pre + (core + post);
      TrimLeftPadded(pre, core + post);
      TrimRightPadded(core, post);
      TrimSpaceVia(s, core + post, core);
    }
  }

  lemma {:induction false} TrimLeftAllSpace(s: string)
    requires AllSpace(s)
    ensures TrimLeft(s) == []
    decreases |s|
  {
    if s != [] {
      TrimLeftAllSpace(s[1..]);
    }
  }

  lemma {:induction false} TrimLeftPadded(pre: string, rest: string)
    requires AllSpace(pre) && (rest != [] ==> !IsSpace(rest[0]))
    ensures TrimLeft(pre + rest) == rest
    decreases |pre|
  {
    if pre != [] {
      assert (pre + rest)[1..] == pre[1..] + rest;
      TrimLeftPadded(pre[1..], rest);
    }
  }

  lemma {:induction false} TrimRightPadded(core: string, post: string)
    requires AllSpace(post) && Trimmed(core)
    ensures TrimRight(core + post) == core
    decreases |post|
  {
    if post != [] {
      var p := post[..|post| - 1];
      assert (core + post)[..|core + post| - 1] == core + p;
      TrimRightPadded(core, p);
    } else {
      assert core + post == core;
    }
  }

  /** Trimming twice is trimming once. */
  lemma TrimSpaceIdempotent(s: string)
    ensures TrimSpace(TrimSpace(s)) == TrimSpace(s)
  {
    TrimSpaceOfTrimmed(TrimSpace(s));
  }

  // ---------------------------------------------------------------------
  // Case mapping: strings.ToLower / strings.ToUpper
  // ---------------------------------------------------------------------

  predicate IsAsciiUpper(c: char) { 'A' <= c <= 'Z' }
  predicate IsAsciiLower(c: char) { 'a' <= c <= 'z' }

  /** `unicode.ToLower` on ASCII letters, plus the two non-ASCII runes
      whose Go lower case is an ASCII letter (LATIN CAPITAL LETTER I WITH
      DOT ABOVE and KELVIN SIGN). Every other rune is kept. */
  function LowerRune(c: char): (r: char)
    ensures IsAsciiUpper(c) ==> IsAsciiLower(r) && r as int == c as int + 32
    ensures !IsAsciiUpper(r)
  {
    if IsAsciiUpper(c) then (c as int + 32) as char
    else if c == '\U{0130}' then 'i'
    else if c == '\U{212A}' then 'k'
    else c
  }

  /** `unicode.ToUpper` on ASCII letters, plus the two non-ASCII runes
      whose Go upper case is an ASCII letter (LATIN SMALL LETTER DOTLESS I
      and LATIN SMALL LETTER LONG S). Every other rune is kept. */
  function UpperRune(c: char): (r: char)
    ensures IsAsciiLower(c) ==> IsAsciiUpper(r) && r as int == c as int - 32
    ensures !IsAsciiLower(r)
  {
    if IsAsciiLower(c) then (c as int - 32) as char
    else if c == '\U{0131}' then 'I'
    else if c == '\U{017F}' then 'S'
    else c
  }

  /** `strings.ToLower`: rune by rune, same length. */
  function ToLower(s: string): (r: string)
    ensures |r| == |s|
    ensures forall i | 0 <= i < |s| :: r[i] == LowerRune(s[i])
  {
    seq(|s|, i requires 0 <= i < |s| => LowerRune(s[i]))
  }

  /** `strings.ToUpper`: rune by rune, same length. */
  function ToUpper(s: string): (r: string)
    ensures |r| == |s|
    ensures forall i | 0 <= i < |s| :: r[i] == UpperRune(s[i])
  {
    seq(|s|, i requires 0 <= i < |s| => UpperRune(s[i]))
  }

  /** `word` is made of lower-case ASCII letters only. */
  predicate LowerAsciiWord(word: string) {
    forall i | 0 <= i < |word| :: IsAsciiLower(word[i])
  }

  /** `s` spells `word` in some mix of ASCII upper and lower case. */
  predicate CasingOf(s: string, word: string)
    requires LowerAsciiWord(word)
  {
    |s| == |word| && forall i | 0 <= i < |s| :: s[i] == word[i] || s[i] == UpperRune(word[i])
  }

  /** Any casing of a lower-case ASCII word lower-cases to the word and
      upper-cases to the word's upper case. */
  lemma CasingOfMaps(s: string, word: string)
    requires LowerAsciiWord(word) && CasingOf(s, word)
    ensures ToLower(s) == word
    ensures ToUpper(s) == ToUpper(word)
  {
    forall i | 0 <= i < |s|
      ensures ToLower(s)[i] == word[i] && ToUpper(s)[i] == ToUpper(word)[i]
    {
      assert IsAsciiLower(word[i]);
    }
  }

  /** Lower-casing is idempotent. */
  lemma ToLowerIdempotent(s: string)
    ensures ToLower(ToLower(s)) == ToLower(s)
  {
    var l := ToLower(s);
    forall i | 0 <= i < |s| ensures ToLower(l)[i] == l[i] {
      assert !IsAsciiUpper(l[i]);
      assert l[i] != '\U{0130}' && l[i] != '\U{212A}' by {
        var c := s[i];
        assert l[i] == LowerRune(c);
      }
    }
  }

  // ---------------------------------------------------------------------
  // strings.TrimPrefix
  // ---------------------------------------------------------------------

  /** `strings.TrimPrefix`: removes one leading occurrence of `prefix`. */
  function TrimPrefix(s: string, prefix: string): (r: string)
    ensures prefix <= s ==> prefix + r == s
    ensures !(prefix <= s) ==> r == s
  {
    if prefix <= s then s[|prefix|..] else s
  }

  /** Only one copy of the prefix is removed. */
  lemma TrimPrefixOnce(prefix: string, rest: string)
    ensures TrimPrefix(prefix + rest, prefix) == rest
  {
    assert prefix <= prefix + rest;
  }

  // ---------------------------------------------------------------------
  // strconv.ParseInt(s, 0, 64) and %d formatting
  // ---------------------------------------------------------------------

  /** The value of a digit in bases up to 36, and 36 for anything else. */
  function DigitValue(c: char): (d: nat)
    ensures d <= 36
    ensures '0' <= c <= '9' <==> d < 10
  {
    if '0' <= c <= '9' then c as int - '0' as int
    else if 'a' <= c <= 'z' then c as int - 'a' as int + 10
    else if 'A' <= c <= 'Z' then c as int - 'A' as int + 10
    else 36
  }

  /** The value of a run of digits in `base`, as the digit loop of
      `strconv.ParseUint` with base 0 reads it: `_` is skipped, any other
      character that is not a digit of the base gives `None`; the empty run
      reads as 0 (the loop simply does not run). */
  function ParseDigits(s: string, base: nat): Option<nat>
    requires 2 <= base <= 36
  {
    if s == [] then Some(0)
    else match ParseDigits(s[..|s| - 1], base)
      case None => None
      case Some(v) =>
        var c := s[|s| - 1];
        if c == '_' then Some(v)
        else
          var d := DigitValue(c);
          if d < base then Some(v * base + d) else None
  }

  /** What `underscoreOK` last saw: the start, a digit (or the base
      prefix), an underscore, or anything else. */
  datatype Saw = SawStart | SawDigit | SawUnderscore | SawOther

  /** The scan of `underscoreOK` over the number proper: an underscore
      must follow a digit and be followed by one. */
  function UnderscoreScan(s: string, saw: Saw, hex: bool): bool {
    if s == [] then saw != SawUnderscore
    else
      var c := s[0];
      if '0' <= c <= '9' || (hex && ('a' <= c <= 'f' || 'A' <= c <= 'F')) then UnderscoreScan(s[1..], SawDigit, hex)
      else if c == '_' then saw == SawDigit && UnderscoreScan(s[1..], SawUnderscore, hex)
      else if saw == SawUnderscore then false
      else UnderscoreScan(s[1..], SawOther, hex)
  }

  /** `strconv.underscoreOK`: whether the underscores of a base-0 literal
      (after an optional sign and base prefix) only separate digits. */
  function UnderscoreOK(s: string): bool {
    var body := if |s| >= 1 && (s[0] == '-' || s[0] == '+') then s[1..] else s;
    if |body| >= 2 && body[0] == '0' && body[1] in "bBoOxX" then
      UnderscoreScan(body[2..], SawDigit, body[1] == 'x' || body[1] == 'X')
    else UnderscoreScan(body, SawStart, false)
  }

  /** A trailing underscore never separates two digits. */
  lemma {:induction false} TrailingUnderscoreScan(s: string, saw: Saw, hex: bool)
    requires s != [] && s[|s| - 1] == '_'
    ensures !UnderscoreScan(s, saw, hex)
    decreases |s|
  {
    if |s| > 1 {
      var t := s[1..];
      assert t[|t| - 1] == '_';
      TrailingUnderscoreScan(t, SawDigit, hex);
      TrailingUnderscoreScan(t, SawUnderscore, hex);
      TrailingUnderscoreScan(t, SawOther, hex);
    }
  }

  /** `strconv.ParseUint` with base 0: the prefixes 0b, 0o, 0x choose
      base 2, 8 or 16, a bare leading 0 chooses octal, otherwise decimal;
      a literal with underscores must pass `underscoreOK`. */
  function ParseUintBase0(s: string): Option<nat> {
    if s == [] then None
    else
      var (base, digits) :=
        if s[0] == '0' then
          if |s| >= 3 && (s[1] == 'b' || s[1] == 'B') then (2, s[2..])
          else if |s| >= 3 && (s[1] == 'o' || s[1] == 'O') then (8, s[2..])
          else if |s| >= 3 && (s[1] == 'x' || s[1] == 'X') then (16, s[2..])
          else (8, s[1..])
        else (10, s);
      match ParseDigits(digits, base)
      case None => None
      case Some(v) => if '_' in digits && !UnderscoreOK(s) then None else Some(v)
  }

  /** `strconv.ParseInt(s, 0, 64)`: an optional sign, then `ParseUintBase0`;
      `None` for a syntax error or a value outside the int64 range. */
  function ParseInt(s: string): (r: Option<Int64>)
    ensures s == [] ==> r.None?
    ensures r.Some? && r.value < 0 ==> s[0] == '-'
  {
    if s == [] then None
    else
      var neg := s[0] == '-';
      var body := if s[0] == '+' || s[0] == '-' then s[1..] else s;
      match ParseUintBase0(body)
      case None => None
      case Some(u) =>
        var v: int := if neg then 0 - u else u;
        if InInt64(v) then Some(v) else None
  }

  /** A run of digits whose first character is not a digit of the base
      does not parse. */
  lemma {:induction false} ParseDigitsBadFirst(s: string, base: nat)
    requires 2 <= base <= 36 && s != [] && s[0] != '_' && DigitValue(s[0]) >= base
    ensures ParseDigits(s, base).None?
    decreases |s|
  {
    if |s| > 1 {
      ParseDigitsBadFirst(s[..|s| - 1], base);
    }
  }

  /** A string that starts with neither a sign nor a decimal digit is a
      syntax error. */
  lemma ParseIntNonNumeric(s: string)
    requires s != [] && !('0' <= s[0] <= '9') && s[0] != '+' && s[0] != '-'
    ensures ParseInt(s).None?
  {
    if s[0] != '_' {
      ParseDigitsBadFirst(s, 10);
    } else {
      assert !UnderscoreOK(s);
    }
  }

  /** A literal ending in an underscore is a syntax error, whatever its
      digits. */
  lemma TrailingUnderscoreRejected(s: string)
    requires s != [] && s[|s| - 1] == '_'
    ensures ParseUintBase0(s).None?
  {
    if s[0] == '-' || s[0] == '+' {
      ParseDigitsBadFirst(s, 10);
    } else if |s| >= 2 && s[0] == '0' && s[1] in "bBoOxX" {
      TrailingUnderscoreScan(s[2..], SawDigit, s[1] == 'x' || s[1] == 'X');
    } else {
      TrailingUnderscoreScan(s, SawStart, false);
    }
  }

  /** Base-0 literals may group digits with single underscores, so
      `8_080` reads as 8080, but a doubled or leading underscore is a
      syntax error. */
  lemma SeparatedDigits()
    ensures ParseInt("8_080") == Some(8080)
    ensures ParseInt("8__080").None?
    ensures ParseInt("_8080").None?
  {
    assert ParseDigits("8_", 10) == Some(8) by { assert "8_"[..1] == "8"; }
    assert ParseDigits("8_08", 10) == Some(808) by { assert "8_08"[..3] == "8_0"; assert "8_0"[..2] == "8_"; }
    assert "8_080"[..4] == "8_08";
    assert UnderscoreScan("080", SawDigit, false);
    assert UnderscoreOK("8_080");
    assert !UnderscoreOK("8__080");
  }

  function DigitChar(d: nat): (c: char)
    requires d < 10
    ensures '0' <= c <= '9' && DigitValue(c) == d
  {
    ('0' as int + d) as char
  }

  /** Decimal digits of `n`, most significant first, no leading zero. */
  function NatDigits(n: nat): (r: string)
    ensures r != []
    ensures forall i | 0 <= i < |r| :: '0' <= r[i] <= '9'
    ensures n > 0 ==> r[0] != '0'
  {
    if n < 10 then [DigitChar(n)] else NatDigits(n / 10) + [DigitChar(n % 10)]
  }

  /** `fmt.Sprintf("%d", n)`. */
  function FormatInt(n: int): (r: string)
    ensures r != []
    ensures n < 0 <==> r[0] == '-'
  {
    if n < 0 then "-" + NatDigits(-n) else NatDigits(n)
  }

  lemma {:induction false} ParseNatDigits(n: nat)
    ensures ParseDigits(NatDigits(n), 10) == Some(n)
  {
    if n >= 10 {
      ParseNatDigits(n / 10);
      var s := NatDigits(n);
      assert s[..|s| - 1] == NatDigits(n / 10);
    }
  }

  /** Formatting an int64 in decimal and parsing it back gives it back. */
  lemma ParseFormatRoundTrip(n: Int64)
    ensures ParseInt(FormatInt(n)) == Some(n)
  {
    var k: int := n;
    var m: nat := if k < 0 then -k else k;
    var digits := NatDigits(m);
    ParseNatDigits(m);
    assert digits[0] != '+' && digits[0] != '-';
    if m == 0 {
      assert digits == "0";
      assert ParseUintBase0(digits) == ParseDigits([], 8);
    }
    assert ParseUintBase0(digits) == Some(m);
    if n < 0 {
      assert FormatInt(n)[1..] == digits;
    }
  }
}
