/** The few string functions of the Go standard library the program leans on. Strings are
    sequences of characters; letter case is ASCII. */
module Text {
  import opened Options

  function TrimPrefix(s: string, prefix: string): string {
    if prefix <= s then s[|prefix|..] else s
  }

  function HasSuffix(s: string, suffix: string): bool {
    |suffix| <= |s| && s[|s| - |suffix|..] == suffix
  }

  function TrimSuffix(s: string, suffix: string): string {
    if HasSuffix(s, suffix) then s[..|s| - |suffix|] else s
  }

  function LowerChar(c: char): char {
    if 'A' <= c <= 'Z' then ((c as int) + 32) as char else c
  }

  function ToLower(s: string): string {
    seq(|s|, i requires 0 <= i < |s| => LowerChar(s[i]))
  }

  /** strings.ReplaceAll(s, " ", "-") followed by strings.ToLower. */
  function Dashed(s: string): string {
    ToLower(seq(|s|, i requires 0 <= i < |s| => if s[i] == ' ' then '-' else s[i]))
  }

  /** httputil.Slugify: dashed, and of that only letters, digits and dashes. */
  function Slugify(s: string): string { SlugChars(Dashed(s)) }

  function SlugChars(s: string): string {
    if s == "" then ""
    else (if 'a' <= s[0] <= 'z' || '0' <= s[0] <= '9' || s[0] == '-' then [s[0]] else []) + SlugChars(s[1..])
  }

  lemma LowerLetters()
    ensures ToLower("ABCDEFGHIJKLMNOPQRSTUVWXYZ") == "abcdefghijklmnopqrstuvwxyz"
  {
  }

  /** Only capitals change, and no letter moves. */
  lemma LowerChanges(s: string, i: nat)
    requires i < |s|
    ensures |ToLower(s)| == |s| == |Dashed(s)|
    ensures ToLower(s)[i] == s[i] <==> s[i] !in "ABCDEFGHIJKLMNOPQRSTUVWXYZ"
    ensures Dashed(s)[i] == if s[i] == ' ' then '-' else ToLower(s)[i]
  {
  }

  lemma PrefixTrimmed(prefix: string, s: string)
    ensures TrimPrefix(prefix + s, prefix) == s
    ensures !(prefix <= s) ==> TrimPrefix(s, prefix) == s
  {
  }

  lemma SuffixTrimmed(s: string, suffix: string)
    ensures HasSuffix(s + suffix, suffix) && TrimSuffix(s + suffix, suffix) == s
    ensures !HasSuffix(s, suffix) ==> TrimSuffix(s, suffix) == s
    ensures HasSuffix(s, suffix) ==> s == TrimSuffix(s, suffix) + suffix
  {
  }

  predicate SlugChar(c: char) { c in "abcdefghijklmnopqrstuvwxyz" || c in "0123456789" || c == '-' }

  lemma SlugCharIs(c: char)
    ensures SlugChar(c) <==> 'a' <= c <= 'z' || '0' <= c <= '9' || c == '-'
  {
  }

  /** A slug is the characters of the dashed text that may stand in one, in order. */
  lemma {:induction false} SlugKeeps(s: string, i: nat)
    requires i < |s|
    ensures SlugChars(s) == SlugChars(s[..i]) + (if SlugChar(s[i]) then [s[i]] else []) + SlugChars(s[i + 1..])
  {
    if i == 0 {
      assert s[..0] == "";
      FirstSlugChar(s);
    } else {
      SlugKeeps(s[1..], i - 1);
      SlugKeepsFirst(s, i);
      FirstSlugChar(s);
      Regrouped(if SlugChar(s[0]) then [s[0]] else [], SlugChars(s[1..][..i - 1]),
                if SlugChar(s[i]) then [s[i]] else [], SlugChars(s[i + 1..]));
    }
  }

  lemma Regrouped(a: string, b: string, c: string, d: string)
    ensures a + (b + c + d) == (a + b) + c + d
  {
  }

  lemma FirstSlugChar(s: string)
    requires s != ""
    ensures SlugChars(s) == (if SlugChar(s[0]) then [s[0]] else []) + SlugChars(s[1..])
  {
    SlugCharIs(s[0]);
  }

  lemma SlugKeepsFirst(s: string, i: nat)
    requires 0 < i < |s|
    ensures SlugChars(s[..i]) == (if SlugChar(s[0]) then [s[0]] else []) + SlugChars(s[1..][..i - 1])
    ensures s[1..][i - 1] == s[i] && s[1..][i..] == s[i + 1..]
  {
    FirstSlugChar(s[..i]);
    assert s[..i][1..] == s[1..][..i - 1];
  }

  lemma {:induction false} SlugsAreClean(s: string)
    ensures forall c :: c in SlugChars(s) ==> SlugChar(c)
  {
    if s != "" {
      SlugsAreClean(s[1..]);
      FirstSlugChar(s);
    }
  }

  // ---------------------------------------------------------------- decimal numbers

  function Digit(d: nat): char
    requires d < 10
  {
    ((('0') as int) + d) as char
  }

  predicate IsDigit(c: char) { '0' <= c <= '9' }

  function FormatNat(n: nat): string {
    if n < 10 then [Digit(n)] else FormatNat(n / 10) + [Digit(n % 10)]
  }

  /** fmt.Sprintf("%d", n). */
  function FormatInt(n: int): string {
    if n < 0 then "-" + FormatNat(-n) else FormatNat(n)
  }

  predicate AllDigits(s: string) {
    forall i :: 0 <= i < |s| ==> IsDigit(s[i])
  }

  function ParseDigits(s: string): nat
    requires AllDigits(s)
  {
    if s == "" then 0 else 10 * ParseDigits(s[..|s| - 1]) + (s[|s| - 1] as int - '0' as int)
  }

  /** strconv.Atoi: an optional sign, then one digit or more. */
  function ParseInt(s: string): Option<int> {
    if |s| > 1 && s[0] in "+-" && AllDigits(s[1..]) then
      var digits: int := ParseDigits(s[1..]);
      Some(if s[0] == '-' then -digits else digits)
    else if |s| > 0 && AllDigits(s) then Some(ParseDigits(s))
    else None
  }

  lemma {:induction false} ParseFormatNat(n: nat)
    ensures |FormatNat(n)| > 0 && AllDigits(FormatNat(n)) && ParseDigits(FormatNat(n)) == n
  {
    if n >= 10 {
      ParseFormatNat(n / 10);
      assert FormatNat(n)[..|FormatNat(n)| - 1] == FormatNat(n / 10);
    }
  }

  lemma SignedIsParsed(digits: string)
    requires digits != "" && AllDigits(digits)
    ensures var n: int := ParseDigits(digits); ParseInt("-" + digits) == Some(-n)
  {
    var s := "-" + digits;
    assert s[1..] == digits && s[0] == '-';
  }

  lemma NumbersExactlyWhen(s: string)
    ensures ParseInt(s).Some? <==>
              (s != "" && AllDigits(s)) || (|s| > 1 && (s[0] == '+' || s[0] == '-') && AllDigits(s[1..]))
  {
  }

  lemma PlusIsParsed(digits: string)
    requires digits != "" && AllDigits(digits)
    ensures ParseInt("+" + digits) == Some(ParseDigits(digits))
  {
    var s := "+" + digits;
    assert s[1..] == digits && s[0] == '+';
  }

  lemma DigitsAreParsed(digits: string)
    requires digits != "" && AllDigits(digits)
    ensures ParseInt(digits) == Some(ParseDigits(digits))
  {
    assert IsDigit(digits[0]);
  }

  /** Decimal digits, a sign only before a negative number, no zero in front of another digit. */
  lemma {:induction false} DigitsOfNat(n: nat)
    ensures FormatNat(n) == if n < 10 then ["0123456789"[n]] else FormatNat(n / 10) + ["0123456789"[n % 10]]
    ensures n > 0 ==> FormatNat(n)[0] != '0'
  {
    if n >= 10 { DigitsOfNat(n / 10); }
  }

  lemma SignOfInt(n: int)
    ensures |FormatInt(n)| > 0 && (FormatInt(n)[0] == '-' <==> n < 0)
    ensures FormatInt(n) == if n < 0 then "-" + FormatInt(-n) else FormatInt(n)
  {
    if n >= 0 { ParseFormatNat(n); }
  }

  lemma ParseFormatInt(n: int)
    ensures ParseInt(FormatInt(n)) == Some(n)
  {
    if n < 0 {
      ParseFormatNat(-n);
      SignedIsParsed(FormatNat(-n));
    } else {
      ParseFormatNat(n);
      DigitsAreParsed(FormatNat(n));
    }
  }
}
