/**
 * Text helpers the handlers rely on: Python's `str.strip()`, the payment-reference
 * pattern `^[A-Za-z0-9\-_]{4,20}$`, Python's `int()` on a command argument, the decimal
 * rendering of a chat id, and `' '.join(args)`.
 */
module Text {
  import opened Wrappers

  /** The characters for which Python's `str.isspace()` holds; `strip()` removes exactly these. */
  predicate IsSpace(c: char) {
    c == ' ' || ('\t' <= c <= '\r') || ('\U{1C}' <= c <= '\U{1F}') || c == '\U{85}' || c == '\U{A0}'
    || c == '\U{1680}' || ('\U{2000}' <= c <= '\U{200A}') || c == '\U{2028}' || c == '\U{2029}'
    || c == '\U{202F}' || c == '\U{205F}' || c == '\U{3000}'
  }

  function StripLeft(s: string): string {
    if |s| > 0 && IsSpace(s[0]) then StripLeft(s[1..]) else s
  }

  function StripRight(s: string): string {
    if |s| > 0 && IsSpace(s[|s| - 1]) then StripRight(s[..|s| - 1]) else s
  }

  /** `s.strip()`. */
  function Strip(s: string): string {
    StripRight(StripLeft(s))
  }

  /** StripLeft removes a prefix made only of spaces and stops at a non-space. */
  lemma {:induction false} StripLeftShape(s: string)
    ensures |StripLeft(s)| <= |s| && StripLeft(s) == s[|s| - |StripLeft(s)|..]
    ensures forall k :: 0 <= k < |s| - |StripLeft(s)| ==> IsSpace(s[k])
    ensures StripLeft(s) != [] ==> !IsSpace(StripLeft(s)[0])
  {
    if |s| > 0 && IsSpace(s[0]) {
      StripLeftShape(s[1..]);
    }
  }

  /** StripRight removes a suffix made only of spaces and stops at a non-space. */
  lemma {:induction false} StripRightShape(s: string)
    ensures |StripRight(s)| <= |s| && StripRight(s) == s[..|StripRight(s)|]
    ensures forall k :: |StripRight(s)| <= k < |s| ==> IsSpace(s[k])
    ensures StripRight(s) != [] ==> !IsSpace(StripRight(s)[|StripRight(s)| - 1])
  {
    if |s| > 0 && IsSpace(s[|s| - 1]) {
      StripRightShape(s[..|s| - 1]);
    }
  }

  /**
   * `strip()` keeps a contiguous middle part of its input, drops only spaces around it,
   * and leaves no space at either end.
   */
  lemma StripShape(s: string)
    ensures var t, i := Strip(s), |s| - |StripLeft(s)|;
      0 <= i && i + |t| <= |s| && t == s[i..i + |t|]
        && (forall k :: 0 <= k < i ==> IsSpace(s[k]))
        && (forall k :: i + |t| <= k < |s| ==> IsSpace(s[k]))
    ensures Strip(s) != [] ==> !IsSpace(Strip(s)[0]) && !IsSpace(Strip(s)[|Strip(s)| - 1])
  {
    var l := StripLeft(s);
    StripLeftShape(s);
    StripRightShape(l);
    var i := |s| - |l|;
    var t := Strip(s);
    assert t == s[i..i + |t|];
    forall k | i + |t| <= k < |s| ensures IsSpace(s[k]) {
      assert s[k] == l[k - i];
    }
  }

  /** A string with no space at either end is its own strip. */
  lemma {:induction false} StripNoEdgeSpaces(s: string)
    requires s != [] ==> !IsSpace(s[0]) && !IsSpace(s[|s| - 1])
    ensures Strip(s) == s
  {
  }

  /** Stripping twice is stripping once. */
  lemma StripIdempotent(s: string)
    ensures Strip(Strip(s)) == Strip(s)
  {
    StripShape(s);
    StripNoEdgeSpaces(Strip(s));
  }

  /** The character class `[A-Za-z0-9\-_]` (ASCII only, as in Python's `re`). */
  predicate IsReferenceChar(c: char) {
    ('A' <= c <= 'Z') || ('a' <= c <= 'z') || ('0' <= c <= '9') || c == '-' || c == '_'
  }

  /** `re.match(r'^[A-Za-z0-9\-_]{4,20}$', text.strip())` succeeds. */
  predicate LooksLikePaymentReference(text: string) {
    var t := Strip(text);
    4 <= |t| <= 20 && forall i :: 0 <= i < |t| ==> IsReferenceChar(t[i])
  }

  /** A text that contains a character outside the class, away from its edges, is never a reference. */
  lemma NotReferenceWhenForeignChar(text: string, k: nat)
    requires text != [] && !IsSpace(text[0]) && !IsSpace(text[|text| - 1])
    requires k < |text| && !IsReferenceChar(text[k])
    ensures !LooksLikePaymentReference(text)
  {
    StripNoEdgeSpaces(text);
  }

  predicate IsDigit(c: char) {
    '0' <= c <= '9'
  }

  /** Digits with single underscores between them, as Python's `int()` accepts them. */
  predicate WellFormedDigits(s: string) {
    |s| > 0 && IsDigit(s[0]) && IsDigit(s[|s| - 1])
    && forall i :: 0 <= i < |s| ==> IsDigit(s[i]) || (s[i] == '_' && i + 1 < |s| && IsDigit(s[i + 1]))
  }

  /** The number the digits of `s` spell, underscores skipped. */
  function DigitsValue(s: string): nat {
    if s == [] then 0
    else
      var init := DigitsValue(s[..|s| - 1]);
      var c := s[|s| - 1];
      if IsDigit(c) then init * 10 + (c as int - '0' as int) else init
  }

  /**
   * Python's `int(arg)` for an argument the chat library split on whitespace: an optional
   * sign followed by well-formed digits; anything else raises ValueError (None).
   */
  function ParseInt(s: string): Option<int> {
    if |s| > 0 && (s[0] == '+' || s[0] == '-') then
      if WellFormedDigits(s[1..]) then
        var v: int := DigitsValue(s[1..]);
        Some(if s[0] == '-' then -v else v)
      else None
    else if WellFormedDigits(s) then Some(DigitsValue(s))
    else None
  }

  function DigitChar(d: nat): char
    requires d < 10
  {
    ('0' as int + d) as char
  }

  /** Decimal digits of a natural number, as an f-string renders it. */
  function ShowNat(n: nat): string {
    if n < 10 then [DigitChar(n)] else ShowNat(n / 10) + [DigitChar(n % 10)]
  }

  /** Decimal rendering of an integer chat id, with a leading '-' when negative. */
  function ShowInt(n: int): string {
    if n < 0 then "-" + ShowNat(-n) else ShowNat(n)
  }

  lemma {:induction false} ShowNatDigits(n: nat)
    ensures |ShowNat(n)| > 0
    ensures forall i :: 0 <= i < |ShowNat(n)| ==> IsDigit(ShowNat(n)[i])
    ensures DigitsValue(ShowNat(n)) == n
  {
    if n >= 10 {
      ShowNatDigits(n / 10);
      var s := ShowNat(n);
      assert s[..|s| - 1] == ShowNat(n / 10);
    }
  }

  /** A rendered chat id parses back to the same id: `int(f"{chat_id}") == chat_id`. */
  lemma ParseShowRoundTrip(n: int)
    ensures ParseInt(ShowInt(n)) == Some(n)
  {
    var m := if n < 0 then -n else n;
    ShowNatDigits(m);
    var s := ShowInt(n);
    if n < 0 {
      assert s[1..] == ShowNat(m);
    }
  }

  /** `' '.join(words)`. */
  function Join(words: seq<string>): string {
    if |words| == 0 then ""
    else if |words| == 1 then words[0]
    else words[0] + " " + Join(words[1..])
  }
}
