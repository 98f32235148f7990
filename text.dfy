/**
 * The string conversions the extractor applies to the text of a product card:
 * Python's `str.replace` for the non-breaking space and the dollar sign,
 * `str.split()` with no separator, `int(...)` on a token, and `str(...)` on an
 * integer (what the CSV writer emits for an integer field).
 */
module Text {
  import opened Wrappers

  /** U+00A0, the non-breaking space the description text carries. */
  const Nbsp: char := '\U{A0}'

  // ---------------------------------------------------------------------------
  // Description: every U+00A0 becomes a plain space

  function ReplaceNbsp(s: string): (r: string)
    ensures |r| == |s|
    ensures forall i :: 0 <= i < |s| ==> r[i] == (if s[i] == Nbsp then ' ' else s[i])
    ensures Nbsp !in r
  {
    if s == [] then [] else [if s[0] == Nbsp then ' ' else s[0]] + ReplaceNbsp(s[1..])
  }

  /** Text without a non-breaking space is left as it is; so the replacement is idempotent. */
  lemma ReplaceNbspKeepsClean(s: string)
    requires Nbsp !in s
    ensures ReplaceNbsp(s) == s
  {
    assert forall i :: 0 <= i < |s| ==> ReplaceNbsp(s)[i] == s[i];
  }

  // ---------------------------------------------------------------------------
  // Price: every '$' is deleted, wherever it stands

  function RemoveDollars(s: string): (r: string)
    ensures '$' !in r
    ensures |r| <= |s|
    ensures forall c :: c != '$' ==> multiset(r)[c] == multiset(s)[c]
  {
    if s == [] then []
    else
      assert s == [s[0]] + s[1..];
      (if s[0] == '$' then [] else [s[0]]) + RemoveDollars(s[1..])
  }

  /** The deletion works piece by piece: the characters that stay keep their order. */
  lemma {:induction false} RemoveDollarsAppend(a: string, b: string)
    ensures RemoveDollars(a + b) == RemoveDollars(a) + RemoveDollars(b)
  {
    if a != [] {
      calc {
        RemoveDollars(a + b);
        { assert (a + b)[0] == a[0] && (a + b)[1..] == a[1..] + b; }
        (if a[0] == '$' then [] else [a[0]]) + RemoveDollars(a[1..] + b);
        { RemoveDollarsAppend(a[1..], b); }
        (if a[0] == '$' then [] else [a[0]]) + (RemoveDollars(a[1..]) + RemoveDollars(b));
        ((if a[0] == '$' then [] else [a[0]]) + RemoveDollars(a[1..])) + RemoveDollars(b);
        RemoveDollars(a) + RemoveDollars(b);
      }
    } else {
      assert a + b == b;
    }
  }

  /** Text without a dollar sign is left as it is. */
  lemma {:induction false} RemoveDollarsKeepsClean(s: string)
    requires '$' !in s
    ensures RemoveDollars(s) == s
  {
    if s != [] {
      RemoveDollarsKeepsClean(s[1..]);
    }
  }

  // ---------------------------------------------------------------------------
  // Whitespace splitting, as `str.split()` with no argument

  /** The characters `str.split()` treats as whitespace. */
  predicate IsSpace(c: char) {
    ('\t' <= c <= '\r') || ('\U{1C}' <= c <= '\U{1F}') || c == ' ' || c == '\U{85}' || c == Nbsp
    || c == '\U{1680}' || ('\U{2000}' <= c <= '\U{200A}') || c == '\U{2028}' || c == '\U{2029}'
    || c == '\U{202F}' || c == '\U{205F}' || c == '\U{3000}'
  }

  predicate NoSpace(s: string) {
    forall i :: 0 <= i < |s| ==> !IsSpace(s[i])
  }

  /** `s` without its leading whitespace. */
  function TrimStart(s: string): (r: string)
    ensures |r| <= |s| && r == s[|s| - |r|..]
    ensures forall i :: 0 <= i < |s| - |r| ==> IsSpace(s[i])
    ensures r != [] ==> !IsSpace(r[0])
  {
    if s != [] && IsSpace(s[0]) then TrimStart(s[1..]) else s
  }

  /** The longest prefix of `s` that holds no whitespace. */
  function Token(s: string): (t: string)
    ensures |t| <= |s| && t == s[..|t|]
    ensures NoSpace(t)
    ensures |t| < |s| ==> IsSpace(s[|t|])
  {
    if s == [] || IsSpace(s[0]) then [] else [s[0]] + Token(s[1..])
  }

  /** A non-empty run of non-whitespace characters. */
  predicate IsWord(w: string) {
    w != [] && NoSpace(w)
  }

  /** The words of `s`: maximal runs of non-whitespace, left to right. */
  function Split(s: string): (words: seq<string>)
    ensures forall i :: 0 <= i < |words| ==> IsWord(words[i])
    decreases |s|
  {
    var rest := TrimStart(s);
    if rest == [] then []
    else
      var w := Token(rest);
      TokenOfTrimmedIsWord(rest);
      var tail := rest[|w|..];
      assert |tail| < |s|;
      [w] + Split(tail)
  }

  lemma TokenOfTrimmedIsWord(s: string)
    requires s != [] && !IsSpace(s[0])
    ensures IsWord(Token(s))
  {
  }

  /** `s` with every whitespace character dropped. */
  function RemoveSpaces(s: string): string {
    if s == [] then [] else (if IsSpace(s[0]) then [] else [s[0]]) + RemoveSpaces(s[1..])
  }

  function Concat(words: seq<string>): string {
    if words == [] then [] else words[0] + Concat(words[1..])
  }

  lemma {:induction false} RemoveSpacesAppend(a: string, b: string)
    ensures RemoveSpaces(a + b) == RemoveSpaces(a) + RemoveSpaces(b)
  {
    if a != [] {
      calc {
        RemoveSpaces(a + b);
        { assert (a + b)[0] == a[0] && (a + b)[1..] == a[1..] + b; }
        (if IsSpace(a[0]) then [] else [a[0]]) + RemoveSpaces(a[1..] + b);
        { RemoveSpacesAppend(a[1..], b); }
        (if IsSpace(a[0]) then [] else [a[0]]) + (RemoveSpaces(a[1..]) + RemoveSpaces(b));
        ((if IsSpace(a[0]) then [] else [a[0]]) + RemoveSpaces(a[1..])) + RemoveSpaces(b);
        RemoveSpaces(a) + RemoveSpaces(b);
      }
    } else {
      assert a + b == b;
    }
  }

  lemma {:induction false} RemoveSpacesOfWord(s: string)
    requires NoSpace(s)
    ensures RemoveSpaces(s) == s
  {
    if s != [] {
      RemoveSpacesOfWord(s[1..]);
    }
  }

  lemma ConcatCons(w: string, words: seq<string>)
    ensures Concat([w] + words) == w + Concat(words)
  {
    assert ([w] + words)[1..] == words;
  }

  lemma {:induction false} RemoveSpacesOfTrimStart(s: string)
    ensures RemoveSpaces(TrimStart(s)) == RemoveSpaces(s)
  {
    if s != [] && IsSpace(s[0]) {
      RemoveSpacesOfTrimStart(s[1..]);
      assert RemoveSpaces(s) == [] + RemoveSpaces(s[1..]);
    }
  }

  lemma RemoveSpacesOfToken(s: string)
    ensures RemoveSpaces(s) == Token(s) + RemoveSpaces(s[|Token(s)|..])
  {
    var w := Token(s);
    assert s == w + s[|w|..];
    RemoveSpacesAppend(w, s[|w|..]);
    RemoveSpacesOfWord(w);
  }

  /** Splitting loses nothing but whitespace: the words, put back together, are `s` without its whitespace. */
  lemma {:induction false} SplitLosesOnlySpaces(s: string)
    ensures Concat(Split(s)) == RemoveSpaces(s)
    decreases |s|
  {
    var rest := TrimStart(s);
    RemoveSpacesOfTrimStart(s);
    if rest != [] {
      var w := Token(rest);
      var tail := rest[|w|..];
      assert Split(s) == [w] + Split(tail);
      RemoveSpacesOfToken(rest);
      SplitLosesOnlySpaces(tail);
      ConcatCons(w, Split(tail));
    }
  }

  /** `s` has no words exactly when it is all whitespace (the empty text included). */
  lemma SplitEmptyIffBlank(s: string)
    ensures Split(s) == [] <==> forall i :: 0 <= i < |s| ==> IsSpace(s[i])
  {
    var rest := TrimStart(s);
    if rest != [] {
      assert IsSpace(s[|s| - |rest|]) == IsSpace(rest[0]);
    }
  }

  /** The first word of `s`, as `s.split()[0]`; None where that raises IndexError. */
  function FirstWord(s: string): Option<string> {
    var words := Split(s);
    if words == [] then None else Some(words[0])
  }

  /** The number of whitespace characters before the first word. */
  function LeadingSpaces(s: string): nat {
    |s| - |TrimStart(s)|
  }

  /** There is no first word exactly when the text is all whitespace (the empty text included). */
  lemma NoFirstWordIffBlank(s: string)
    ensures FirstWord(s).None? <==> forall i :: 0 <= i < |s| ==> IsSpace(s[i])
  {
    SplitEmptyIffBlank(s);
  }

  /**
   * `w` sits in `s` after `k` characters, all of them whitespace, and is
   * followed by the end of the text or by whitespace.
   */
  predicate WordAt(s: string, k: nat, w: string) {
    && k + |w| <= |s|
    && (forall i :: 0 <= i < k ==> IsSpace(s[i]))
    && s[k..k + |w|] == w
    && (k + |w| == |s| || IsSpace(s[k + |w|]))
  }

  /**
   * Where the first word sits: after `LeadingSpaces(s)` characters of
   * whitespace. (That it is non-empty and free of whitespace is `Split`'s
   * contract.)
   */
  lemma FirstWordPosition(s: string)
    requires FirstWord(s).Some?
    ensures WordAt(s, LeadingSpaces(s), FirstWord(s).value)
  {
    FirstWordIsToken(s);
    TrimmedTokenPosition(s);
  }

  /** The same, for the first token of the text with its leading whitespace dropped. */
  lemma TrimmedTokenPosition(s: string)
    ensures WordAt(s, LeadingSpaces(s), Token(TrimStart(s)))
  {
    var t := TrimStart(s);
    var k := |s| - |t|;
    assert s[k..] == t;
    TokenPlacement(s, k);
  }

  lemma FirstWordIsToken(s: string)
    requires FirstWord(s).Some?
    ensures TrimStart(s) != [] && FirstWord(s).value == Token(TrimStart(s))
  {
    var rest := TrimStart(s);
    var w := Token(rest);
    assert Split(s) == [w] + Split(rest[|w|..]);
  }

  /** The token at `k`, after `k` characters of whitespace, sits at `k`. */
  lemma TokenPlacement(s: string, k: nat)
    requires k <= |s| && forall i :: 0 <= i < k ==> IsSpace(s[i])
    ensures WordAt(s, k, Token(s[k..]))
  {
    var w := Token(s[k..]);
    assert s[k..][..|w|] == s[k..k + |w|];
    if k + |w| < |s| {
      assert s[k + |w|] == s[k..][|w|];
    }
  }

  // ---------------------------------------------------------------------------
  // Integers: `int(token)` and `str(n)`

  predicate IsDigit(c: char) { '0' <= c <= '9' }

  function DigitValue(c: char): (d: nat)
    ensures d < 10
  {
    if IsDigit(c) then c as int - '0' as int else 0
  }

  function DigitChar(d: nat): (c: char)
    requires d < 10
    ensures IsDigit(c) && DigitValue(c) == d
  {
    ('0' as int + d) as char
  }

  /**
   * An unsigned literal `int` accepts: ASCII digits, where a single underscore
   * may stand between two digits (not first, not last, never two in a row).
   */
  predicate IsNumeral(s: string) {
    |s| > 0 && IsDigit(s[0]) && IsDigit(s[|s| - 1]) &&
    (forall i :: 0 <= i < |s| ==> IsDigit(s[i]) || s[i] == '_') &&
    (forall i :: 0 < i < |s| && s[i] == '_' ==> s[i - 1] != '_')
  }

  /** The value of a numeral, read in base ten with the underscores skipped. */
  function NumeralValue(s: string): nat {
    if s == [] then 0
    else if s[|s| - 1] == '_' then NumeralValue(s[..|s| - 1])
    else 10 * NumeralValue(s[..|s| - 1]) + DigitValue(s[|s| - 1])
  }

  /** `int(t)` on a token that holds no whitespace: an optional sign, then a numeral; None where it raises ValueError. */
  function ParseInt(t: string): Option<int> {
    if |t| > 0 && (t[0] == '-' || t[0] == '+') then
      if IsNumeral(t[1..]) then
        var v: int := NumeralValue(t[1..]);
        Some(if t[0] == '-' then -v else v)
      else None
    else if IsNumeral(t) then Some(NumeralValue(t))
    else None
  }

  /** `str(n)` for a natural number: its decimal digits, most significant first. */
  function NatToString(n: nat): (s: string)
    ensures |s| > 0
    ensures forall i :: 0 <= i < |s| ==> IsDigit(s[i])
  {
    if n < 10 then [DigitChar(n)] else NatToString(n / 10) + [DigitChar(n % 10)]
  }

  /** `str(n)` for an integer: a minus sign before the digits of a negative one. */
  function IntToString(n: int): string {
    if n < 0 then "-" + NatToString(-n) else NatToString(n)
  }

  lemma {:induction false} NatToStringIsNumeral(n: nat)
    ensures IsNumeral(NatToString(n)) && NumeralValue(NatToString(n)) == n
  {
    var s := NatToString(n);
    if n >= 10 {
      NatToStringIsNumeral(n / 10);
      assert s[..|s| - 1] == NatToString(n / 10);
    }
  }

  /** Reading back what `str` wrote gives the same integer. */
  lemma ParseIntRoundTrip(n: int)
    ensures ParseInt(IntToString(n)) == Some(n)
  {
    if n < 0 {
      var d := NatToString(-n);
      NatToStringIsNumeral(-n);
      assert IntToString(n) == "-" + d;
      assert ("-" + d)[1..] == d;
    } else {
      var d := NatToString(n);
      NatToStringIsNumeral(n);
      assert IsDigit(d[0]);
    }
  }

  lemma {:induction false} TokenOfWord(w: string, rest: string)
    requires NoSpace(w)
    requires rest == [] || IsSpace(rest[0])
    ensures Token(w + rest) == w
  {
    if w == [] {
      assert w + rest == rest;
    } else {
      assert (w + rest)[1..] == w[1..] + rest;
      TokenOfWord(w[1..], rest);
    }
  }

  lemma FirstWordOfWord(w: string, rest: string)
    requires IsWord(w)
    requires rest == [] || IsSpace(rest[0])
    ensures FirstWord(w + rest) == Some(w)
  {
    var s := w + rest;
    assert TrimStart(s) == s;
    TokenOfWord(w, rest);
    assert Split(s) == [w] + Split(s[|w|..]);
  }

  lemma IntToStringIsWord(n: int)
    ensures IsWord(IntToString(n))
  {
    if n < 0 {
      assert forall i :: 1 <= i < |IntToString(n)| ==> IntToString(n)[i] == NatToString(-n)[i - 1];
    }
  }

  /**
   * A review text that starts with a number, followed by nothing or by
   * whitespace and anything at all, reads as that number.
   */
  lemma LeadingNumberIsRead(n: int, rest: string)
    requires rest == [] || IsSpace(rest[0])
    ensures FirstWord(IntToString(n) + rest) == Some(IntToString(n))
    ensures ParseInt(FirstWord(IntToString(n) + rest).value) == Some(n)
  {
    IntToStringIsWord(n);
    FirstWordOfWord(IntToString(n), rest);
    ParseIntRoundTrip(n);
  }

  /** A price written as a dollar sign before a number reads as the number. */
  lemma DollarPrefixRemoved(t: string)
    requires '$' !in t
    ensures RemoveDollars("$" + t) == t
  {
    RemoveDollarsAppend("$", t);
    RemoveDollarsKeepsClean(t);
  }

  /** A token with a character that is neither a digit, a sign nor an underscore is refused. */
  lemma ParseIntRejectsStray(t: string, i: nat)
    requires i < |t| && !IsDigit(t[i]) && t[i] != '_' && t[i] != '-' && t[i] != '+'
    ensures ParseInt(t) == None
  {
    if t[0] == '-' || t[0] == '+' {
      assert t[1..][i - 1] == t[i];
    }
  }
}
