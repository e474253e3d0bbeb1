/**
 * Python's `str.lower()` and `str.title()` restricted to ASCII, as the User
 * constructor applies them to the e-mail address and the two names.
 * Characters outside ASCII are treated as having no case and are kept as they are.
 */
module TextCase {

  predicate IsUpper(c: char) { 'A' <= c <= 'Z' }

  predicate IsLower(c: char) { 'a' <= c <= 'z' }

  /** Among ASCII characters, exactly the letters have a case. */
  predicate IsCased(c: char) { IsUpper(c) || IsLower(c) }

  function LowerChar(c: char): (d: char)
    ensures !IsUpper(d) && IsCased(d) == IsCased(c)
    ensures IsUpper(c) ==> d as int == c as int + 32
    ensures !IsUpper(c) ==> d == c
  {
    if IsUpper(c) then (c as int + 32) as char else c
  }

  function UpperChar(c: char): (d: char)
    ensures !IsLower(d) && IsCased(d) == IsCased(c)
    ensures IsLower(c) ==> d as int == c as int - 32
    ensures !IsLower(c) ==> d == c
  {
    if IsLower(c) then (c as int - 32) as char else c
  }

  /** `s.lower()`: every capital letter becomes its small letter, nothing else changes. */
  function Lower(s: string): (r: string)
    ensures |r| == |s|
    ensures forall i :: 0 <= i < |s| ==> r[i] == LowerChar(s[i])
  {
    if s == [] then [] else [LowerChar(s[0])] + Lower(s[1..])
  }

  /**
   * Position i of s starts a word for `str.title()` when it is the first
   * position or the character before it has no case.
   */
  predicate StartsWord(s: string, i: int)
    requires 0 <= i < |s|
  {
    i == 0 || !IsCased(s[i - 1])
  }

  /**
   * The scan of `str.title()` from a point where the character before s was
   * (prevCased) or was not cased: a character after a cased one is lowered,
   * any other is raised.
   */
  function TitleFrom(s: string, prevCased: bool): (r: string)
    ensures |r| == |s|
    ensures |s| > 0 ==> r[0] == if prevCased then LowerChar(s[0]) else UpperChar(s[0])
    ensures forall i :: 0 < i < |s| ==>
      r[i] == if IsCased(s[i - 1]) then LowerChar(s[i]) else UpperChar(s[i])
  {
    if s == [] then []
    else [if prevCased then LowerChar(s[0]) else UpperChar(s[0])] + TitleFrom(s[1..], IsCased(s[0]))
  }

  /** `s.title()`: each word starts with a capital and continues in small letters. */
  function Title(s: string): (r: string)
    ensures |r| == |s|
    ensures forall i :: 0 <= i < |s| ==>
      r[i] == if StartsWord(s, i) then UpperChar(s[i]) else LowerChar(s[i])
  {
    TitleFrom(s, false)
  }

  /** Lowering twice is lowering once. */
  lemma LowerIdempotent(s: string)
    ensures Lower(Lower(s)) == Lower(s)
  {
    assert forall i :: 0 <= i < |s| ==> Lower(Lower(s))[i] == Lower(s)[i];
  }

  /** Strings that agree up to ASCII case lower to the same string. */
  lemma LowerOfCaseVariants(a: string, b: string)
    requires |a| == |b| && forall i :: 0 <= i < |a| ==> LowerChar(a[i]) == LowerChar(b[i])
    ensures Lower(a) == Lower(b)
  {
    var la, lb := Lower(a), Lower(b);
    assert forall i :: 0 <= i < |a| ==> la[i] == lb[i];
  }

  /** Strings with the same lowering agree up to ASCII case. */
  lemma CaseVariantsOfLower(a: string, b: string)
    requires Lower(a) == Lower(b)
    ensures |a| == |b| && forall i :: 0 <= i < |a| ==> LowerChar(a[i]) == LowerChar(b[i])
  {
    var la, lb := Lower(a), Lower(b);
    forall i | 0 <= i < |a|
      ensures LowerChar(a[i]) == LowerChar(b[i])
    {
      assert la[i] == lb[i];
    }
  }

  /** Two strings lower to the same string exactly when they agree up to ASCII case. */
  lemma LowerEqualIff(a: string, b: string)
    ensures Lower(a) == Lower(b) <==>
      |a| == |b| && forall i :: 0 <= i < |a| ==> LowerChar(a[i]) == LowerChar(b[i])
  {
    if |a| == |b| && forall i :: 0 <= i < |a| ==> LowerChar(a[i]) == LowerChar(b[i]) {
      LowerOfCaseVariants(a, b);
    }
    if Lower(a) == Lower(b) {
      CaseVariantsOfLower(a, b);
    }
  }

  /** Title-casing keeps which positions hold letters, so it does not move word starts. */
  lemma TitleKeepsWordStarts(s: string, i: int)
    requires 0 <= i < |s|
    ensures StartsWord(Title(s), i) == StartsWord(s, i)
  {
  }

  /** Title-casing an already title-cased string changes nothing. */
  lemma TitleIdempotent(s: string)
    ensures Title(Title(s)) == Title(s)
  {
    var t := Title(s);
    forall i | 0 <= i < |s|
      ensures Title(t)[i] == t[i]
    {
      TitleKeepsWordStarts(s, i);
    }
  }

  /** Title-casing changes only the case of letters. */
  lemma LowerOfTitle(s: string)
    ensures Lower(Title(s)) == Lower(s)
  {
    assert forall i :: 0 <= i < |s| ==> Lower(Title(s))[i] == Lower(s)[i];
  }

  /** A hyphen has no case, so it starts a new word. */
  lemma TitleAtHyphen()
    ensures Title("mary-ann") == "Mary-Ann"
  {
  }

  /** So does an apostrophe. */
  lemma TitleAtApostrophe()
    ensures Title("o'neil") == "O'Neil"
  {
  }

  /** Capitals inside a word are lowered. */
  lemma TitleInsideWord()
    ensures Title("McDONALD") == "Mcdonald"
  {
  }

  /** A digit has no case either, so the letter after it is raised. */
  lemma TitleAfterDigit()
    ensures Title("2nd") == "2Nd"
  {
  }

  lemma LowerExample()
    ensures Lower("Ann@Ex.COM") == "ann@ex.com"
  {
  }
}
