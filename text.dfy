/**
 * The Python string operations the backend relies on: str.strip with
 * Python's whitespace set, and str.lower, str.title, the `in` substring
 * test and os.path.basename over ASCII letters. The canonical case form
 * of a category is title(lower(strip(s))).
 */
module Text {

  /**
   * str.isspace: the characters Python treats as whitespace (Unicode
   * categories Zs, Zl and Zp plus the bidirectional classes WS, B and S).
   */
  predicate IsSpace(c: char) {
    var n := c as int;
    n == 32 || 9 <= n <= 13 || 28 <= n <= 31 || n == 0x85 || n == 0xA0
    || n == 0x1680 || 0x2000 <= n <= 0x200A || n == 0x2028 || n == 0x2029
    || n == 0x202F || n == 0x205F || n == 0x3000
  }

  predicate IsUpper(c: char) { 'A' <= c <= 'Z' }
  predicate IsLower(c: char) { 'a' <= c <= 'z' }

  /** A cased character, in Python's sense, restricted to ASCII. */
  predicate IsLetter(c: char) { IsUpper(c) || IsLower(c) }

  function ToUpper(c: char): char {
    if IsLower(c) then (c as int - 32) as char else c
  }

  function ToLower(c: char): char {
    if IsUpper(c) then (c as int + 32) as char else c
  }

  /** str.lower: every letter lower-cased, every other character kept. */
  function Lower(s: string): (r: string)
    ensures |r| == |s|
    ensures forall i :: 0 <= i < |s| ==> r[i] == ToLower(s[i])
  {
    if s == [] then [] else [ToLower(s[0])] + Lower(s[1..])
  }

  /**
   * The left-to-right scan of str.title: a character is lower-cased when the
   * character before it is cased and upper-cased otherwise.
   */
  function TitleFrom(s: string, previousCased: bool): (r: string)
    ensures |r| == |s|
  {
    if s == [] then []
    else
      [if previousCased then ToLower(s[0]) else ToUpper(s[0])]
      + TitleFrom(s[1..], IsLetter(s[0]))
  }

  /** str.title */
  function Title(s: string): string {
    TitleFrom(s, false)
  }

  /** Number of whitespace characters at the front of `s`. */
  function LeadingSpace(s: string): (n: nat)
    ensures n <= |s|
    ensures forall i :: 0 <= i < n ==> IsSpace(s[i])
    ensures n == |s| || !IsSpace(s[n])
  {
    if s == [] || !IsSpace(s[0]) then 0 else 1 + LeadingSpace(s[1..])
  }

  /** Number of whitespace characters at the end of `s`. */
  function TrailingSpace(s: string): (n: nat)
    ensures n <= |s|
    ensures forall i :: |s| - n <= i < |s| ==> IsSpace(s[i])
    ensures n == |s| || !IsSpace(s[|s| - 1 - n])
  {
    if s == [] || !IsSpace(s[|s| - 1]) then 0 else 1 + TrailingSpace(s[..|s| - 1])
  }

  predicate IsStripped(s: string) {
    s == [] || (!IsSpace(s[0]) && !IsSpace(s[|s| - 1]))
  }

  /** str.strip: `r` is `s` without the whitespace around it. */
  function Strip(s: string): (r: string)
    ensures IsStripped(r)
    ensures LeadingSpace(s) + |r| <= |s|
    ensures r == s[LeadingSpace(s)..LeadingSpace(s) + |r|]
    ensures forall i :: LeadingSpace(s) + |r| <= i < |s| ==> IsSpace(s[i])
  {
    var t := s[LeadingSpace(s)..];
    t[..|t| - TrailingSpace(t)]
  }

  /** The canonical case form of a category: title(lower(strip(s))). */
  function Canonical(s: string): string {
    Title(Lower(Strip(s)))
  }

  /** `sub` occurs in `s` starting at index `i`. */
  predicate OccursAt(s: string, sub: string, i: int) {
    0 <= i <= |s| - |sub| && s[i..i + |sub|] == sub
  }

  /** Python's `sub in s`. */
  predicate Contains(s: string, sub: string) {
    exists i :: 0 <= i <= |s| - |sub| && OccursAt(s, sub, i)
  }

  /** os.path.basename: the part of `path` after its last '/'. */
  function Basename(path: string): (r: string)
    ensures |r| <= |path| && r == path[|path| - |r|..]
    ensures '/' !in r
    ensures |r| == |path| || path[|path| - |r| - 1] == '/'
  {
    if path == [] || path[|path| - 1] == '/' then []
    else Basename(path[..|path| - 1]) + [path[|path| - 1]]
  }

  // ---------------------------------------------------------------------
  // Properties of the case and whitespace operations

  /** Each character of title(s) depends only on itself and its predecessor. */
  lemma {:induction false} TitleFromAt(s: string, previousCased: bool, i: nat)
    requires i < |s|
    ensures TitleFrom(s, previousCased)[i] ==
      if (i == 0 && !previousCased) || (i > 0 && !IsLetter(s[i - 1]))
      then ToUpper(s[i]) else ToLower(s[i])
  {
    if i > 0 {
      TitleFromAt(s[1..], IsLetter(s[0]), i - 1);
    }
  }

  /**
   * str.title on ASCII: a character is upper-cased when it is first or follows
   * a non-letter, and lower-cased otherwise.
   */
  lemma TitleAt(s: string, i: nat)
    requires i < |s|
    ensures |Title(s)| == |s|
    ensures Title(s)[i] == if i == 0 || !IsLetter(s[i - 1]) then ToUpper(s[i]) else ToLower(s[i])
  {
    TitleFromAt(s, false, i);
  }

  lemma {:induction false} TitleFromOfLower(s: string, previousCased: bool)
    ensures TitleFrom(Lower(s), previousCased) == TitleFrom(s, previousCased)
  {
    if s != [] {
      assert Lower(s)[1..] == Lower(s[1..]);
      TitleFromOfLower(s[1..], IsLetter(s[0]));
    }
  }

  /** Lower-casing before title-casing changes nothing. */
  lemma TitleOfLower(s: string)
    ensures Title(Lower(s)) == Title(s)
  {
    TitleFromOfLower(s, false);
  }

  lemma {:induction false} TitleFromIdempotent(s: string, previousCased: bool)
    ensures TitleFrom(TitleFrom(s, previousCased), previousCased) == TitleFrom(s, previousCased)
  {
    if s != [] {
      TitleFromIdempotent(s[1..], IsLetter(s[0]));
    }
  }

  /** Title-casing twice is title-casing once. */
  lemma TitleIdempotent(s: string)
    ensures Title(Title(s)) == Title(s)
  {
    TitleFromIdempotent(s, false);
  }

  /** Title-casing keeps every whitespace character where it was. */
  lemma TitleKeepsStripped(s: string)
    requires IsStripped(s)
    ensures IsStripped(Title(s))
  {
    if s != [] {
      TitleAt(s, 0);
      TitleAt(s, |s| - 1);
    }
  }

  lemma StripOfStripped(s: string)
    requires IsStripped(s)
    ensures Strip(s) == s
  {
  }

  /**
   * The canonical form is a fixed point: cleaning a cleaned value changes
   * nothing, so "  WHEAT " and "wheat" keep colliding however often the
   * cleaning runs.
   */
  lemma CanonicalIdempotent(s: string)
    ensures Canonical(Canonical(s)) == Canonical(s)
  {
    var t := Strip(s);
    TitleOfLower(t);
    TitleKeepsStripped(t);
    StripOfStripped(Title(t));
    TitleOfLower(Title(t));
    TitleIdempotent(t);
  }

  /** title(strip(s)) already is the canonical form: title lower-cases non-initial letters. */
  lemma TitleOfStripIsCanonical(s: string)
    ensures Title(Strip(s)) == Canonical(s)
  {
    TitleOfLower(Strip(s));
  }

  /** Lower-casing a string without upper-case letters changes nothing. */
  lemma LowerOfLowercase(s: string)
    requires forall i :: 0 <= i < |s| ==> !IsUpper(s[i])
    ensures Lower(s) == s
  {
    assert |Lower(s)| == |s|;
    assert forall i :: 0 <= i < |s| ==> Lower(s)[i] == s[i];
  }

  /** title() of a word of letters: its first letter upper-cased, the rest lower-cased. */
  lemma TitleOfWord(s: string)
    requires s != [] && forall i :: 0 <= i < |s| ==> IsLetter(s[i])
    ensures Title(s) == [ToUpper(s[0])] + Lower(s[1..])
  {
    forall i | 0 <= i < |s|
      ensures Title(s)[i] == ([ToUpper(s[0])] + Lower(s[1..]))[i]
    {
      TitleAt(s, i);
    }
  }

  /** The canonical form of a word of lower-case letters: its first letter upper-cased. */
  lemma CanonicalOfLowerWord(s: string)
    requires s != [] && forall i :: 0 <= i < |s| ==> IsLower(s[i])
    ensures Canonical(s) == Title(s) == [ToUpper(s[0])] + s[1..]
  {
    StripOfStripped(s);
    LowerOfLowercase(s);
    TitleOfWord(s);
    LowerOfLowercase(s[1..]);
  }

  /** The canonical form computed one step at a time. */
  lemma CanonicalSteps(s: string, stripped: string, lowered: string, titled: string)
    requires Strip(s) == stripped && Lower(stripped) == lowered && Title(lowered) == titled
    ensures Canonical(s) == titled
  {
  }

  lemma StripPaddedWheat()
    ensures Strip("  WHEAT ") == "WHEAT"
  {
    var padded := "  WHEAT ";
    assert LeadingSpace(padded[2..]) == 0;
    assert LeadingSpace(padded[1..]) == 1;
    assert LeadingSpace(padded) == 2;
    assert TrailingSpace(padded[2..]) == 1;
  }

  lemma LowerWheat()
    ensures Lower("WHEAT") == "wheat"
  {
    forall i | 0 <= i < 5 ensures Lower("WHEAT")[i] == "wheat"[i] {
    }
  }

  lemma TitleWheat()
    ensures Title("wheat") == "Wheat" && Canonical("wheat") == "Wheat"
  {
    CanonicalOfLowerWord("wheat");
    assert ['W'] + "heat" == "Wheat";
  }

  /** The collision the canonical form exists for. */
  lemma CanonicalWheat()
    ensures Canonical("  WHEAT ") == "Wheat"
    ensures Canonical("wheat") == "Wheat"
  {
    StripPaddedWheat();
    LowerWheat();
    TitleWheat();
    CanonicalSteps("  WHEAT ", "WHEAT", "wheat", "Wheat");
  }

  lemma LowerNone()
    ensures Lower("None") == "none"
  {
    forall i | 0 <= i < 4 ensures Lower("None")[i] == "none"[i] {
    }
  }

  lemma TitleNone()
    ensures Title("none") == "None"
  {
    CanonicalOfLowerWord("none");
    assert ['N'] + "one" == "None";
  }

  /** str(None) keeps its meaning under the canonical case form. */
  lemma CanonicalOfNone()
    ensures Canonical("None") == "None"
  {
    StripOfStripped("None");
    LowerNone();
    TitleNone();
    CanonicalSteps("None", "None", "none", "None");
  }

  /** str(nan), the text of a missing cell, becomes "Nan". */
  lemma CanonicalOfNan()
    ensures Canonical("nan") == "Nan"
  {
    CanonicalOfLowerWord("nan");
    assert ['N'] + "an" == "Nan";
  }
}
