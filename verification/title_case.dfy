/**
 * `toTitleCase`: drop every character that is neither an ASCII letter nor
 * whitespace, then upper-case the first letter of each maximal letter run
 * and lower-case the rest.
 */
module TitleCase {
  import opened Chars

  /** The characters the pattern `[^a-zA-Z\s]` does not remove. */
  predicate Kept(c: char) { IsAsciiLetter(c) || IsJsWhitespace(c) }

  predicate AllKept(s: string) { forall i :: 0 <= i < |s| ==> Kept(s[i]) }

  /** `str.replace(/[^a-zA-Z\s]/g, "")`. */
  function Strip(s: string): (r: string)
    ensures |r| <= |s|
    ensures AllKept(r)
    ensures AllKept(s) ==> r == s
  {
    if s == [] then []
    else if Kept(s[0]) then [s[0]] + Strip(s[1..])
    else Strip(s[1..])
  }

  /** The whitespace characters of `s`, in order. */
  function Spaces(s: string): string {
    if s == [] then []
    else if IsJsWhitespace(s[0]) then [s[0]] + Spaces(s[1..])
    else Spaces(s[1..])
  }

  /**
   * Whether position `i` of `t` starts a word: it follows whitespace, or it
   * is the first position and `atStart` says the text before `t` ended a word.
   */
  predicate WordStart(t: string, i: nat, atStart: bool)
    requires i < |t|
  {
    if i == 0 then atStart else IsJsWhitespace(t[i - 1])
  }

  /**
   * The replacement of each match of `\w\S*` by its first character upper-cased
   * and the rest lower-cased,
   * on a string of letters and whitespace: every match is a maximal letter
   * run, so a letter is upper-cased exactly when it starts a word.
   */
  function CaseWords(t: string, atStart: bool): (r: string)
    ensures |r| == |t|
  {
    if t == [] then []
    else
      var c := if atStart then ToUpperChar(t[0]) else ToLowerChar(t[0]);
      [c] + CaseWords(t[1..], IsJsWhitespace(t[0]))
  }

  /** In `r`, a letter is upper case exactly when it begins the string or follows whitespace. */
  predicate IsTitleCased(r: string) {
    forall i :: 0 <= i < |r| && IsAsciiLetter(r[i]) ==>
      (IsUpper(r[i]) <==> (i == 0 || IsJsWhitespace(r[i - 1])))
  }

  lemma {:induction false} CaseWordsAt(t: string, atStart: bool)
    ensures forall i :: 0 <= i < |t| ==>
      CaseWords(t, atStart)[i] == (if WordStart(t, i, atStart) then ToUpperChar(t[i]) else ToLowerChar(t[i]))
  {
    if t != [] {
      CaseWordsAt(t[1..], IsJsWhitespace(t[0]));
      forall i | 1 <= i < |t|
        ensures CaseWords(t, atStart)[i]
             == (if WordStart(t, i, atStart) then ToUpperChar(t[i]) else ToLowerChar(t[i]))
      {
        assert CaseWords(t, atStart)[i] == CaseWords(t[1..], IsJsWhitespace(t[0]))[i - 1];
        assert WordStart(t, i, atStart) == WordStart(t[1..], i - 1, IsJsWhitespace(t[0]));
      }
    }
  }

  /** Case conversion keeps letters and whitespace in place and agrees with its input up to case. */
  lemma {:induction false} CaseWordsKeeps(t: string, atStart: bool)
    requires AllKept(t)
    ensures AllKept(CaseWords(t, atStart))
    ensures Lower(CaseWords(t, atStart)) == Lower(t)
  {
    var r := CaseWords(t, atStart);
    CaseWordsAt(t, atStart);
    assert forall i :: 0 <= i < |r| ==> Lower(r)[i] == Lower(t)[i];
  }

  /** Case conversion from a word start leaves a title-cased string. */
  lemma {:induction false} CaseWordsTitleCases(t: string)
    requires AllKept(t)
    ensures IsTitleCased(CaseWords(t, true))
  {
    var r := CaseWords(t, true);
    CaseWordsAt(t, true);
    forall i | 0 <= i < |r| && IsAsciiLetter(r[i])
      ensures IsUpper(r[i]) <==> (i == 0 || IsJsWhitespace(r[i - 1]))
    {
      if i > 0 {
        assert IsJsWhitespace(r[i - 1]) <==> IsJsWhitespace(t[i - 1]);
      }
    }
  }

  /** `toTitleCase(str)`. */
  function ToTitleCase(s: string): (r: string)
    ensures |r| <= |s|
    ensures AllKept(r)
    ensures IsTitleCased(r)
    ensures Lower(r) == Lower(Strip(s))
  {
    var t := Strip(s);
    CaseWordsKeeps(t, true);
    CaseWordsTitleCases(t);
    CaseWords(t, true)
  }

  /** A title-cased string of letters and whitespace is its own title case. */
  lemma TitleCaseFixes(r: string)
    requires AllKept(r) && IsTitleCased(r)
    ensures ToTitleCase(r) == r
  {
    CaseWordsAt(r, true);
    assert Strip(r) == r;
    forall i | 0 <= i < |r| ensures CaseWords(r, true)[i] == r[i] {
      if IsAsciiLetter(r[i]) && !IsUpper(r[i]) {
        assert IsLower(r[i]);
      }
    }
  }

  lemma TitleCaseIdempotent(s: string)
    ensures ToTitleCase(ToTitleCase(s)) == ToTitleCase(s)
  {
    TitleCaseFixes(ToTitleCase(s));
  }

  /**
   * The title case of `s` is the only title-cased string that spells the
   * kept characters of `s` up to letter case.
   */
  lemma TitleCaseUnique(s: string, r: string)
    requires IsTitleCased(r)
    requires Lower(r) == Lower(Strip(s))
    ensures r == ToTitleCase(s)
  {
    var t := Strip(s);
    var u := ToTitleCase(s);
    assert Lower(u) == Lower(t);
    assert |r| == |u|;
    // Whitespace sits at the same positions in both, and is the same character.
    forall i | 0 <= i < |r| && !IsAsciiLetter(u[i]) ensures r[i] == u[i] {
      assert Lower(r)[i] == Lower(u)[i];
    }
    forall i | 0 <= i < |r| && IsAsciiLetter(u[i]) ensures r[i] == u[i] {
      assert Lower(r)[i] == Lower(u)[i];
      assert IsAsciiLetter(r[i]);
      if i > 0 {
        if IsAsciiLetter(u[i - 1]) {
          assert Lower(r)[i - 1] == Lower(u)[i - 1];
          assert IsAsciiLetter(r[i - 1]);
        } else {
          assert r[i - 1] == u[i - 1];
        }
      }
      LettersEqual(r[i], u[i]);
    }
  }

  /** Both directions: `r` is the title case of `s` exactly when it is title-cased and spells `s`'s kept characters. */
  lemma TitleCaseCharacterized(s: string, r: string)
    ensures r == ToTitleCase(s) <==> (IsTitleCased(r) && Lower(r) == Lower(Strip(s)))
  {
    if IsTitleCased(r) && Lower(r) == Lower(Strip(s)) {
      TitleCaseUnique(s, r);
    }
  }

  lemma {:induction false} StripKeepsSpaces(s: string)
    ensures Spaces(Strip(s)) == Spaces(s)
  {
    if s != [] {
      StripKeepsSpaces(s[1..]);
      if Kept(s[0]) {
        assert ([s[0]] + Strip(s[1..]))[1..] == Strip(s[1..]);
      }
    }
  }

  /** One character survives stripping exactly when the pattern keeps it. */
  lemma StripChar(c: char)
    ensures Strip([c]) == if Kept(c) then [c] else []
  {
  }

  /**
   * Stripping works character by character: with `StripChar` this fixes
   * `Strip` uniquely, so every kept character survives, in order.
   */
  lemma {:induction false} StripAppend(a: string, b: string)
    ensures Strip(a + b) == Strip(a) + Strip(b)
  {
    if a == [] {
      assert a + b == b;
    } else {
      assert (a + b)[0] == a[0];
      assert (a + b)[1..] == a[1..] + b;
      StripAppend(a[1..], b);
      if Kept(a[0]) {
        assert [a[0]] + (Strip(a[1..]) + Strip(b)) == ([a[0]] + Strip(a[1..])) + Strip(b);
      }
    }
  }

  lemma {:induction false} CaseWordsKeepsSpaces(t: string, atStart: bool)
    ensures Spaces(CaseWords(t, atStart)) == Spaces(t)
  {
    if t != [] {
      var r := CaseWords(t, atStart);
      CaseWordsKeepsSpaces(t[1..], IsJsWhitespace(t[0]));
      assert r[1..] == CaseWords(t[1..], IsJsWhitespace(t[0]));
    }
  }

  /** Title-casing keeps every whitespace character of the input, in order, and adds none. */
  lemma TitleCaseKeepsSpaces(s: string)
    ensures Spaces(ToTitleCase(s)) == Spaces(s)
  {
    StripKeepsSpaces(s);
    CaseWordsKeepsSpaces(Strip(s), true);
  }

  lemma StripExample()
    ensures Strip("dA 2nd") == "dA nd"
  {
    var s := "dA 2nd";
    assert s[1..] == "A 2nd" && s[2..] == " 2nd" && s[3..] == "2nd" && s[4..] == "nd" && s[5..] == "d";
    assert Strip("d") == "d";
    assert Strip("nd") == "nd";
    assert Strip("2nd") == "nd";
    assert Strip(" 2nd") == " nd";
    assert Strip("A 2nd") == "A nd";
  }

  lemma CaseWordsExample()
    ensures CaseWords("dA nd", true) == "Da Nd"
  {
    var t := "dA nd";
    assert t[1..] == "A nd" && t[2..] == " nd" && t[3..] == "nd" && t[4..] == "d";
    assert CaseWords("d", false) == "d";
    assert CaseWords("nd", true) == "Nd";
    assert CaseWords(" nd", false) == " Nd";
    assert CaseWords("A nd", false) == "a Nd";
  }

  /** Digits and punctuation vanish, and a run that followed a digit still starts a word. */
  lemma TitleCaseExample()
    ensures ToTitleCase("dA 2nd") == "Da Nd"
  {
    StripExample();
    CaseWordsExample();
  }
}
