/**
 * The outbound word filter (`filter_input`): each banned word, in the order of
 * the list, is replaced by "!!!" with Python's `str.replace`.  The list itself
 * (read from a file by `load_bad_words`) is a parameter here.
 */
module WordFilter {
  import opened Text

  const Redaction: string := "!!!"

  /** The text once every word of `words` has been replaced, first word first. */
  function Filtered(words: seq<string>, text: string): string
    decreases |words|
  {
    if words == [] then text
    else Replace(Filtered(words[..|words| - 1], text), words[|words| - 1], Redaction)
  }

  /** `filter_input`: the loop that reassigns the text once per banned word. */
  method FilterInput(words: seq<string>, text: string) returns (r: string)
    ensures r == Filtered(words, text)
  {
    r := text;
    for i := 0 to |words|
      invariant r == Filtered(words[..i], text)
    {
      assert words[..i + 1][..i] == words[..i];
      r := Replace(r, words[i], Redaction);
    }
    assert words[..|words|] == words;
  }

  /** When no banned word occurs in the text (in particular when the list is
      empty) the text is returned unchanged. */
  lemma {:induction false} FilterNoBannedWord(words: seq<string>, text: string)
    requires forall k :: 0 <= k < |words| ==> !Occurs(words[k], text)
    ensures Filtered(words, text) == text
    decreases |words|
  {
    if words != [] {
      FilterNoBannedWord(words[..|words| - 1], text);
      ReplaceAbsent(text, words[|words| - 1], Redaction);
    }
  }

  lemma ReplaceSecondFoo()
    ensures Replace(" bar foo", "foo", Redaction) == " bar !!!"
  {
    var foo, tail := "foo", " bar foo";
    var a := " bar ";
    ShortNotOccurs(foo, "fo");
    NotOccursSkip(foo, a + "fo", 5);
    assert (a + foo)[..7] == a + "fo";
    assert tail == a + foo + "";
    ReplaceLeftmost(a, foo, "", Redaction);
  }

  /** Every occurrence of a banned word is redacted: "foo bar foo" with the
      banned word "foo" becomes "!!! bar !!!". */
  lemma FilterBothOccurrences()
    ensures Filtered(["foo"], "foo bar foo") == "!!! bar !!!"
  {
    var foo, text, tail := "foo", "foo bar foo", " bar foo";
    assert [foo][..0] == [];
    ShortNotOccurs(foo, "fo");
    assert ("" + foo)[..2] == "fo";
    calc {
      Filtered([foo], text);
      Replace(text, foo, Redaction);
      { assert text == "" + foo + tail; ReplaceLeftmost("", foo, tail, Redaction); }
      "" + Redaction + Replace(tail, foo, Redaction);
      { ReplaceSecondFoo(); }
      "!!! bar !!!";
    }
  }

  /** The words are applied in list order, so the order can change the result. */
  lemma FilterOrderMatters()
    ensures Filtered(["ab", "b"], "ab") == "!!!"
    ensures Filtered(["b", "ab"], "ab") == "a!!!"
  {
    assert ["ab", "b"][..1] == ["ab"] && ["ab"][..0] == [];
    assert ["b", "ab"][..1] == ["b"] && ["b"][..0] == [];
    assert Replace("ab", "ab", Redaction) == "!!!" by {
      assert "ab"[..2] == "ab" && "ab"[2..] == "";
    }
    NotOccursSkip("b", Redaction, 3);
    ReplaceAbsent(Redaction, "b", Redaction);
    assert Replace("ab", "b", Redaction) == "a!!!" by {
      assert "ab"[..1] != "b" && "ab"[1..] == "b";
      assert "b"[..1] == "b" && "b"[1..] == "";
    }
    assert !Occurs("ab", "a!!!") by {
      assert "a!!!"[..2] == "a!" && "a!!!"[1..] == Redaction;
      NotOccursSkip("ab", Redaction, 3);
    }
    ReplaceAbsent("a!!!", "ab", Redaction);
  }

  /** A blank line in the word list is the empty word, which Python's `replace`
      matches between every two characters. */
  lemma FilterBlankWord()
    ensures Filtered([""], "hi") == "!!!h!!!i!!!"
  {
    assert [""][..0] == [];
    assert "hi"[1..] == "i" && "i"[1..] == "";
  }
}
