/**
  * The text replacement of `edit_file`: the guard on the number of
  * occurrences of the old text, and the replacement itself.
  */
module Edits {
  import opened Text

  /** What the guard decides: no occurrence, several, or the replaced content. */
  datatype EditOutcome = NotFound | Ambiguous(occurrences: nat) | Replaced(content: string)

  /**
    * `old_text not in current_content` gives `NotFound`; otherwise a
    * `count` above one gives `Ambiguous` with that count; otherwise
    * `replace` rewrites the content.  Occurrences are counted the way
    * `str.count` does, without overlaps, so a text that overlaps itself can
    * occur twice and still count once; the leftmost occurrence is the one
    * replaced.
    */
  function EditPlan(current: string, oldText: string, newText: string): (o: EditOutcome)
    ensures o.NotFound? <==> !Contains(current, oldText)
    ensures o.Ambiguous? <==> Contains(current, oldText) && Count(current, oldText) > 1
    ensures o.Ambiguous? ==> o.occurrences == Count(current, oldText)
    ensures o.Replaced? ==>
      && Count(current, oldText) == 1
      && Contains(current, oldText)
      && var k := FirstMatch(current, oldText);
         o.content == current[..k] + newText + current[k + |oldText|..]
    ensures o.Replaced? ==> |o.content| - |current| == |newText| - |oldText|
  {
    if !Contains(current, oldText) then NotFound
    else
      var n := Count(current, oldText);
      if n > 1 then Ambiguous(n)
      else
        CountZeroIffAbsent(current, oldText);
        ReplaceSingle(current, oldText, newText);
        Replaced(Replace(current, oldText, newText))
  }

  /**
    * `lines_changed`: after a successful edit the number of `'\n'`-separated
    * lines changes by the difference of the newline counts of the two texts.
    */
  lemma EditLinesChanged(current: string, oldText: string, newText: string)
    requires EditPlan(current, oldText, newText).Replaced?
    ensures |Split(EditPlan(current, oldText, newText).content, '\n')| - |Split(current, '\n')|
            == CountChar(newText, '\n') - CountChar(oldText, '\n')
  {
    var k := FirstMatch(current, oldText);
    var pre, suf := current[..k], current[k + |oldText|..];
    assert current == pre + oldText + suf;
    LinesChanged(pre, oldText, newText, suf);
  }

  /** Two separate occurrences are refused with their count. */
  lemma RepeatedTextIsAmbiguous()
    ensures EditPlan("foo bar foo", "foo", "baz") == Ambiguous(2)
  {
    var s, pat := "foo bar foo", "foo";
    forall i | 3 <= i < 8 ensures !MatchAt(s, pat, i) {
      assert s[i..i + 3][0] == s[i] != 'f';
    }
    assert MatchAt(s, pat, 0) && MatchAt(s, pat, 8);
    ScanCount(s, pat, 0, 0);
    ScanCount(s, pat, 3, 8);
    assert CountFrom(s, pat, 11) == 0;
  }

  /**
    * An old text that overlaps itself passes the guard: "aa" occurs twice in
    * "aaa" but is counted once, and the leftmost occurrence is replaced.
    */
  lemma OverlappingTextIsReplaced()
    ensures EditPlan("aaa", "aa", "b") == Replaced("ba")
  {
    OverlappingOccurrencesCountOnce();
    assert FirstMatch("aaa", "aa") == 0;
  }
}
