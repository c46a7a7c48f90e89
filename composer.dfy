/**
 * The emoji picker's edit of the composer text (public/widget.js, the emoji grid's
 * click handler): the selected range is replaced by the emoji and the caret is put
 * right after it.
 */
module Composer {

  datatype Edit = Edit(text: string, caret: nat)

  /**
   * Replaces `text[start..end]` (the textarea's selection; `start == end` is a bare
   * caret) by `emoji`.
   */
  function InsertAtSelection(text: string, start: nat, end: nat, emoji: string): (r: Edit)
    requires start <= end <= |text|
    ensures r.caret == start + |emoji| <= |r.text|
    ensures r.text[..start] == text[..start]
    ensures r.text[start..r.caret] == emoji
    ensures r.text[r.caret..] == text[end..]
  {
    var t := text[..start] + emoji + text[end..];
    assert t[..start] == text[..start];
    assert t[start..start + |emoji|] == emoji;
    assert t[start + |emoji|..] == text[end..];
    Edit(t, start + |emoji|)
  }

  /**
   * Removing the inserted emoji leaves the text with its selection deleted; with no
   * selection that is the original text.
   */
  lemma RemovingEmojiUndoesInsert(text: string, start: nat, end: nat, emoji: string)
    requires start <= end <= |text|
    ensures var r := InsertAtSelection(text, start, end, emoji);
      r.text[..start] + r.text[r.caret..] == text[..start] + text[end..]
    ensures var r := InsertAtSelection(text, start, start, emoji);
      r.text[..start] + r.text[r.caret..] == text
  {
    assert text[..start] + text[start..] == text;
  }

  /** The text grows by the emoji and shrinks by the replaced selection. */
  lemma InsertLength(text: string, start: nat, end: nat, emoji: string)
    requires start <= end <= |text|
    ensures |InsertAtSelection(text, start, end, emoji).text| == |text| - (end - start) + |emoji|
  {
    var r := InsertAtSelection(text, start, end, emoji);
    assert r.text == r.text[..start] + r.text[start..r.caret] + r.text[r.caret..];
  }
}
