/** The Markdown editor: the toolbar's splice around the current selection,
    the selection it restores, the preview toggle and the newline step of the
    preview renderer. */
module RichTextEditor {

  import opened Wrappers
  import Seqs

  function Min(a: int, b: int): int { if a <= b then a else b }
  function Max(a: int, b: int): int { if a <= b then b else a }

  /** An index argument of `String.prototype.substring`, clamped to `0..n`. */
  function ClampIndex(i: int, n: nat): (r: nat)
    ensures r <= n
    ensures 0 <= i <= n ==> r == i
    ensures i > n ==> r == n
  {
    if i < 0 then 0 else if i > n then n else i
  }

  /** `s.substring(i, j)`: both indices are clamped into the string and
      swapped when the first is the larger. */
  function Substring(s: string, i: int, j: int): (r: string)
    ensures 0 <= i <= j <= |s| ==> r == s[i..j]
  {
    var a, b := ClampIndex(i, |s|), ClampIndex(j, |s|);
    s[Min(a, b)..Max(a, b)]
  }

  /** `value.substring(0, start) + before + value.substring(start, end) +
      after + value.substring(end)` */
  function Splice(value: string, before: string, after: string, start: nat, end: nat): string
  {
    Substring(value, 0, start) + before + Substring(value, start, end) + after + Substring(value, end, |value|)
  }

  /** Inside the text, the splice puts `before` and `after` around the
      selected slice and leaves the rest in place. */
  lemma SpliceInRange(value: string, before: string, after: string, start: nat, end: nat)
    requires start <= end <= |value|
    ensures Splice(value, before, after, start, end)
      == value[..start] + before + value[start..end] + after + value[end..]
    ensures |Splice(value, before, after, start, end)| == |value| + |before| + |after|
  {
  }

  /** Cutting `before` and `after` back out of the new text gives the
      original value. */
  lemma SpliceRoundTrip(value: string, before: string, after: string, start: nat, end: nat)
    requires start <= end <= |value|
    ensures var t := Splice(value, before, after, start, end);
      var s := start + |before|;
      var e := s + (end - start);
      e + |after| <= |t| && t[..start] + t[s..e] + t[e + |after|..] == value
  {
    var t := Splice(value, before, after, start, end);
    var s := start + |before|;
    var e := s + (end - start);
    SpliceInRange(value, before, after, start, end);
    assert t[..start] == value[..start];
    assert t[s..e] == value[start..end];
    assert t[e + |after|..] == value[end..];
    assert value[..start] + value[start..end] + value[end..] == value;
  }

  /** The restored selection covers exactly the text that was selected. */
  lemma SelectionRestored(value: string, before: string, after: string, start: nat, end: nat)
    requires start <= end <= |value|
    ensures var t := Splice(value, before, after, start, end);
      var sel := Restored(value, before, start, end);
      sel.start <= sel.end <= |t| && t[sel.start..sel.end] == value[start..end]
  {
    var t := Splice(value, before, after, start, end);
    SpliceInRange(value, before, after, start, end);
    assert t[start + |before|..start + |before| + (end - start)] == value[start..end];
  }

  /** With an empty selection the two markers are inserted together at the
      caret. */
  lemma CaretInsertsBoth(value: string, before: string, after: string, caret: nat)
    requires caret <= |value|
    ensures Splice(value, before, after, caret, caret) == value[..caret] + before + after + value[caret..]
  {
    SpliceInRange(value, before, after, caret, caret);
  }

  /** A selection past the end of the text (the first textarea on the page
      need not hold this value) appends both markers. */
  lemma SelectionPastEndAppends(value: string, before: string, after: string, start: nat, end: nat)
    requires |value| <= start <= end
    ensures Splice(value, before, after, start, end) == value + before + after
  {
    assert value[..|value|] == value;
  }

  /** The textarea's selection, `selectionStart <= selectionEnd`. */
  datatype Selection = Selection(start: nat, end: nat)

  /** `setSelectionRange(start + before.length, start + before.length +
      selectedText.length)` */
  function Restored(value: string, before: string, start: nat, end: nat): Selection
  {
    var s := start + |before|;
    Selection(s, s + |Substring(value, start, end)|)
  }

  /** The toolbar buttons. */
  datatype Button = Bold | Italic | Heading | Link | Code | List | NumberedList | Quote

  /** The `(before, after)` pair each button passes to `insertMarkdown`;
      `after` defaults to "". */
  function Markers(b: Button): (string, string)
  {
    match b
    case Bold => ("**", "**")
    case Italic => ("*", "*")
    case Heading => ("# ", "")
    case Link => ("[", "](url)")
    case Code => ("`", "`")
    case List => ("- ", "")
    case NumberedList => ("1. ", "")
    case Quote => ("> ", "")
  }

  predicate IsPrefixOnly(b: Button)
  {
    b == Heading || b == List || b == NumberedList || b == Quote
  }

  /** Heading, list, numbered list and quote only insert a prefix before the
      selection; the other buttons wrap it on both sides. */
  lemma PrefixButtons(b: Button, value: string, start: nat, end: nat)
    requires start <= end <= |value|
    ensures IsPrefixOnly(b) <==> Markers(b).1 == ""
    ensures IsPrefixOnly(b) ==>
      Splice(value, Markers(b).0, Markers(b).1, start, end) == value[..start] + Markers(b).0 + value[start..]
  {
    SpliceInRange(value, Markers(b).0, Markers(b).1, start, end);
    assert value[start..end] + value[end..] == value[start..];
  }

  /** `.replace(/\n/g, '<br/>')`, the last step of `renderMarkdown`. */
  function BreakLines(s: string): (r: string)
    ensures forall i :: 0 <= i < |r| ==> r[i] != '\n'
  {
    if s == [] then []
    else (if s[0] == '\n' then "<br/>" else [s[0]]) + BreakLines(s[1..])
  }

  /** Text without newlines is left as it is. */
  lemma {:induction false} BreakLinesNoNewline(s: string)
    requires forall i :: 0 <= i < |s| ==> s[i] != '\n'
    ensures BreakLines(s) == s
  {
    if s != [] {
      BreakLinesNoNewline(s[1..]);
    }
  }

  /** Replacing line by line is replacing the whole text. */
  lemma {:induction false} BreakLinesAppend(a: string, b: string)
    ensures BreakLines(a + b) == BreakLines(a) + BreakLines(b)
  {
    if a == [] {
      assert a + b == b;
    } else {
      var ab := a + b;
      assert ab[0] == a[0] && ab[1..] == a[1..] + b;
      BreakLinesAppend(a[1..], b);
    }
  }

  /** Each newline grows the text by the four extra characters of `<br/>`. */
  lemma {:induction false} BreakLinesLength(s: string)
    ensures |BreakLines(s)| == |s| + 4 * Seqs.Count(s, c => c == '\n')
  {
    if s != [] {
      BreakLinesLength(s[1..]);
    }
  }

  class RichTextEditorState {
    /** The controlled `value`, replaced through `onChange`. */
    var value: string
    var isPreview: bool
    /** The selection the editor last restored, if any. */
    var selection: Option<Selection>

    constructor (value: string)
      ensures this.value == value && !isPreview && selection == None
    {
      this.value, isPreview, selection := value, false, None;
    }

    /** `insertMarkdown(before, after)`; `textarea` is the selection of the
        first textarea on the page, `None` when there is none. */
    method InsertMarkdown(before: string, after: string, textarea: Option<Selection>)
      modifies this`value, this`selection
      ensures textarea == None ==> value == old(value) && selection == old(selection)
      ensures textarea.Some? ==>
        value == Splice(old(value), before, after, textarea.value.start, textarea.value.end)
        && selection == Some(Restored(old(value), before, textarea.value.start, textarea.value.end))
    {
      if textarea == None {
        return;
      }
      var start, end := textarea.value.start, textarea.value.end;
      var v := value;
      value := Splice(v, before, after, start, end);
      selection := Some(Restored(v, before, start, end));
    }

    /** A toolbar button's `action`. */
    method Press(b: Button, textarea: Option<Selection>)
      modifies this`value, this`selection
      ensures textarea == None ==> value == old(value) && selection == old(selection)
      ensures textarea.Some? ==>
        value == Splice(old(value), Markers(b).0, Markers(b).1, textarea.value.start, textarea.value.end)
        && selection == Some(Restored(old(value), Markers(b).0, textarea.value.start, textarea.value.end))
    {
      InsertMarkdown(Markers(b).0, Markers(b).1, textarea);
    }

    /** The Preview / Edit button. */
    method TogglePreview()
      modifies this`isPreview
      ensures isPreview == !old(isPreview)
    {
      isPreview := !isPreview;
    }
  }
}
