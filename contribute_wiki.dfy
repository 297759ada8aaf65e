/** The "contribute a wiki article" dialog: the slug generated from a title,
    the rule by which the slug follows the title, and the submit handler. */
module ContributeWiki {

  import opened Wrappers
  import opened Text
  import Seqs

  // ---------------------------------------------------------------------------
  // Slug generation: toLowerCase, NFD, drop U+0300-U+036F, đ -> d,
  // drop [^a-z0-9\s-], \s+ -> "-", -+ -> "-", trim.
  // ---------------------------------------------------------------------------

  /** The canonical decomposition (NFD) of each code point is supplied by the
      caller; `FixesAscii` is what NFD guarantees for the characters a slug
      can contain. */
  type Decomposition = char -> string

  predicate FixesAscii(decompose: Decomposition)
  {
    forall c: char :: c < '\U{0080}' ==> decompose(c) == [c]
  }

  /** `s.normalize("NFD")`, one code point at a time. */
  function Decompose(s: string, decompose: Decomposition): string
  {
    if s == [] then [] else decompose(s[0]) + Decompose(s[1..], decompose)
  }

  /** Combining diacritical marks, U+0300 to U+036F. */
  predicate IsCombiningMark(c: char)
  {
    '\U{0300}' <= c <= '\U{036F}'
  }

  /** `.replace(/[̀-ͯ]/g, "")` */
  function DropMarks(s: string): string
  {
    Seqs.Filter(s, c => !IsCombiningMark(c))
  }

  /** `.replace(/đ/g, "d")` */
  function ReplaceDStroke(s: string): string
  {
    seq(|s|, i requires 0 <= i < |s| => if s[i] == '\U{0111}' then 'd' else s[i])
  }

  /** Characters that survive `.replace(/[^a-z0-9\s-]/g, "")`. */
  predicate IsKept(c: char)
  {
    ('a' <= c <= 'z') || ('0' <= c <= '9') || IsSpace(c) || c == '-'
  }

  function KeepSlugInput(s: string): string
  {
    Seqs.Filter(s, IsKept)
  }

  /** `s` with its leading run of `-` removed. */
  function SkipDashes(s: string): (r: string)
    ensures |r| <= |s| && (s != [] && s[0] == '-' ==> |r| < |s|)
    ensures r == [] || r[0] != '-'
    ensures r == s[|s| - |r|..]
  {
    if s != [] && s[0] == '-' then SkipDashes(s[1..]) else s
  }

  /** `.replace(/-+/g, "-")`: every run of `-` becomes a single `-`. */
  function CollapseDashes(s: string): string
    decreases |s|
  {
    if s == [] then []
    else if s[0] == '-' then "-" + CollapseDashes(SkipDashes(s))
    else [s[0]] + CollapseDashes(s[1..])
  }

  /** `generateSlug(text)` */
  function Slug(text: string, decompose: Decomposition): string
  {
    Trim(CollapseDashes(HyphenateSpaces(KeepSlugInput(ReplaceDStroke(DropMarks(Decompose(Lower(text), decompose)))))))
  }

  predicate IsSlugChar(c: char)
  {
    ('a' <= c <= 'z') || ('0' <= c <= '9') || c == '-'
  }

  predicate NoDoubleDash(s: string)
  {
    forall i :: 0 <= i < |s| - 1 ==> !(s[i] == '-' && s[i + 1] == '-')
  }

  /** What `generateSlug` can return: lower-case letters, digits and single dashes. */
  predicate IsSlug(s: string)
  {
    (forall i :: 0 <= i < |s| ==> IsSlugChar(s[i])) && NoDoubleDash(s)
  }

  /** Collapsing keeps the characters it is given (plus `-`), and never leaves
      two dashes side by side. */
  lemma {:induction false} CollapseDashesShape(s: string)
    ensures forall i :: 0 <= i < |CollapseDashes(s)| ==> CollapseDashes(s)[i] == '-' || CollapseDashes(s)[i] in s
    ensures NoDoubleDash(CollapseDashes(s))
    ensures s != [] ==> CollapseDashes(s) != [] && (CollapseDashes(s)[0] == '-' <==> s[0] == '-')
    decreases |s|
  {
    if s != [] {
      if s[0] == '-' {
        var t := SkipDashes(s);
        CollapseDashesShape(t);
        forall i | 0 <= i < |CollapseDashes(t)| ensures CollapseDashes(t)[i] == '-' || CollapseDashes(t)[i] in s {
          assert CollapseDashes(t)[i] == '-' || CollapseDashes(t)[i] in t;
        }
      } else {
        CollapseDashesShape(s[1..]);
        var r := CollapseDashes(s);
        assert r == [s[0]] + CollapseDashes(s[1..]);
        forall i | 0 <= i < |r| - 1 ensures !(r[i] == '-' && r[i + 1] == '-') {
          if i > 0 {
            assert r[i] == CollapseDashes(s[1..])[i - 1];
          }
        }
      }
    }
  }

  /** A string without two consecutive dashes is left alone by collapsing. */
  lemma {:induction false} CollapseDashesNoOp(s: string)
    requires NoDoubleDash(s)
    ensures CollapseDashes(s) == s
  {
    if s != [] {
      assert NoDoubleDash(s[1..]);
      CollapseDashesNoOp(s[1..]);
      if s[0] == '-' {
        assert SkipDashes(s) == s[1..];
      }
    }
  }

  /** The stages after `normalize` keep only slug characters. */
  lemma SlugCharsOnly(text: string, decompose: Decomposition)
    ensures IsSlug(Slug(text, decompose))
  {
    var kept := KeepSlugInput(ReplaceDStroke(DropMarks(Decompose(Lower(text), decompose))));
    var hyph := HyphenateSpaces(kept);
    var coll := CollapseDashes(hyph);
    forall i | 0 <= i < |hyph| ensures IsSlugChar(hyph[i]) {
      HyphenateChars(kept, i);
    }
    CollapseDashesShape(hyph);
    NoSpaceTrim(coll);
  }

  /** A character of the hyphenated text is a `-` or a kept non-space character. */
  lemma {:induction false} HyphenateChars(s: string, i: nat)
    requires forall j :: 0 <= j < |s| ==> IsKept(s[j])
    requires i < |HyphenateSpaces(s)|
    ensures IsSlugChar(HyphenateSpaces(s)[i])
    decreases |s|
  {
    if IsSpace(s[0]) {
      if i > 0 {
        TrimStartSpec(s);
        HyphenateChars(TrimStart(s), i - 1);
      }
    } else if i > 0 {
      HyphenateChars(s[1..], i - 1);
    }
  }

  /** Trimming a string without whitespace changes nothing. */
  lemma NoSpaceTrim(s: string)
    requires forall i :: 0 <= i < |s| ==> !IsSpace(s[i])
    ensures Trim(s) == s
  {
  }

  /** The final `.trim()` removes nothing: the whitespace is already gone. */
  lemma SlugTrimIsNoOp(text: string, decompose: Decomposition)
    ensures Slug(text, decompose) == CollapseDashes(HyphenateSpaces(KeepSlugInput(ReplaceDStroke(DropMarks(Decompose(Lower(text), decompose))))))
  {
    var hyph := HyphenateSpaces(KeepSlugInput(ReplaceDStroke(DropMarks(Decompose(Lower(text), decompose)))));
    CollapseDashesShape(hyph);
    var coll := CollapseDashes(hyph);
    forall i | 0 <= i < |coll| ensures !IsSpace(coll[i]) {
      assert coll[i] == '-' || coll[i] in hyph;
    }
    NoSpaceTrim(coll);
  }

  /** Whitespace is turned into `-` before the final `trim`, so a title that
      starts with whitespace gives a slug that starts with a dash. */
  lemma LeadingSpaceGivesDash(text: string, decompose: Decomposition)
    requires text != [] && IsSpace(text[0]) && decompose(text[0]) == [text[0]]
    ensures Slug(text, decompose) != [] && Slug(text, decompose)[0] == '-'
  {
    var c := text[0];
    var low := Lower(text);
    assert low[0] == c;
    var dec := Decompose(low, decompose);
    assert dec == [c] + Decompose(low[1..], decompose);
    var dm := DropMarks(dec);
    assert dm == [c] + DropMarks(dec[1..]);
    var rd := ReplaceDStroke(dm);
    assert rd[0] == c;
    var kept := KeepSlugInput(rd);
    assert kept == [c] + KeepSlugInput(rd[1..]);
    var hy := HyphenateSpaces(kept);
    assert hy[0] == '-';
    CollapseDashesShape(hy);
    SlugTrimIsNoOp(text, decompose);
  }

  /** Lower-case ASCII letters, digits and `-` pass every stage untouched
      (`IsSlug` strings are the fixed points of the replace chain). */
  lemma SlugIdempotent(text: string, decompose: Decomposition)
    requires FixesAscii(decompose)
    ensures Slug(Slug(text, decompose), decompose) == Slug(text, decompose)
  {
    var o := Slug(text, decompose);
    SlugCharsOnly(text, decompose);
    SlugFixedPoint(o, decompose);
  }

  /** Every string of slug characters without a double dash is its own slug. */
  lemma SlugFixedPoint(o: string, decompose: Decomposition)
    requires FixesAscii(decompose)
    requires IsSlug(o)
    ensures Slug(o, decompose) == o
  {
    assert Lower(o) == o;
    assert Decompose(o, decompose) == o by {
      DecomposeAscii(o, decompose);
    }
    assert DropMarks(o) == o by {
      Seqs.FilterKeepsAll(o, c => !IsCombiningMark(c));
    }
    assert ReplaceDStroke(o) == o;
    assert KeepSlugInput(o) == o by {
      Seqs.FilterKeepsAll(o, IsKept);
    }
    assert HyphenateSpaces(o) == o by {
      HyphenateNoSpace(o);
    }
    assert CollapseDashes(o) == o by {
      CollapseDashesNoOp(o);
    }
    assert Trim(o) == o by {
      NoSpaceTrim(o);
    }
  }

  lemma {:induction false} DecomposeAscii(s: string, decompose: Decomposition)
    requires FixesAscii(decompose)
    requires forall i :: 0 <= i < |s| ==> s[i] < '\U{0080}'
    ensures Decompose(s, decompose) == s
  {
    if s != [] {
      DecomposeAscii(s[1..], decompose);
    }
  }

  /** `normalize` distributes over concatenation. */
  lemma {:induction false} DecomposeAppend(a: string, b: string, decompose: Decomposition)
    ensures Decompose(a + b, decompose) == Decompose(a, decompose) + Decompose(b, decompose)
  {
    if a == [] {
      assert a + b == b;
    } else {
      var ab := a + b;
      assert ab[0] == a[0] && ab[1..] == a[1..] + b;
      DecomposeAppend(a[1..], b, decompose);
    }
  }

  /** A combining mark (that NFD keeps as it is) is invisible in the slug:
      inserting one anywhere in a title does not change its slug. */
  lemma MarksAreDropped(a: string, m: char, b: string, decompose: Decomposition)
    requires IsCombiningMark(m) && decompose(m) == [m]
    ensures Slug(a + [m] + b, decompose) == Slug(a + b, decompose)
  {
    var da, db := Decompose(Lower(a), decompose), Decompose(Lower(b), decompose);
    DecomposeInsert(a, m, b, decompose);
    DropMarksInsert(da, m, db);
    assert DropMarks(Decompose(Lower(a + [m] + b), decompose)) == DropMarks(Decompose(Lower(a + b), decompose));
  }

  lemma DecomposeInsert(a: string, m: char, b: string, decompose: Decomposition)
    requires decompose(m) == [m] && LowerChar(m) == m
    ensures Decompose(Lower(a + [m] + b), decompose) == Decompose(Lower(a), decompose) + [m] + Decompose(Lower(b), decompose)
    ensures Decompose(Lower(a + b), decompose) == Decompose(Lower(a), decompose) + Decompose(Lower(b), decompose)
  {
    assert Lower(a + [m] + b) == Lower(a) + [m] + Lower(b);
    assert Lower(a + b) == Lower(a) + Lower(b);
    DecomposeAppend(Lower(a) + [m], Lower(b), decompose);
    DecomposeAppend(Lower(a), [m], decompose);
    DecomposeAppend(Lower(a), Lower(b), decompose);
    assert Decompose([m], decompose) == [m] by {
      assert [m][1..] == [];
    }
  }

  lemma DropMarksInsert(x: string, m: char, y: string)
    requires IsCombiningMark(m)
    ensures DropMarks(x + [m] + y) == DropMarks(x + y)
  {
    var p := c => !IsCombiningMark(c);
    Seqs.FilterAppend(x + [m], y, p);
    Seqs.FilterAppend(x, [m], p);
    Seqs.FilterAppend(x, y, p);
    assert Seqs.Filter([m], p) == [];
  }

  predicate IsLetterOrDigit(c: char)
  {
    ('a' <= c <= 'z') || ('A' <= c <= 'Z') || ('0' <= c <= '9') || c == '\U{0110}' || c == '\U{0111}'
  }

  /** Letters and digits pass every stage except the first and the `đ`
      replacement untouched, so a title made of them becomes its lower-case
      form with `Đ` and `đ` turned into `d`. */
  lemma LettersAreLowerCased(text: string, decompose: Decomposition)
    requires FixesAscii(decompose) && decompose('\U{0111}') == ['\U{0111}']
    requires forall i :: 0 <= i < |text| ==> IsLetterOrDigit(text[i])
    ensures |Slug(text, decompose)| == |text|
    ensures forall i :: 0 <= i < |text| ==>
      Slug(text, decompose)[i] == (if text[i] == '\U{0110}' || text[i] == '\U{0111}' then 'd' else LowerChar(text[i]))
  {
    SlugOfLetters(text, decompose);
    LowerWithoutDStroke(text);
  }

  /** Lower-casing and then replacing `đ` maps each character on its own. */
  lemma LowerWithoutDStroke(text: string)
    ensures |ReplaceDStroke(Lower(text))| == |text|
    ensures forall i :: 0 <= i < |text| ==>
      ReplaceDStroke(Lower(text))[i] == (if text[i] == '\U{0110}' || text[i] == '\U{0111}' then 'd' else LowerChar(text[i]))
  {
  }

  lemma SlugOfLetters(text: string, decompose: Decomposition)
    requires FixesAscii(decompose) && decompose('\U{0111}') == ['\U{0111}']
    requires forall i :: 0 <= i < |text| ==> IsLetterOrDigit(text[i])
    ensures Slug(text, decompose) == ReplaceDStroke(Lower(text))
  {
    var low := Lower(text);
    var r := ReplaceDStroke(low);
    LowerLetterChars(text);
    assert Decompose(low, decompose) == low by {
      DecomposeLowerLetters(low, decompose);
    }
    assert DropMarks(low) == low by {
      Seqs.FilterKeepsAll(low, c => !IsCombiningMark(c));
    }
    assert KeepSlugInput(r) == r by {
      Seqs.FilterKeepsAll(r, IsKept);
    }
    assert HyphenateSpaces(r) == r by {
      HyphenateNoSpace(r);
    }
    assert CollapseDashes(r) == r by {
      CollapseDashesNoOp(r);
    }
    assert Trim(r) == r by {
      NoSpaceTrim(r);
    }
  }

  /** The characters of a lower-cased title of letters and digits, before
      and after `đ` is replaced. */
  lemma LowerLetterChars(text: string)
    requires forall i :: 0 <= i < |text| ==> IsLetterOrDigit(text[i])
    ensures forall i :: 0 <= i < |Lower(text)| ==> Lower(text)[i] < '\U{0080}' || Lower(text)[i] == '\U{0111}'
    ensures forall i :: 0 <= i < |ReplaceDStroke(Lower(text))| ==>
      IsSlugChar(ReplaceDStroke(Lower(text))[i]) && ReplaceDStroke(Lower(text))[i] != '-'
    ensures NoSpace(ReplaceDStroke(Lower(text)))
  {
  }

  lemma {:induction false} DecomposeLowerLetters(s: string, decompose: Decomposition)
    requires FixesAscii(decompose) && decompose('\U{0111}') == ['\U{0111}']
    requires forall i :: 0 <= i < |s| ==> s[i] < '\U{0080}' || s[i] == '\U{0111}'
    ensures Decompose(s, decompose) == s
  {
    if s != [] {
      DecomposeLowerLetters(s[1..], decompose);
    }
  }

  // ---------------------------------------------------------------------------
  // The dialog's state and handlers.
  // ---------------------------------------------------------------------------

  /** The payload of `wikiApi.createArticle`. */
  datatype ArticleData = ArticleData(title: string, slug: string, content: string, category: string)

  const DefaultCategory := "guide"

  /** The messages the dialog shows in its error banner. */
  datatype Notice = NotLoggedIn | MissingFields | CreateFailed(message: Option<string>)

  /** The text of each message; a failed call shows the thrown `Error`'s
      message, or a fallback when what was thrown is not an `Error`. */
  function NoticeText(n: Notice): string
  {
    match n
    case NotLoggedIn => "Vui lòng đăng nhập để đóng góp wiki"
    case MissingFields => "Vui lòng điền đầy đủ thông tin"
    case CreateFailed(message) => message.GetOr("Không thể tạo bài wiki")
  }

  class ContributeWikiModal {
    var title: string
    var slug: string
    var content: string
    var category: string
    var error: Option<Notice>
    var isLoading: bool
    var open: bool
    const decompose: Decomposition

    constructor (decompose: Decomposition)
      ensures title == "" && slug == "" && content == "" && category == DefaultCategory
      ensures error == None && !isLoading && !open && this.decompose == decompose
    {
      title, slug, content, category := "", "", "", DefaultCategory;
      error, isLoading, open := None, false, false;
      this.decompose := decompose;
    }

    /** While the slug is empty or still the one generated from the title, it
        follows the title; once edited by hand, it is kept. */
    predicate SlugFollowsTitle()
      reads this
    {
      slug == "" || slug == Slug(title, decompose)
    }

    /** `handleTitleChange(value)`: the comparison uses the title as it was
        before this change. */
    method HandleTitleChange(value: string)
      modifies this`title, this`slug
      ensures title == value
      ensures old(SlugFollowsTitle()) ==> slug == Slug(value, decompose)
      ensures !old(SlugFollowsTitle()) ==> slug == old(slug)
      ensures SlugFollowsTitle() || slug == old(slug)
    {
      var follows := slug == "" || slug == Slug(title, decompose);
      var generated := Slug(value, decompose);
      title := value;
      if follows {
        slug := generated;
      }
    }

    /** The slug input's `onChange`. */
    method EditSlug(value: string)
      modifies this`slug
      ensures slug == value
      ensures SlugFollowsTitle() <==> value == "" || value == Slug(title, decompose)
    {
      slug := value;
    }

    /** `handleSubmit` with the login token and the outcome of the awaited
        `createArticle` call; `sent` is the payload the call received. */
    method HandleSubmit(token: Option<string>, outcome: ApiOutcome) returns (sent: Option<ArticleData>)
      modifies this`title, this`slug, this`content, this`category, this`error, this`isLoading, this`open
      ensures !IsTruthy(token) ==> sent == None && error == Some(NotLoggedIn)
      ensures IsTruthy(token) && (IsBlank(old(title)) || IsBlank(old(content)) || IsBlank(old(slug))) ==>
        sent == None && error == Some(MissingFields)
      ensures sent == None ==>
        title == old(title) && slug == old(slug) && content == old(content)
        && category == old(category) && isLoading == old(isLoading) && open == old(open)
      ensures sent.Some? <==> IsTruthy(token) && !IsBlank(old(title)) && !IsBlank(old(content)) && !IsBlank(old(slug))
      ensures sent.Some? ==> sent.value == ArticleData(Trim(old(title)), Trim(old(slug)), Trim(old(content)), old(category))
      ensures sent.Some? && outcome.Resolved? ==>
        title == "" && slug == "" && content == "" && category == DefaultCategory && !open && error == None
      ensures sent.Some? && outcome.Threw? ==>
        title == old(title) && slug == old(slug) && content == old(content) && category == old(category)
        && open == old(open) && error == Some(CreateFailed(outcome.message))
      ensures sent.Some? ==> !isLoading
    {
      if !IsTruthy(token) {
        error := Some(NotLoggedIn);
        return None;
      }
      var t, s, c := title, slug, content;
      if IsBlank(t) || IsBlank(c) || IsBlank(s) {
        error := Some(MissingFields);
        return None;
      }
      var data := ArticleData(Trim(t), Trim(s), Trim(c), category);
      isLoading := true;
      error := None;
      sent := Some(data);
      if outcome.Resolved? {
        title, slug, content, category := "", "", "", DefaultCategory;
        open := false;
      } else {
        error := Some(CreateFailed(outcome.message));
      }
      isLoading := false;
    }
  }
}
