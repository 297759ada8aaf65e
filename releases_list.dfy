/** The public release timeline: how a release body becomes one bullet
    paragraph per non-blank line, the badge of a release type, and which view
    the page shows. */
module ReleasesList {

  import opened Wrappers
  import opened Text
  import Seqs

  /** `s.split("\n")` */
  function Split(s: string): (r: seq<string>)
    ensures |r| >= 1
    ensures forall i :: 0 <= i < |r| ==> '\n' !in r[i]
  {
    if s == [] then [""]
    else
      var rest := Split(s[1..]);
      if s[0] == '\n' then [""] + rest
      else [[s[0]] + rest[0]] + rest[1..]
  }

  /** `parts.join(sep)` */
  function Join(parts: seq<string>, sep: string): string
  {
    if |parts| == 0 then ""
    else if |parts| == 1 then parts[0]
    else parts[0] + sep + Join(parts[1..], sep)
  }

  /** Joining the lines with the separator they were split on gives the
      body back. */
  lemma {:induction false} SplitJoin(s: string)
    ensures Join(Split(s), "\n") == s
  {
    if s != [] {
      var rest := Split(s[1..]);
      SplitJoin(s[1..]);
      if s[0] == '\n' {
        assert Split(s) == [""] + rest;
        assert (["" ] + rest)[1..] == rest;
      } else {
        var r := Split(s);
        assert r == [[s[0]] + rest[0]] + rest[1..];
        if |rest| > 1 {
          assert r[1..] == rest[1..];
          assert Join(rest, "\n") == rest[0] + "\n" + Join(rest[1..], "\n");
        }
      }
    }
  }

  /** Splitting at a newline splits the two sides independently. */
  lemma {:induction false} SplitAppend(a: string, b: string)
    ensures Split(a + "\n" + b) == Split(a) + Split(b)
  {
    var s := a + "\n" + b;
    if a == [] {
      assert s == "\n" + b;
      assert s[1..] == b;
      assert Split(s) == [""] + Split(b);
    } else {
      assert s[0] == a[0] && s[1..] == a[1..] + "\n" + b;
      SplitAppend(a[1..], b);
      var x, y := Split(a[1..]), Split(b);
      assert Split(s[1..]) == x + y;
      if a[0] == '\n' {
        assert Split(s) == [""] + (x + y);
        assert Split(a) == [""] + x;
        ConsAppend("", x, y);
      } else {
        assert (x + y)[0] == x[0] && (x + y)[1..] == x[1..] + y;
        assert Split(s) == [[a[0]] + x[0]] + (x[1..] + y);
        assert Split(a) == [[a[0]] + x[0]] + x[1..];
        ConsAppend([a[0]] + x[0], x[1..], y);
      }
    }
  }

  lemma ConsAppend(h: string, x: seq<string>, y: seq<string>)
    ensures [h] + (x + y) == [h] + x + y
  {
  }

  /** `line.trim()` is truthy. */
  predicate IsContentLine(line: string)
  {
    !IsBlank(line)
  }

  predicate IsBullet(c: char)
  {
    c == '-' || c == '*'
  }

  /** `line.replace` of the pattern `^[-*]\s*` by "": one `-` or `*` in the
      first column, and the whitespace after it. */
  function StripBullet(line: string): (r: string)
  {
    if line != [] && IsBullet(line[0]) then TrimStart(line[1..]) else line
  }

  /** Only a bullet in the first column is removed, and only one: an
      indented bullet stays, and so does the second `-` of "--x". */
  lemma StripBulletOnce(line: string)
    ensures line == [] || !IsBullet(line[0]) ==> StripBullet(line) == line
    ensures |line| >= 2 && IsBullet(line[0]) && IsBullet(line[1]) ==> StripBullet(line) == line[1..]
    ensures line != [] && IsBullet(line[0]) ==> StripBullet(line) == TrimStart(line[1..])
  {
  }

  /** The text of one paragraph: a bullet sign, then the line without its
      own bullet. */
  function ParagraphText(line: string): string
  {
    "• " + StripBullet(line)
  }

  function MapParagraphs(lines: seq<string>): seq<string>
  {
    seq(|lines|, i requires 0 <= i < |lines| => ParagraphText(lines[i]))
  }

  /** The paragraph texts of a release body, in order. */
  function Paragraphs(body: string): seq<string>
  {
    MapParagraphs(Seqs.Filter(Split(body), IsContentLine))
  }

  /** `<p class="text-sm text-muted-foreground">…</p>` around one paragraph. */
  function Wrap(paragraph: string): string
  {
    "<p class=\"text-sm text-muted-foreground\">" + paragraph + "</p>"
  }

  function WrapAll(paragraphs: seq<string>): seq<string>
  {
    seq(|paragraphs|, i requires 0 <= i < |paragraphs| => Wrap(paragraphs[i]))
  }

  /** The HTML of a release body: its paragraphs, each wrapped, joined with "". */
  function RenderBody(body: string): string
  {
    Join(WrapAll(Paragraphs(body)), "")
  }

  /** Joining with "" distributes over concatenation. */
  lemma {:induction false} JoinConcat(x: seq<string>, y: seq<string>)
    ensures Join(x + y, "") == Join(x, "") + Join(y, "")
  {
    if |x| == 1 && y != [] {
      assert (x + y)[1..] == y;
    } else if |x| > 1 {
      assert (x + y)[1..] == x[1..] + y;
      JoinConcat(x[1..], y);
    } else if x == [] {
      assert x + y == y;
    } else {
      assert x + y == x;
    }
  }

  /** A body rendered in two parts split at a newline is the concatenation
      of the two parts' HTML. */
  lemma RenderBodyAppend(a: string, b: string)
    ensures RenderBody(a + "\n" + b) == RenderBody(a) + RenderBody(b)
  {
    var pa, pb := Paragraphs(a), Paragraphs(b);
    ParagraphsAppend(a, b);
    assert WrapAll(pa + pb) == WrapAll(pa) + WrapAll(pb);
    JoinConcat(WrapAll(pa), WrapAll(pb));
  }

  /** A single line renders as its wrapped paragraph when it is not blank,
      and as nothing when it is; with `RenderBodyAppend` this gives the HTML
      of every body. */
  lemma RenderBodyLine(line: string)
    requires '\n' !in line
    ensures IsContentLine(line) ==> RenderBody(line) == Wrap("• " + StripBullet(line))
    ensures !IsContentLine(line) ==> RenderBody(line) == ""
  {
    SplitNoNewline(line);
    if IsContentLine(line) {
      assert Seqs.Filter([line], IsContentLine) == [line];
      assert WrapAll(Paragraphs(line)) == [Wrap(ParagraphText(line))];
    } else {
      assert Seqs.Filter([line], IsContentLine) == [];
    }
  }

  /** One paragraph per line whose trim is non-empty, each starting with the
      bullet sign and made from the line at the same position among the
      non-blank lines. */
  lemma ParagraphsOfBody(body: string)
    ensures |Paragraphs(body)| == Seqs.Count(Split(body), IsContentLine)
    ensures forall i :: 0 <= i < |Paragraphs(body)| ==> Paragraphs(body)[i][..2] == "• "
    ensures var kept := Seqs.Filter(Split(body), IsContentLine);
      forall i :: 0 <= i < |kept| ==> IsContentLine(kept[i]) && Paragraphs(body)[i] == ParagraphText(kept[i])
  {
    var kept := Seqs.Filter(Split(body), IsContentLine);
    Seqs.FilterLength(Split(body), IsContentLine);
    forall i | 0 <= i < |kept| ensures Paragraphs(body)[i] == ParagraphText(kept[i]) && Paragraphs(body)[i][..2] == "• " {
      ParagraphAt(kept, i);
    }
  }

  /** The paragraph at position `i` is made from the line at `i`. */
  lemma ParagraphAt(lines: seq<string>, i: nat)
    requires i < |lines|
    ensures |MapParagraphs(lines)| == |lines|
    ensures MapParagraphs(lines)[i] == ParagraphText(lines[i])
    ensures MapParagraphs(lines)[i][..2] == "• "
  {
    var t := StripBullet(lines[i]);
    assert ("• " + t)[..2] == "• ";
  }

  lemma MapParagraphsAppend(x: seq<string>, y: seq<string>)
    ensures MapParagraphs(x + y) == MapParagraphs(x) + MapParagraphs(y)
  {
    var l, r := MapParagraphs(x + y), MapParagraphs(x) + MapParagraphs(y);
    assert |l| == |r|;
    forall i | 0 <= i < |l| ensures l[i] == r[i] {
      if i < |x| {
        assert (x + y)[i] == x[i];
        assert r[i] == MapParagraphs(x)[i];
      } else {
        assert (x + y)[i] == y[i - |x|];
        assert r[i] == MapParagraphs(y)[i - |x|];
      }
    }
  }

  /** Paragraphs keep the order of the lines: the paragraphs of two parts
      joined by a newline are those of the first part followed by those of
      the second. */
  lemma ParagraphsAppend(a: string, b: string)
    ensures Paragraphs(a + "\n" + b) == Paragraphs(a) + Paragraphs(b)
  {
    SplitAppend(a, b);
    Seqs.FilterAppend(Split(a), Split(b), IsContentLine);
    MapParagraphsAppend(Seqs.Filter(Split(a), IsContentLine), Seqs.Filter(Split(b), IsContentLine));
  }

  /** A blank or whitespace-only line gives no paragraph. */
  lemma BlankLineAddsNothing(a: string, blank: string, b: string)
    requires IsBlank(blank) && '\n' !in blank
    ensures Paragraphs(a + "\n" + blank + "\n" + b) == Paragraphs(a + "\n" + b)
  {
    var rest := blank + "\n" + b;
    assert a + "\n" + blank + "\n" + b == a + "\n" + rest;
    ParagraphsAppend(a, rest);
    assert Paragraphs(rest) == Paragraphs(b) by {
      BlankLineGivesNone(blank);
      ParagraphsAppend(blank, b);
    }
    ParagraphsAppend(a, b);
  }

  /** A blank line on its own gives no paragraph. */
  lemma BlankLineGivesNone(blank: string)
    requires IsBlank(blank) && '\n' !in blank
    ensures Paragraphs(blank) == []
  {
    SplitNoNewline(blank);
    assert Seqs.Filter([blank], IsContentLine) == [];
  }

  lemma {:induction false} SplitNoNewline(s: string)
    requires '\n' !in s
    ensures Split(s) == [s]
  {
    if s != [] {
      assert '\n' !in s[1..];
      SplitNoNewline(s[1..]);
      assert [s[0]] + s[1..] == s;
    }
  }

  /** One entry of `typeConfig`: its `label` and its `color`. */
  datatype TypeStyle = TypeStyle(title: string, color: string)

  const KnownTypes: set<string> := {"major", "minor", "patch", "hotfix"}

  /** `typeConfig[type]`, `None` for a type the table does not list. */
  function TypeConfig(releaseType: string): Option<TypeStyle>
  {
    match releaseType
    case "major" => Some(TypeStyle("Major", "bg-red-500"))
    case "minor" => Some(TypeStyle("Minor", "bg-blue-500"))
    case "patch" => Some(TypeStyle("Patch", "bg-green-500"))
    case "hotfix" => Some(TypeStyle("Hotfix", "bg-orange-500"))
    case _ => None
  }

  /** The two badges at the head of a release card: a coloured one showing
      the tag name, and an outline one showing the type's label. */
  datatype Badges = Badges(tagText: string, tagColor: string, typeCaption: string)

  /** `typeConfig[type]?.color || "bg-gray-500"` colours the tag badge, and
      `typeConfig[type]?.label || type` is the outline badge's caption. */
  function ReleaseBadges(r: Release): (b: Badges)
    ensures b.tagText == r.tagName
    ensures r.releaseType !in KnownTypes ==> b.tagColor == "bg-gray-500" && b.typeCaption == r.releaseType
    ensures r.releaseType in KnownTypes ==>
      b.tagColor != "bg-gray-500"
      && b.typeCaption == [UpperChar(r.releaseType[0])] + r.releaseType[1..]
  {
    var style := TypeConfig(r.releaseType);
    var color := if style.Some? && style.value.color != "" then style.value.color else "bg-gray-500";
    var caption := if style.Some? && style.value.title != "" then style.value.title else r.releaseType;
    Badges(r.tagName, color, caption)
  }

  datatype Release = Release(id: string, tagName: string, name: string, body: string, releaseType: string)

  /** What the page renders. */
  datatype View = Loading | ErrorView(message: string) | Empty | Timeline(releases: seq<Release>)

  function ViewOf(isLoading: bool, error: Option<string>, releases: seq<Release>): (v: View)
  {
    if isLoading then Loading
    else if IsTruthy(error) then ErrorView(error.value)
    else if |releases| == 0 then Empty
    else Timeline(releases)
  }

  /** The views in priority order: loading hides everything, an error hides
      the list, and the timeline is shown only when it has releases. An
      empty error message is falsy and does not show the error view. */
  lemma ViewPriority(isLoading: bool, error: Option<string>, releases: seq<Release>)
    ensures ViewOf(isLoading, error, releases).Loading? <==> isLoading
    ensures ViewOf(isLoading, error, releases).ErrorView? <==> !isLoading && IsTruthy(error)
    ensures ViewOf(isLoading, error, releases).Timeline? <==>
      !isLoading && !IsTruthy(error) && |releases| > 0
    ensures ViewOf(isLoading, error, releases).Timeline? ==> ViewOf(isLoading, error, releases).releases == releases
    ensures !isLoading && error == Some("") && releases == [] ==> ViewOf(isLoading, error, releases) == Empty
  {
  }

  const LoadFailed := "Không thể tải danh sách releases"

  class ReleasesListClient {
    var releases: seq<Release>
    var isLoading: bool
    var error: Option<string>

    constructor ()
      ensures releases == [] && isLoading && error == None
    {
      releases, isLoading, error := [], true, None;
    }

    /** `fetchReleases`, given what `githubApi.getReleases()` returned: the
        data object, whose `releases` may be missing, or the thrown value.
        A failed fetch keeps the releases shown before. */
    method FetchReleases(outcome: Fetched<Option<seq<Release>>>)
      modifies this
      ensures !isLoading
      ensures outcome.Got? ==> releases == outcome.value.GetOr([]) && error == None
      ensures outcome.Failed? ==> releases == old(releases) && error == Some(outcome.message.GetOr(LoadFailed))
    {
      isLoading := true;
      match outcome {
        case Got(data) =>
          releases := data.GetOr([]);
          error := None;
        case Failed(message) =>
          error := Some(message.GetOr(LoadFailed));
      }
      isLoading := false;
    }
  }
}
