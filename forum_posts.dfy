/** The forum post list: the relative time shown for a post, the excerpt
    with its HTML tags stripped, and the category badge. */
module ForumPosts {

  import opened Wrappers
  import opened Text

  const HourMs := 1000 * 60 * 60

  /** What `formatTime` shows. */
  datatype TimeLabel =
    | JustNow               // "Vừa xong"
    | HoursAgo(hours: int)  // "<hours> giờ trước"
    | DaysAgo(days: int)    // "<days> ngày trước"
    | OnDate                // the date formatted for vi-VN

  /** `formatTime(dateString)` with the clock reading `now` and the parsed
      date in milliseconds (`None` when the string does not parse, where every
      comparison with NaN is false). Dafny's `/` by a positive number rounds
      down like `Math.floor`, negative differences included. */
  function FormatTime(created: Option<int>, now: int): (r: TimeLabel)
  {
    if created.None? then OnDate
    else
      var diff := now - created.value;
      var hours := diff / HourMs;
      var days := hours / 24;
      if hours < 1 then JustNow
      else if hours < 24 then HoursAgo(hours)
      else if days < 7 then DaysAgo(days)
      else OnDate
  }

  /** Each label in terms of the elapsed time: under an hour (future dates
      included) is "just now", then whole hours 1 to 23, then whole days 1 to
      6, then the date. */
  lemma FormatTimeBuckets(created: Option<int>, now: int)
    ensures var r := FormatTime(created, now);
      && (r == JustNow <==> created.Some? && now - created.value < HourMs)
      && (r.HoursAgo? <==> created.Some? && HourMs <= now - created.value < 24 * HourMs)
      && (r.HoursAgo? ==> 1 <= r.hours < 24 && r.hours * HourMs <= now - created.value < (r.hours + 1) * HourMs)
      && (r.DaysAgo? <==> created.Some? && 24 * HourMs <= now - created.value < 7 * 24 * HourMs)
      && (r.DaysAgo? ==> 1 <= r.days <= 6 && r.days * 24 * HourMs <= now - created.value < (r.days + 1) * 24 * HourMs)
      && (r == OnDate <==> created.None? || now - created.value >= 7 * 24 * HourMs)
  {
    if created.Some? {
      var diff := now - created.value;
      var hours := diff / HourMs;
      assert hours * HourMs <= diff < (hours + 1) * HourMs;
      var days := hours / 24;
      assert days * 24 <= hours < (days + 1) * 24;
      if hours < 1 {
        assert diff < HourMs;
      } else if hours < 24 {
        assert HourMs <= diff < 24 * HourMs;
      } else if days < 7 {
        assert 24 * HourMs <= diff < 7 * 24 * HourMs;
      } else {
        assert diff >= 7 * 24 * HourMs;
      }
    }
  }

  /** Position of the first `c` in `s`. */
  function IndexOf(s: string, c: char): (r: nat)
    requires c in s
    ensures r < |s| && s[r] == c && c !in s[..r]
  {
    if s[0] == c then 0 else 1 + IndexOf(s[1..], c)
  }

  /** `s.replace(/<[^>]*>/g, "")`: from each `<` up to the first `>` after
      it, the text is removed; a `<` with no `>` after it stays. */
  function StripTags(s: string): (r: string)
    ensures forall c :: c in r ==> c in s
    decreases |s|
  {
    if s == [] then []
    else if s[0] == '<' && '>' in s[1..] then StripTags(s[IndexOf(s[1..], '>') + 2..])
    else [s[0]] + StripTags(s[1..])
  }

  /** No `<` is followed anywhere later by a `>`. */
  predicate NoTag(r: string)
  {
    forall i, j :: 0 <= i < j < |r| && r[i] == '<' ==> r[j] != '>'
  }

  /** After stripping, no tag is left. */
  lemma {:induction false} StripTagsLeavesNoTag(s: string)
    ensures NoTag(StripTags(s))
    decreases |s|
  {
    if s != [] {
      if s[0] == '<' && '>' in s[1..] {
        var rest := s[IndexOf(s[1..], '>') + 2..];
        StripTagsLeavesNoTag(rest);
        assert StripTags(s) == StripTags(rest);
      } else {
        StripTagsLeavesNoTag(s[1..]);
        var r := StripTags(s);
        var t := StripTags(s[1..]);
        assert r == [s[0]] + t;
        forall i, j | 0 <= i < j < |r| && r[i] == '<' ensures r[j] != '>' {
          assert r[j] == t[j - 1];
          if i == 0 {
            assert s[0] == '<' && '>' !in s[1..];
            assert t[j - 1] in t;
            assert t[j - 1] in s[1..];
          } else {
            assert r[i] == t[i - 1];
            assert 0 <= i - 1 < j - 1 < |t| && t[i - 1] == '<';
          }
        }
      }
    }
  }

  /** Text without `<` is left as it is. */
  lemma {:induction false} StripTagsPlainText(s: string)
    requires '<' !in s
    ensures StripTags(s) == s
  {
    if s != [] {
      StripTagsPlainText(s[1..]);
    }
  }

  const ExcerptLength := 200

  /** `content.replace(/<[^>]*>/g, "").substring(0, 200)` followed by "...",
      which is added even when the text is shorter. */
  function Excerpt(content: string): string
  {
    var text := StripTags(content);
    text[..if |text| < ExcerptLength then |text| else ExcerptLength] + "..."
  }

  lemma ExcerptShape(content: string)
    ensures var e := Excerpt(content);
      var text := StripTags(content);
      && |e| <= ExcerptLength + 3
      && e[|e| - 3..] == "..."
      && e[..|e| - 3] == text[..|e| - 3]
      && (|text| <= ExcerptLength ==> e == text + "...")
  {
  }

  datatype Category = Category(id: string, name: string, icon: string)

  const Categories: seq<Category> := [
    Category("tips", "Tips", "💡"),
    Category("tricks", "Tricks", "🎯"),
    Category("guide", "Hướng dẫn", "📖"),
    Category("question", "Hỏi đáp", "❓"),
    Category("discussion", "Thảo luận", "💬"),
    Category("bug", "Bug", "🐛"),
    Category("suggestion", "Góp ý", "💡")
  ]

  /** `categories.find((c) => c.id === id)` */
  function Find(cats: seq<Category>, id: string): (r: Option<Category>)
    ensures r.None? <==> forall i :: 0 <= i < |cats| ==> cats[i].id != id
    ensures r.Some? ==> r.value in cats && r.value.id == id
    ensures forall i :: 0 <= i < |cats| && cats[i].id == id && (forall k :: 0 <= k < i ==> cats[k].id != id) ==>
      r == Some(cats[i])
  {
    if cats == [] then None
    else if cats[0].id == id then Some(cats[0])
    else Find(cats[1..], id)
  }

  /** `categories.find((c) => c.id === id)?.name || id` */
  function LabelIn(cats: seq<Category>, id: string): string
  {
    var c := Find(cats, id);
    if c.Some? && c.value.name != "" then c.value.name else id
  }

  /** The badge text of a post's category. */
  function CategoryLabel(id: string): string
  {
    LabelIn(Categories, id)
  }

  /** An unknown category shows its raw id; a known one shows the name of
      its first entry. */
  lemma CategoryLabelFallback(cats: seq<Category>, id: string)
    ensures (forall i :: 0 <= i < |cats| ==> cats[i].id != id) ==> LabelIn(cats, id) == id
    ensures forall i :: (0 <= i < |cats| && cats[i].id == id && cats[i].name != ""
      && forall k :: 0 <= k < i ==> cats[k].id != id) ==> LabelIn(cats, id) == cats[i].name
  {
  }
}
