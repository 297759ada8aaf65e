/** The structured-data (JSON-LD) records the pages embed: the generic
    record with its `@context` and `@type`, breadcrumbs, FAQ entries and the
    article record of a shikigami page. Objects keep their keys in insertion
    order, as JavaScript objects do for keys that do not look like array
    indices (JavaScript lists integer-like keys first, in numeric order); no
    key used here is integer-like. */
module SeoJsonLd {

  import opened Wrappers
  import opened Text
  import Seqs

  datatype Json =
    | Undefined
    | Str(s: string)
    | Num(n: int)
    | Arr(items: seq<Json>)
    | Obj(members: seq<Member>)

  datatype Member = Member(key: string, value: Json)

  function Keys(m: seq<Member>): (r: seq<string>)
    ensures |r| == |m| && forall i :: 0 <= i < |m| ==> r[i] == m[i].key
  {
    seq(|m|, i requires 0 <= i < |m| => m[i].key)
  }

  /** The value stored under `key`, if the object has that key. */
  function Get(m: seq<Member>, key: string): (r: Option<Json>)
    ensures r.None? <==> key !in Keys(m)
  {
    if m == [] then None
    else if m[0].key == key then Some(m[0].value)
    else
      assert Keys(m) == [m[0].key] + Keys(m[1..]);
      Get(m[1..], key)
  }

  /** `obj[key] = value`: an existing key keeps its place and takes the new
      value; a new key goes at the end (the order JavaScript keeps for keys
      that are not integer-like). */
  function Put(m: seq<Member>, key: string, value: Json): (r: seq<Member>)
  {
    if m == [] then [Member(key, value)]
    else if m[0].key == key then [Member(key, value)] + m[1..]
    else [m[0]] + Put(m[1..], key, value)
  }

  /** After `Put`, the key holds the new value and every other key is as
      before. */
  lemma {:induction false} PutGet(m: seq<Member>, key: string, value: Json, other: string)
    ensures Get(Put(m, key, value), key) == Some(value)
    ensures other != key ==> Get(Put(m, key, value), other) == Get(m, other)
  {
    if m != [] && m[0].key != key {
      PutGet(m[1..], key, value, other);
    }
  }

  /** The keys after `Put` are those of `m`, plus `key` at the end if it was
      new. */
  lemma {:induction false} PutKeys(m: seq<Member>, key: string, value: Json)
    ensures key in Keys(m) ==> Keys(Put(m, key, value)) == Keys(m)
    ensures key !in Keys(m) ==> Keys(Put(m, key, value)) == Keys(m) + [key]
  {
    if m != [] {
      KeysCons(m[0], m[1..]);
      assert [m[0]] + m[1..] == m;
      if m[0].key != key {
        PutKeys(m[1..], key, value);
        KeysCons(m[0], Put(m[1..], key, value));
      } else {
        KeysCons(Member(key, value), m[1..]);
      }
    }
  }

  /** In an object without repeated keys, the value under the key at
      position `i` is the one stored there. */
  lemma {:induction false} GetAt(m: seq<Member>, i: nat)
    requires i < |m| && Seqs.Distinct(Keys(m))
    ensures Get(m, m[i].key) == Some(m[i].value)
  {
    if i > 0 {
      assert Keys(m)[0] != Keys(m)[i];
      assert Seqs.Distinct(Keys(m[1..])) by {
        assert forall j :: 0 <= j < |m| - 1 ==> Keys(m[1..])[j] == Keys(m)[j + 1];
      }
      GetAt(m[1..], i - 1);
    }
  }

  /** The keys of an object with one member in front. */
  lemma KeysCons(x: Member, rest: seq<Member>)
    ensures Keys([x] + rest) == [x.key] + Keys(rest)
  {
    assert forall i :: 0 < i < |rest| + 1 ==> ([x] + rest)[i] == rest[i - 1];
  }

  /** `{ ...target, ...data }` for the members of `data`, in order. */
  function Spread(target: seq<Member>, data: seq<Member>): seq<Member>
    decreases |data|
  {
    if data == [] then target
    else Spread(Put(target, data[0].key, data[0].value), data[1..])
  }

  /** After spreading an object (whose keys are distinct, as in any
      JavaScript object), its keys take its values and every other key keeps
      the target's value. */
  lemma {:induction false} SpreadGet(target: seq<Member>, data: seq<Member>, key: string)
    requires Seqs.Distinct(Keys(data))
    ensures Get(Spread(target, data), key) == if key in Keys(data) then Get(data, key) else Get(target, key)
    decreases |data|
  {
    if data != [] {
      var d := data[0];
      assert Keys(data) == [d.key] + Keys(data[1..]);
      assert Seqs.Distinct(Keys(data[1..])) by {
        forall i, j | 0 <= i < j < |data| - 1 ensures Keys(data[1..])[i] != Keys(data[1..])[j] {
          assert Keys(data)[i + 1] != Keys(data)[j + 1];
        }
      }
      SpreadGet(Put(target, d.key, d.value), data[1..], key);
      PutGet(target, d.key, d.value, key);
      if key == d.key {
        assert key !in Keys(data[1..]);
      }
    }
  }

  datatype SchemaType = Organization | WebSite | SoftwareApplication | Article | BreadcrumbList | FAQPage

  function TypeName(t: SchemaType): string
  {
    match t
    case Organization => "Organization"
    case WebSite => "WebSite"
    case SoftwareApplication => "SoftwareApplication"
    case Article => "Article"
    case BreadcrumbList => "BreadcrumbList"
    case FAQPage => "FAQPage"
  }

  const SchemaOrg := "https://schema.org"

  /** `JsonLd({ type, data })`: `@context` and `@type` first, then `data`
      spread over them. */
  function JsonLd(t: SchemaType, data: seq<Member>): Json
  {
    Obj(Spread([Member("@context", Str(SchemaOrg)), Member("@type", Str(TypeName(t)))], data))
  }

  /** Keys of `data` override `@context` and `@type`; the record has no
      other keys than those three sources give it. */
  lemma JsonLdKeys(t: SchemaType, data: seq<Member>, key: string)
    requires Seqs.Distinct(Keys(data))
    ensures Get(JsonLd(t, data).members, key) ==
      if key in Keys(data) then Get(data, key)
      else if key == "@context" then Some(Str(SchemaOrg))
      else if key == "@type" then Some(Str(TypeName(t)))
      else None
  {
    SpreadGet([Member("@context", Str(SchemaOrg)), Member("@type", Str(TypeName(t)))], data, key);
  }

  datatype BreadcrumbItem = BreadcrumbItem(name: string, url: string)

  function ListItem(item: BreadcrumbItem, index: nat): Json
  {
    Obj([Member("@type", Str("ListItem")), Member("position", Num(index + 1)),
         Member("name", Str(item.name)), Member("item", Str(item.url))])
  }

  lemma ListItemFields(item: BreadcrumbItem, index: nat)
    ensures Get(ListItem(item, index).members, "position") == Some(Num(index + 1))
    ensures Get(ListItem(item, index).members, "name") == Some(Str(item.name))
    ensures Get(ListItem(item, index).members, "item") == Some(Str(item.url))
  {
    var m := ListItem(item, index).members;
    assert "@type"[0] != "position"[0] && "@type"[0] != "name"[0] && "@type"[0] != "item"[0];
    assert "position"[0] != "name"[0] && "position"[0] != "item"[0] && "name"[0] != "item"[0];
    var m1 := m[1..];
    var m2 := m1[1..];
    var m3 := m2[1..];
    assert m2[0] == Member("name", Str(item.name)) && m3 == [Member("item", Str(item.url))];
    assert Get(m3, "item") == Some(Str(item.url));
    assert Get(m2, "item") == Get(m3, "item");
    assert Get(m1, "item") == Get(m2, "item");
    assert Get(m1, "name") == Get(m2, "name");
  }

  /** `BreadcrumbJsonLd({ items })` */
  function BreadcrumbJsonLd(items: seq<BreadcrumbItem>): Json
  {
    JsonLd(BreadcrumbList, [Member("itemListElement",
      Arr(seq(|items|, i requires 0 <= i < |items| => ListItem(items[i], i))))])
  }

  /** One list item per breadcrumb, in order, numbered 1 to n, with the
      name and url passed through unchanged. */
  lemma BreadcrumbPositions(items: seq<BreadcrumbItem>)
    ensures var list := Get(BreadcrumbJsonLd(items).members, "itemListElement");
      && list.Some? && list.value.Arr? && |list.value.items| == |items|
      && forall i :: 0 <= i < |items| ==>
        var e := list.value.items[i];
        && e.Obj?
        && Get(e.members, "position") == Some(Num(i + 1))
        && Get(e.members, "name") == Some(Str(items[i].name))
        && Get(e.members, "item") == Some(Str(items[i].url))
  {
    var list := Arr(seq(|items|, i requires 0 <= i < |items| => ListItem(items[i], i)));
    var data := [Member("itemListElement", list)];
    JsonLdKeys(BreadcrumbList, data, "itemListElement");
    assert Get(data, "itemListElement") == Some(list);
    forall i | 0 <= i < |items| {
      ListItemFields(items[i], i);
    }
  }

  datatype FaqItem = FaqItem(question: string, answer: string)

  function Question(item: FaqItem): Json
  {
    Obj([Member("@type", Str("Question")), Member("name", Str(item.question)),
         Member("acceptedAnswer", Obj([Member("@type", Str("Answer")), Member("text", Str(item.answer))]))])
  }

  lemma QuestionFields(item: FaqItem)
    ensures Get(Question(item).members, "name") == Some(Str(item.question))
    ensures var a := Get(Question(item).members, "acceptedAnswer");
      a.Some? && a.value.Obj? && Get(a.value.members, "text") == Some(Str(item.answer))
  {
    var m := Question(item).members;
    assert "@type"[0] != "name"[0] && "@type"[0] != "acceptedAnswer"[0] && "name"[0] != "acceptedAnswer"[0];
    assert "@type"[0] != "text"[0];
    var m1 := m[1..];
    var m2 := m1[1..];
    assert Get(m1, "acceptedAnswer") == Get(m2, "acceptedAnswer");
    var a := m[2].value.members;
    assert Get(a, "text") == Get(a[1..], "text");
  }

  /** `FAQJsonLd({ items })` */
  function FaqJsonLd(items: seq<FaqItem>): Json
  {
    JsonLd(FAQPage, [Member("mainEntity", Arr(seq(|items|, i requires 0 <= i < |items| => Question(items[i]))))])
  }

  /** One question per item, in order, named by the question and answered
      by the answer. */
  lemma FaqEntries(items: seq<FaqItem>)
    ensures var list := Get(FaqJsonLd(items).members, "mainEntity");
      && list.Some? && list.value.Arr? && |list.value.items| == |items|
      && forall i :: 0 <= i < |items| ==>
        var q := list.value.items[i];
        && q.Obj?
        && Get(q.members, "name") == Some(Str(items[i].question))
        && var a := Get(q.members, "acceptedAnswer");
        a.Some? && a.value.Obj? && Get(a.value.members, "text") == Some(Str(items[i].answer))
  {
    var list := Arr(seq(|items|, i requires 0 <= i < |items| => Question(items[i])));
    var data := [Member("mainEntity", list)];
    JsonLdKeys(FAQPage, data, "mainEntity");
    assert Get(data, "mainEntity") == Some(list);
    forall i | 0 <= i < |items| {
      QuestionFields(items[i]);
    }
  }

  datatype ShikigamiProps = ShikigamiProps(
    name: string, nameVi: Option<string>, description: Option<string>,
    image: Option<string>, rarity: string, role: string)

  /** `nameVi || name` */
  function DisplayName(p: ShikigamiProps): string
  {
    OrElse(p.nameVi, p.name)
  }

  function Headline(p: ShikigamiProps): string
  {
    DisplayName(p) + " - Thức Thần " + p.rarity + " " + p.role
  }

  function Description(p: ShikigamiProps): string
  {
    OrElse(p.description, "Thông tin chi tiết về " + DisplayName(p) + " trong Onmyoji")
  }

  /** `name.toLowerCase().replace(/\s+/g, '-')` */
  function PageSlug(name: string): string
  {
    HyphenateSpaces(Lower(name))
  }

  const SiteName := "OnmyojiAutoVN"
  const ShikigamiPage := "https://onmyojivn.site/wiki/shikigami/"

  function PageId(p: ShikigamiProps): string
  {
    ShikigamiPage + PageSlug(p.name)
  }

  function Organisation(): Json
  {
    Obj([Member("@type", Str("Organization")), Member("name", Str(SiteName))])
  }

  /** The `data` that `ShikigamiJsonLd` passes to `JsonLd`. */
  function ShikigamiData(p: ShikigamiProps): seq<Member>
  {
    [ Member("headline", Str(Headline(p))),
      Member("description", Str(Description(p))),
      Member("image", if p.image.Some? then Str(p.image.value) else Undefined),
      Member("author", Organisation()),
      Member("publisher", Obj([Member("@type", Str("Organization")), Member("name", Str(SiteName)),
        Member("logo", Obj([Member("@type", Str("ImageObject")), Member("url", Str("https://onmyojivn.site/logo.png"))]))])),
      Member("mainEntityOfPage", Obj([Member("@type", Str("WebPage")), Member("@id", Str(PageId(p)))]))
    ]
  }

  /** `ShikigamiJsonLd(props)` */
  function ShikigamiJsonLd(p: ShikigamiProps): Json
  {
    JsonLd(Article, ShikigamiData(p))
  }

  /** The headline and description use `nameVi` when it is non-empty and
      `name` otherwise; a missing or empty description is replaced. */
  lemma ShikigamiTexts(p: ShikigamiProps)
    ensures DisplayName(p) == if IsTruthy(p.nameVi) then p.nameVi.value else p.name
    ensures Headline(p)[..|DisplayName(p)|] == DisplayName(p)
    ensures IsTruthy(p.description) ==> Description(p) == p.description.value
    ensures !IsTruthy(p.description) ==> Description(p)[|"Thông tin chi tiết về "|..|"Thông tin chi tiết về "| + |DisplayName(p)|] == DisplayName(p)
  {
  }

  /** The page `@id` is built from `name` alone: `nameVi` never changes it,
      its slug has no whitespace, and a name without whitespace is only
      lower-cased. */
  lemma PageIdFromName(p: ShikigamiProps, nameVi: Option<string>)
    ensures PageId(p.(nameVi := nameVi)) == PageId(p)
    ensures NoSpace(PageSlug(p.name))
    ensures NoSpace(p.name) ==> PageSlug(p.name) == Lower(p.name)
  {
    if NoSpace(p.name) {
      HyphenateNoSpace(Lower(p.name));
    }
  }

  /** The record's type, headline, description and page `@id` are found
      where `ShikigamiJsonLd` puts them. */
  lemma ShikigamiRecord(p: ShikigamiProps)
    ensures Get(ShikigamiJsonLd(p).members, "headline") == Some(Str(Headline(p)))
    ensures Get(ShikigamiJsonLd(p).members, "description") == Some(Str(Description(p)))
    ensures Get(ShikigamiJsonLd(p).members, "@type") == Some(Str("Article"))
    ensures Get(ShikigamiJsonLd(p).members, "mainEntityOfPage") ==
      Some(Obj([Member("@type", Str("WebPage")), Member("@id", Str(PageId(p)))]))
  {
    var data := ShikigamiData(p);
    var m := ShikigamiJsonLd(p).members;
    ShikigamiKeysDistinct(p);
    assert Get(m, "headline") == Some(Str(Headline(p))) by {
      JsonLdKeys(Article, data, "headline");
    }
    assert Get(m, "description") == Some(Str(Description(p))) by {
      JsonLdKeys(Article, data, "description");
    }
    assert Get(m, "@type") == Some(Str("Article")) by {
      JsonLdKeys(Article, data, "@type");
    }
    assert Get(m, "mainEntityOfPage") == Some(data[5].value) by {
      assert Keys(data)[5] == "mainEntityOfPage";
      JsonLdKeys(Article, data, "mainEntityOfPage");
      GetAt(data, 5);
    }
  }

  lemma ShikigamiKeysDistinct(p: ShikigamiProps)
    ensures Seqs.Distinct(Keys(ShikigamiData(p)))
    ensures Keys(ShikigamiData(p))[0] == "headline" && Keys(ShikigamiData(p))[1] == "description"
    ensures "@type" !in Keys(ShikigamiData(p))
  {
    var k := Keys(ShikigamiData(p));
    assert forall i :: 0 <= i < |k| ==> k[i][0] != '@';
    assert forall i, j :: 0 <= i < j < |k| ==> k[i][0] != k[j][0];
  }
}
