/** The "create a forum post" dialog: the bounded, normalised tag list and
    the submit handler. */
module CreatePost {

  import opened Wrappers
  import opened Text
  import Seqs

  const MaxTags := 5
  const DefaultCategory := "discussion"

  /** `tagInput.trim().toLowerCase()` */
  function NormalizeTag(input: string): string
  {
    Lower(Trim(input))
  }

  /** A normalised tag is its own normal form, so storing only normalised
      tags means every stored tag is unchanged by normalising it again. */
  lemma NormalizeTagIdempotent(input: string)
    ensures NormalizeTag(NormalizeTag(input)) == NormalizeTag(input)
  {
    var t := Trim(input);
    LowerTrimCommute(Lower(t));
    LowerTrimCommute(t);
    TrimIdempotent(input);
    LowerIdempotent(t);
  }

  /** What the tag list always satisfies: at most five tags, no tag twice,
      and every tag non-empty and in normal form. */
  predicate ValidTags(tags: seq<string>)
  {
    && |tags| <= MaxTags
    && Seqs.Distinct(tags)
    && forall i :: 0 <= i < |tags| ==> tags[i] != "" && NormalizeTag(tags[i]) == tags[i]
  }

  /** Whether `handleAddTag` accepts the typed input. */
  predicate AcceptsTag(tags: seq<string>, input: string)
  {
    var tag := NormalizeTag(input);
    tag != "" && tag !in tags && |tags| < MaxTags
  }

  /** `handleAddTag` as a function of the tag list and the input box: an
      accepted tag is appended and the box is cleared; otherwise nothing
      changes. */
  function AddTag(tags: seq<string>, input: string): (seq<string>, string)
  {
    if AcceptsTag(tags, input) then (tags + [NormalizeTag(input)], "") else (tags, input)
  }

  /** Adding a tag keeps the list valid. */
  lemma AddTagKeepsValid(tags: seq<string>, input: string)
    requires ValidTags(tags)
    ensures ValidTags(AddTag(tags, input).0)
  {
    if AcceptsTag(tags, input) {
      var tag := NormalizeTag(input);
      var r := tags + [tag];
      NormalizeTagIdempotent(input);
      forall i, j | 0 <= i < j < |r| ensures r[i] != r[j] {
        if j == |tags| {
          assert r[i] == tags[i];
        }
      }
    }
  }

  /** `tags.filter((t) => t !== tagToRemove)` */
  function RemoveTag(tags: seq<string>, tag: string): seq<string>
  {
    Seqs.Filter(tags, t => t != tag)
  }

  /** Removing deletes exactly that tag, keeps the others in order, and keeps
      the list valid. */
  lemma RemoveTagSpec(tags: seq<string>, tag: string)
    requires ValidTags(tags)
    ensures ValidTags(RemoveTag(tags, tag))
    ensures tag !in RemoveTag(tags, tag)
    ensures forall t :: t in RemoveTag(tags, tag) <==> t in tags && t != tag
    ensures Seqs.Subseq(RemoveTag(tags, tag), tags)
  {
    var p := (t: string) => t != tag;
    Seqs.FilterDistinct(tags, p);
    Seqs.FilterIsSubseq(tags, p);
    forall t ensures t in RemoveTag(tags, tag) <==> t in tags && t != tag {
      Seqs.FilterMembership(tags, p, t);
    }
    var r := RemoveTag(tags, tag);
    forall i | 0 <= i < |r| ensures r[i] != "" && NormalizeTag(r[i]) == r[i] {
      assert r[i] in tags;
    }
  }

  /** The payload of `forumApi.createPost`. */
  datatype PostData = PostData(title: string, content: string, category: string, tags: seq<string>)

  /** The messages the dialog shows in its error banner. */
  datatype Notice = NotLoggedIn | MissingFields | CreateFailed(message: Option<string>)

  function NoticeText(n: Notice): string
  {
    match n
    case NotLoggedIn => "Vui lòng đăng nhập để tạo bài viết"
    case MissingFields => "Vui lòng điền tiêu đề và nội dung"
    case CreateFailed(message) => message.GetOr("Không thể tạo bài viết")
  }

  class CreatePostModal {
    var title: string
    var content: string
    var category: string
    var tagInput: string
    var tags: seq<string>
    var error: Option<Notice>
    var isLoading: bool
    var open: bool

    predicate Valid()
      reads this
    {
      ValidTags(tags)
    }

    constructor ()
      ensures Valid()
      ensures title == "" && content == "" && category == DefaultCategory && tagInput == "" && tags == []
      ensures error == None && !isLoading && !open
    {
      title, content, category, tagInput, tags := "", "", DefaultCategory, "", [];
      error, isLoading, open := None, false, false;
    }

    /** `handleAddTag` */
    method HandleAddTag()
      requires Valid()
      modifies this`tags, this`tagInput
      ensures Valid()
      ensures (tags, tagInput) == AddTag(old(tags), old(tagInput))
    {
      AddTagKeepsValid(tags, tagInput);
      var tag := NormalizeTag(tagInput);
      if tag != "" && tag !in tags && |tags| < MaxTags {
        tags := tags + [tag];
        tagInput := "";
      }
    }

    /** `handleRemoveTag` */
    method HandleRemoveTag(tag: string)
      requires Valid()
      modifies this`tags
      ensures Valid()
      ensures tags == RemoveTag(old(tags), tag)
    {
      RemoveTagSpec(tags, tag);
      tags := RemoveTag(tags, tag);
    }

    /** `handleKeyDown`: only Enter adds the typed tag. */
    method HandleKeyDown(key: string)
      requires Valid()
      modifies this`tags, this`tagInput
      ensures Valid()
      ensures key == "Enter" ==> (tags, tagInput) == AddTag(old(tags), old(tagInput))
      ensures key != "Enter" ==> tags == old(tags) && tagInput == old(tagInput)
    {
      if key == "Enter" {
        HandleAddTag();
      }
    }

    /** `handleSubmit` with the login token and the outcome of the awaited
        `createPost` call; `sent` is the payload the call received. The tag
        input box is not part of the reset. */
    method HandleSubmit(token: Option<string>, outcome: ApiOutcome) returns (sent: Option<PostData>)
      requires Valid()
      modifies this`title, this`content, this`category, this`tags, this`error, this`isLoading, this`open
      ensures Valid()
      ensures !IsTruthy(token) ==> sent == None && error == Some(NotLoggedIn)
      ensures IsTruthy(token) && (IsBlank(old(title)) || IsBlank(old(content))) ==>
        sent == None && error == Some(MissingFields)
      ensures sent == None ==>
        title == old(title) && content == old(content) && category == old(category)
        && tags == old(tags) && isLoading == old(isLoading) && open == old(open)
      ensures sent.Some? <==> IsTruthy(token) && !IsBlank(old(title)) && !IsBlank(old(content))
      ensures sent.Some? ==> sent.value == PostData(Trim(old(title)), Trim(old(content)), old(category), old(tags))
      ensures sent.Some? && outcome.Resolved? ==>
        title == "" && content == "" && category == DefaultCategory && tags == [] && !open && error == None
      ensures sent.Some? && outcome.Threw? ==>
        title == old(title) && content == old(content) && category == old(category) && tags == old(tags)
        && open == old(open) && error == Some(CreateFailed(outcome.message))
      ensures sent.Some? ==> !isLoading
    {
      if !IsTruthy(token) {
        error := Some(NotLoggedIn);
        return None;
      }
      var t, c := title, content;
      if IsBlank(t) || IsBlank(c) {
        error := Some(MissingFields);
        return None;
      }
      var data := PostData(Trim(t), Trim(c), category, tags);
      isLoading := true;
      error := None;
      sent := Some(data);
      if outcome.Resolved? {
        title, content, category, tags := "", "", DefaultCategory, [];
        open := false;
      } else {
        error := Some(CreateFailed(outcome.message));
      }
      isLoading := false;
    }
  }
}
