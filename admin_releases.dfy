/** The release administration page: the create form's validation and the
    multipart fields it sends, the edit and upload dialogs, the simulated
    upload progress and the pager. */
module AdminReleases {

  import opened Wrappers
  import RichTextEditor
  import Text

  /** The fields of the create and edit forms. */
  datatype ReleaseForm = ReleaseForm(
    version: string, title: string, content: string, releaseType: string,
    downloadUrl: string, changelogUrl: string, isPublished: bool)

  /** The form as `resetCreateForm` (and the initial state) leaves it. */
  const BlankForm := ReleaseForm("", "", "", "minor", "", "", true)

  /** A release as the admin list returns it; the URLs and the file name may
      be missing. */
  datatype ReleaseNote = ReleaseNote(
    id: string, version: string, title: string, content: string, releaseType: string,
    downloadUrl: Option<string>, changelogUrl: Option<string>, isPublished: bool)

  /** The names of the multipart fields. */
  datatype Key = VersionKey | TitleKey | ContentKey | TypeKey | PublishedKey | DownloadUrlKey | ChangelogUrlKey | FileKey

  function KeyName(k: Key): string
  {
    match k
    case VersionKey => "version"
    case TitleKey => "title"
    case ContentKey => "content"
    case TypeKey => "type"
    case PublishedKey => "isPublished"
    case DownloadUrlKey => "downloadUrl"
    case ChangelogUrlKey => "changelogUrl"
    case FileKey => "file"
  }

  /** One `formData.append(key, value)`; for the file the value is the
      chosen file's name. */
  datatype Entry = Entry(key: Key, value: string)

  /** `isPublished.toString()` */
  function BoolText(b: bool): string
  {
    if b then "true" else "false"
  }

  /** The form data `handleCreate` sends, in append order. */
  function FormEntries(form: ReleaseForm, file: Option<string>): seq<Entry>
  {
    FixedEntries(form) + OptionalEntries(form, file)
  }

  /** The value sent under `key`, if any. */
  function Lookup(entries: seq<Entry>, key: Key): Option<string>
  {
    if entries == [] then None
    else if entries[0].key == key then Some(entries[0].value)
    else Lookup(entries[1..], key)
  }

  /** A key is found exactly when some entry carries it. */
  lemma {:induction false} LookupNoneIff(entries: seq<Entry>, key: Key)
    ensures Lookup(entries, key).None? <==> forall i :: 0 <= i < |entries| ==> entries[i].key != key
  {
    if entries != [] && entries[0].key != key {
      LookupNoneIff(entries[1..], key);
      assert forall i :: 1 <= i < |entries| ==> entries[i] == entries[1..][i - 1];
    }
  }

  /** Each key is sent at most once. */
  predicate KeysDistinct(entries: seq<Entry>)
  {
    forall i, j :: 0 <= i < j < |entries| ==> entries[i].key != entries[j].key
  }

  /** The five entries sent first, whatever the form holds. */
  function FixedEntries(form: ReleaseForm): seq<Entry>
  {
    [Entry(VersionKey, form.version), Entry(TitleKey, form.title), Entry(ContentKey, form.content),
     Entry(TypeKey, form.releaseType), Entry(PublishedKey, BoolText(form.isPublished))]
  }

  /** The entries appended only when there is something to send. */
  function OptionalEntries(form: ReleaseForm, file: Option<string>): seq<Entry>
  {
    (if form.downloadUrl != "" then [Entry(DownloadUrlKey, form.downloadUrl)] else [])
    + (if form.changelogUrl != "" then [Entry(ChangelogUrlKey, form.changelogUrl)] else [])
    + (if file.Some? then [Entry(FileKey, file.value)] else [])
  }

  /** Version, title, content, type and the published flag (as "true" or
      "false") are always sent. */
  lemma FormEntriesAlwaysSent(form: ReleaseForm, file: Option<string>)
    ensures var e := FormEntries(form, file);
      && Lookup(e, VersionKey) == Some(form.version)
      && Lookup(e, TitleKey) == Some(form.title)
      && Lookup(e, ContentKey) == Some(form.content)
      && Lookup(e, TypeKey) == Some(form.releaseType)
      && Lookup(e, PublishedKey) == Some(if form.isPublished then "true" else "false")
  {
    var fixed, opt := FixedEntries(form), OptionalEntries(form, file);
    assert FormEntries(form, file) == fixed + opt;
    LookupAt(fixed, 0, VersionKey);
    LookupAt(fixed, 1, TitleKey);
    LookupAt(fixed, 2, ContentKey);
    LookupAt(fixed, 3, TypeKey);
    LookupAt(fixed, 4, PublishedKey);
    LookupPrefix(fixed, opt, VersionKey);
    LookupPrefix(fixed, opt, TitleKey);
    LookupPrefix(fixed, opt, ContentKey);
    LookupPrefix(fixed, opt, TypeKey);
    LookupPrefix(fixed, opt, PublishedKey);
  }

  /** A key found in the first part is found there in the whole. */
  lemma {:induction false} LookupPrefix(a: seq<Entry>, b: seq<Entry>, key: Key)
    requires Lookup(a, key).Some?
    ensures Lookup(a + b, key) == Lookup(a, key)
  {
    assert (a + b)[0] == a[0];
    if a[0].key != key {
      assert (a + b)[1..] == a[1..] + b;
      LookupPrefix(a[1..], b, key);
    }
  }

  /** The two URLs are sent only when non-empty, the file only when one was
      chosen. */
  lemma FormEntriesOptional(form: ReleaseForm, file: Option<string>)
    ensures var e := FormEntries(form, file);
      && Lookup(e, DownloadUrlKey) == (if form.downloadUrl == "" then None else Some(form.downloadUrl))
      && Lookup(e, ChangelogUrlKey) == (if form.changelogUrl == "" then None else Some(form.changelogUrl))
      && Lookup(e, FileKey) == file
  {
    var fixed, opt := FixedEntries(form), OptionalEntries(form, file);
    assert FormEntries(form, file) == fixed + opt;
    LookupSkip(fixed, opt, DownloadUrlKey);
    LookupSkip(fixed, opt, ChangelogUrlKey);
    LookupSkip(fixed, opt, FileKey);
    OptionalLookups(form, file);
  }

  /** The same three lookups on the optional entries alone. */
  lemma OptionalLookups(form: ReleaseForm, file: Option<string>)
    ensures var e := OptionalEntries(form, file);
      && Lookup(e, DownloadUrlKey) == (if form.downloadUrl == "" then None else Some(form.downloadUrl))
      && Lookup(e, ChangelogUrlKey) == (if form.changelogUrl == "" then None else Some(form.changelogUrl))
      && Lookup(e, FileKey) == file
  {
    var d := if form.downloadUrl != "" then [Entry(DownloadUrlKey, form.downloadUrl)] else [];
    var c := if form.changelogUrl != "" then [Entry(ChangelogUrlKey, form.changelogUrl)] else [];
    var f := if file.Some? then [Entry(FileKey, file.value)] else [];
    var e := OptionalEntries(form, file);
    assert Lookup(e, DownloadUrlKey) == (if form.downloadUrl == "" then None else Some(form.downloadUrl)) by {
      assert e == [] + d + (c + f);
      LookupOptional([], DownloadUrlKey, form.downloadUrl != "", form.downloadUrl, c + f);
    }
    assert Lookup(e, ChangelogUrlKey) == (if form.changelogUrl == "" then None else Some(form.changelogUrl)) by {
      assert e == d + c + f;
      LookupOptional(d, ChangelogUrlKey, form.changelogUrl != "", form.changelogUrl, f);
    }
    assert Lookup(e, FileKey) == file by {
      assert e == (d + c) + f + [];
      LookupOptional(d + c, FileKey, file.Some?, if file.Some? then file.value else "", []);
    }
  }

  /** An entry appended only when `present` is found exactly then. */
  lemma LookupOptional(pre: seq<Entry>, key: Key, present: bool, v: string, post: seq<Entry>)
    requires forall i :: 0 <= i < |pre| ==> pre[i].key != key
    requires forall i :: 0 <= i < |post| ==> post[i].key != key
    ensures Lookup(pre + (if present then [Entry(key, v)] else []) + post, key) == (if present then Some(v) else None)
  {
    var mid := if present then [Entry(key, v)] else [];
    assert pre + mid + post == pre + (mid + post);
    LookupSkip(pre, mid + post, key);
    if !present {
      assert mid + post == post;
      LookupNoneIff(post, key);
    }
  }

  lemma {:induction false} LookupSkip(a: seq<Entry>, b: seq<Entry>, key: Key)
    requires forall i :: 0 <= i < |a| ==> a[i].key != key
    ensures Lookup(a + b, key) == Lookup(b, key)
  {
    if a == [] {
      assert a + b == b;
    } else {
      assert (a + b)[1..] == a[1..] + b;
      LookupSkip(a[1..], b, key);
    }
  }

  /** The value at the first position carrying `key`. */
  lemma {:induction false} LookupAt(entries: seq<Entry>, i: nat, key: Key)
    requires i < |entries| && entries[i].key == key
    requires forall j :: 0 <= j < i ==> entries[j].key != key
    ensures Lookup(entries, key) == Some(entries[i].value)
  {
    if i > 0 {
      LookupAt(entries[1..], i - 1, key);
    }
  }

  /** No key is sent twice. */
  lemma FormEntriesDistinct(form: ReleaseForm, file: Option<string>)
    ensures KeysDistinct(FormEntries(form, file))
  {
    var fixed, opt := FixedEntries(form), OptionalEntries(form, file);
    var e := fixed + opt;
    assert FormEntries(form, file) == e;
    OptionalKeys(form, file);
    forall i, j | 0 <= i < j < |e| ensures e[i].key != e[j].key {
      if 5 <= i {
        assert e[i] == opt[i - 5] && e[j] == opt[j - 5];
      } else if 5 <= j {
        assert e[j] == opt[j - 5];
      }
    }
  }

  /** The optional entries carry only the optional keys, each at most once. */
  lemma OptionalKeys(form: ReleaseForm, file: Option<string>)
    ensures var opt := OptionalEntries(form, file);
      && (forall i :: 0 <= i < |opt| ==> opt[i].key in {DownloadUrlKey, ChangelogUrlKey, FileKey})
      && KeysDistinct(opt)
  {
    var d := if form.downloadUrl != "" then [Entry(DownloadUrlKey, form.downloadUrl)] else [];
    var c := if form.changelogUrl != "" then [Entry(ChangelogUrlKey, form.changelogUrl)] else [];
    var f := if file.Some? then [Entry(FileKey, file.value)] else [];
    assert OptionalEntries(form, file) == d + c + f;
  }

  /** `createForm.version && createForm.title && createForm.content`: the
      test is on the raw strings, so whitespace-only values pass. */
  predicate CanCreate(form: ReleaseForm)
  {
    form.version != "" && form.title != "" && form.content != ""
  }

  lemma CanCreateUntrimmed(form: ReleaseForm)
    ensures CanCreate(form) <==> |form.version| > 0 && |form.title| > 0 && |form.content| > 0
    ensures (&& Text.IsBlank(form.version) && Text.IsBlank(form.title) && Text.IsBlank(form.content)
             && form.version != "" && form.title != "" && form.content != "")
      ==> CanCreate(form)
    ensures form.version == " " && form.title == " " && form.content == " " ==> CanCreate(form)
  {
  }

  /** The form `openEditDialog` fills in: the release's own fields, with a
      missing URL shown as "". */
  function EditFormOf(r: ReleaseNote): (f: ReleaseForm)
    ensures f.version == r.version && f.title == r.title && f.content == r.content
    ensures f.releaseType == r.releaseType && f.isPublished == r.isPublished
    ensures r.downloadUrl.None? ==> f.downloadUrl == ""
    ensures r.downloadUrl.Some? ==> f.downloadUrl == r.downloadUrl.value
    ensures r.changelogUrl.None? ==> f.changelogUrl == ""
    ensures r.changelogUrl.Some? ==> f.changelogUrl == r.changelogUrl.value
  {
    ReleaseForm(r.version, r.title, r.content, r.releaseType,
      r.downloadUrl.GetOr(""), r.changelogUrl.GetOr(""), r.isPublished)
  }

  const ProgressStep := 10
  const ProgressCap := 90

  /** One interval tick: `Math.min(prev + 10, 90)`. */
  function Tick(p: int): int
  {
    RichTextEditor.Min(p + ProgressStep, ProgressCap)
  }

  /** The progress after `n` ticks from `p`. */
  function ProgressAfter(p: int, n: nat): int
  {
    if n == 0 then p else Tick(ProgressAfter(p, n - 1))
  }

  /** From a value in 0..90 the progress never decreases and never exceeds
      90. */
  lemma {:induction false} ProgressBounds(p: int, n: nat)
    requires 0 <= p <= ProgressCap
    ensures p <= ProgressAfter(p, n) <= ProgressCap
    ensures n > 0 ==> ProgressAfter(p, n - 1) <= ProgressAfter(p, n)
  {
    if n > 0 {
      ProgressBounds(p, n - 1);
    }
  }

  /** From 0 the progress after `n` ticks is `min(10 n, 90)`. */
  lemma {:induction false} ProgressFromZero(n: nat)
    ensures ProgressAfter(0, n) == RichTextEditor.Min(ProgressStep * n, ProgressCap)
  {
    if n > 0 {
      ProgressFromZero(n - 1);
    }
  }

  /** After a failed upload, as the handler is written, the interval keeps
      ticking from the 0 the handler set: the bar, shown while the progress
      is above 0, reappears after one tick and is back at 90 after nine. */
  lemma FailedUploadClimbsBack(ticks: nat)
    requires ticks >= 1
    ensures ProgressAfter(0, ticks) > 0
    ensures ticks >= 9 ==> ProgressAfter(0, ticks) == ProgressCap
  {
    ProgressFromZero(ticks);
  }

  /** The pagination object of the admin list. */
  datatype Pagination = Pagination(page: int, totalPages: int, total: int)

  predicate PagerShown(p: Option<Pagination>) { p.Some? && p.value.totalPages > 1 }
  /** "Trước" is disabled at `page <= 1`, "Sau" at `page >= totalPages`. */
  predicate PrevEnabled(p: Pagination) { !(p.page <= 1) }
  predicate NextEnabled(p: Pagination) { !(p.page >= p.totalPages) }

  /** The page each enabled button asks for stays within
      `1..totalPages` whenever the current page does, and the buttons exist
      only when there is more than one page. */
  lemma PagerBounds(p: Pagination)
    ensures PrevEnabled(p) ==> p.page - 1 >= 1
    ensures NextEnabled(p) ==> p.page + 1 <= p.totalPages
    ensures 1 <= p.page <= p.totalPages && PrevEnabled(p) ==> 1 <= p.page - 1 <= p.totalPages
    ensures 1 <= p.page <= p.totalPages && NextEnabled(p) ==> 1 <= p.page + 1 <= p.totalPages
    ensures p.totalPages == 1 ==> !PagerShown(Some(p))
  {
  }

  /** What `alert` is called with. */
  datatype Alert = MissingFields | CreateFailed(message: Option<string>) | UpdateFailed(message: Option<string>)
    | UploadFailed(message: Option<string>)

  function AlertText(a: Alert): string
  {
    match a
    case MissingFields => "Vui lòng điền đầy đủ Version, Title và Content"
    case CreateFailed(m) => m.GetOr("Failed to create release")
    case UpdateFailed(m) => m.GetOr("Failed to update release")
    case UploadFailed(m) => m.GetOr("Failed to upload file")
  }

  class AdminReleasesPage {
    const token: Option<string>
    var createForm: ReleaseForm
    var createFile: Option<string>
    var editForm: ReleaseForm
    var selectedRelease: Option<ReleaseNote>
    var uploadFile: Option<string>
    var uploadProgress: int
    /** How many progress intervals are scheduled and not yet cleared. */
    var liveIntervals: nat
    var isSubmitting: bool
    var isCreateOpen: bool
    var isEditOpen: bool
    var isUploadOpen: bool

    constructor (token: Option<string>)
      ensures this.token == token && createForm == BlankForm && createFile == None
      ensures editForm == BlankForm && selectedRelease == None && uploadFile == None
      ensures uploadProgress == 0 && liveIntervals == 0 && !isSubmitting
      ensures !isCreateOpen && !isEditOpen && !isUploadOpen
    {
      this.token := token;
      createForm, createFile, editForm := BlankForm, None, BlankForm;
      selectedRelease, uploadFile, uploadProgress, liveIntervals := None, None, 0, 0;
      isSubmitting, isCreateOpen, isEditOpen, isUploadOpen := false, false, false, false;
    }

    /** `resetCreateForm` */
    method ResetCreateForm()
      modifies this`createForm, this`createFile
      ensures createForm == BlankForm && createFile == None
    {
      createForm, createFile := BlankForm, None;
    }

    /** `handleCreate`, given how `adminCreate` ended. `request` is the form
        data sent, `None` when no call is made. */
    method HandleCreate(outcome: ApiOutcome) returns (request: Option<seq<Entry>>, alert: Option<Alert>)
      modifies this`createForm, this`createFile, this`isCreateOpen, this`isSubmitting
      ensures token.None? ==> request == None && alert == None && unchanged(this)
      ensures token.Some? && !CanCreate(old(createForm)) ==>
        request == None && alert == Some(MissingFields) && unchanged(this)
      ensures token.Some? && CanCreate(old(createForm)) ==>
        && request == Some(FormEntries(old(createForm), old(createFile)))
        && !isSubmitting
        && (outcome.Resolved? ==> alert == None && !isCreateOpen && createForm == BlankForm && createFile == None)
        && (outcome.Threw? ==>
              alert == Some(CreateFailed(outcome.message)) && isCreateOpen == old(isCreateOpen)
              && createForm == old(createForm) && createFile == old(createFile))
    {
      if token.None? {
        return None, None;
      }
      if !CanCreate(createForm) {
        return None, Some(MissingFields);
      }
      isSubmitting := true;
      request := Some(FormEntries(createForm, createFile));
      if outcome.Resolved? {
        isCreateOpen := false;
        ResetCreateForm();
        alert := None;
      } else {
        alert := Some(CreateFailed(outcome.message));
      }
      isSubmitting := false;
    }

    /** `openEditDialog(release)` */
    method OpenEditDialog(r: ReleaseNote)
      modifies this`selectedRelease, this`editForm, this`isEditOpen
      ensures selectedRelease == Some(r) && editForm == EditFormOf(r) && isEditOpen
    {
      selectedRelease := Some(r);
      editForm := EditFormOf(r);
      isEditOpen := true;
    }

    /** `handleUpdate`: without a token or a selected release nothing is
        sent; otherwise the selected id and the edit form are. */
    method HandleUpdate(outcome: ApiOutcome) returns (request: Option<(string, ReleaseForm)>, alert: Option<Alert>)
      modifies this`selectedRelease, this`isEditOpen, this`isSubmitting
      ensures token.None? || old(selectedRelease).None? ==> request == None && alert == None && unchanged(this)
      ensures token.Some? && old(selectedRelease).Some? ==>
        && request == Some((old(selectedRelease).value.id, editForm))
        && !isSubmitting
        && (outcome.Resolved? ==> alert == None && !isEditOpen && selectedRelease == None)
        && (outcome.Threw? ==>
              alert == Some(UpdateFailed(outcome.message))
              && isEditOpen == old(isEditOpen) && selectedRelease == old(selectedRelease))
    {
      if token.None? || selectedRelease.None? {
        return None, None;
      }
      isSubmitting := true;
      request := Some((selectedRelease.value.id, editForm));
      if outcome.Resolved? {
        isEditOpen := false;
        selectedRelease := None;
        alert := None;
      } else {
        alert := Some(UpdateFailed(outcome.message));
      }
      isSubmitting := false;
    }

    /** `openUploadDialog(release)` */
    method OpenUploadDialog(r: ReleaseNote)
      modifies this`selectedRelease, this`uploadFile, this`isUploadOpen
      ensures selectedRelease == Some(r) && uploadFile == None && isUploadOpen
    {
      selectedRelease, uploadFile, isUploadOpen := Some(r), None, true;
    }

    /** One firing of one of the live intervals; they all apply the same
        step, and with none live nothing fires. */
    method IntervalTick()
      modifies this`uploadProgress
      ensures liveIntervals > 0 ==> uploadProgress == Tick(old(uploadProgress))
      ensures liveIntervals == 0 ==> uploadProgress == old(uploadProgress)
    {
      if liveIntervals > 0 {
        uploadProgress := Tick(uploadProgress);
      }
    }

    /** `handleUploadFile`, with the intervals firing `ticks` times before
        `adminUploadFile` settles, and its own interval cleared on success
        and on failure alike. `sent` tells whether the upload was attempted. */
    method HandleUploadFile(ticks: nat, outcome: ApiOutcome) returns (sent: bool, alert: Option<Alert>)
      modifies this`uploadProgress, this`liveIntervals, this`isSubmitting
      ensures liveIntervals == old(liveIntervals)
      ensures sent <==> token.Some? && selectedRelease.Some? && uploadFile.Some?
      ensures !sent ==> alert == None && unchanged(this)
      ensures sent ==> !isSubmitting
      ensures sent && outcome.Resolved? ==> uploadProgress == 100 && alert == None
      ensures sent && outcome.Threw? ==> uploadProgress == 0 && alert == Some(UploadFailed(outcome.message))
    {
      if token.None? || selectedRelease.None? || uploadFile.None? {
        return false, None;
      }
      sent := true;
      isSubmitting := true;
      uploadProgress := 0;
      liveIntervals := liveIntervals + 1;
      var i := 0;
      while i < ticks
        invariant 0 <= i <= ticks
        invariant liveIntervals == old(liveIntervals) + 1 && isSubmitting
        invariant uploadProgress == ProgressAfter(0, i)
      {
        IntervalTick();
        i := i + 1;
      }
      liveIntervals := liveIntervals - 1;
      if outcome.Resolved? {
        uploadProgress := 100;
        alert := None;
      } else {
        alert := Some(UploadFailed(outcome.message));
        uploadProgress := 0;
      }
      isSubmitting := false;
    }

    /** `handleUploadFile` as written: its interval is cleared only after a
        successful upload, so each failure leaves one more interval live. A
        retry is possible, since the Upload button is enabled again once
        `isSubmitting` is back to false. */
    method HandleUploadFileAsWritten(ticks: nat, outcome: ApiOutcome) returns (sent: bool)
      modifies this`uploadProgress, this`liveIntervals, this`isSubmitting
      ensures sent <==> token.Some? && selectedRelease.Some? && uploadFile.Some?
      ensures !sent ==> unchanged(this)
      ensures sent ==> !isSubmitting
      ensures sent && outcome.Resolved? ==> uploadProgress == 100 && liveIntervals == old(liveIntervals)
      ensures sent && outcome.Threw? ==> uploadProgress == 0 && liveIntervals == old(liveIntervals) + 1
    {
      if token.None? || selectedRelease.None? || uploadFile.None? {
        return false;
      }
      sent := true;
      isSubmitting := true;
      uploadProgress := 0;
      liveIntervals := liveIntervals + 1;
      var i := 0;
      while i < ticks
        invariant liveIntervals == old(liveIntervals) + 1
      {
        IntervalTick();
        i := i + 1;
      }
      if outcome.Resolved? {
        liveIntervals := liveIntervals - 1;
        uploadProgress := 100;
      } else {
        uploadProgress := 0;
      }
      isSubmitting := false;
    }

    /** The corrected handler: a failed upload followed by any number of
        ticks leaves the progress at 0 and no interval live. It starts with
        none live, as the constructor leaves it and `HandleUploadFile` keeps
        it. */
    method FailedUploadSettles(ticks: nat, message: Option<string>, later: nat)
      requires token.Some? && selectedRelease.Some? && uploadFile.Some? && liveIntervals == 0
      modifies this`uploadProgress, this`liveIntervals, this`isSubmitting
      ensures uploadProgress == 0 && liveIntervals == 0 && !isSubmitting
    {
      var sent, alert := HandleUploadFile(ticks, Threw(message));
      var i := 0;
      while i < later
        invariant uploadProgress == 0 && liveIntervals == 0 && !isSubmitting
      {
        IntervalTick();
        i := i + 1;
      }
    }

    /** As written: after a failed upload the orphaned interval goes on
        ticking, so `later` ticks take the progress to `ProgressAfter(0,
        later)`, which `FailedUploadClimbsBack` shows is above 0 and reaches
        90. */
    method FailedUploadClimbsAsWritten(ticks: nat, message: Option<string>, later: nat)
      requires token.Some? && selectedRelease.Some? && uploadFile.Some? && liveIntervals == 0
      modifies this`uploadProgress, this`liveIntervals, this`isSubmitting
      ensures uploadProgress == ProgressAfter(0, later) && liveIntervals == 1
    {
      var sent := HandleUploadFileAsWritten(ticks, Threw(message));
      var i := 0;
      while i < later
        invariant 0 <= i <= later
        invariant uploadProgress == ProgressAfter(0, i) && liveIntervals == 1
      {
        IntervalTick();
        i := i + 1;
      }
    }

    /** As written: a retry that succeeds after a failure clears only its own
        interval, so the orphan pulls the finished 100 back to 90 at its next
        tick. */
    method RetryAfterFailureAsWritten(ticks: nat, message: Option<string>, retryTicks: nat)
      requires token.Some? && selectedRelease.Some? && uploadFile.Some? && liveIntervals == 0
      modifies this`uploadProgress, this`liveIntervals, this`isSubmitting
      ensures uploadProgress == ProgressCap && liveIntervals == 1
    {
      var failed := HandleUploadFileAsWritten(ticks, Threw(message));
      var retried := HandleUploadFileAsWritten(retryTicks, Resolved);
      IntervalTick();
    }

    /** The timer half a second after a successful upload. */
    method FinishUpload()
      modifies this`isUploadOpen, this`selectedRelease, this`uploadFile, this`uploadProgress
      ensures !isUploadOpen && selectedRelease == None && uploadFile == None && uploadProgress == 0
    {
      isUploadOpen, selectedRelease, uploadFile, uploadProgress := false, None, None, 0;
    }
  }
}
