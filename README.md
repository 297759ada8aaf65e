# Onmyoji community front end — a Dafny model of its client-side logic

This project models the client-side behaviour of a Next.js community site for
the game Onmyoji: a wiki, a forum, giftcodes, release notes, chat and an admin
area. The site's logic sits in React components. Each component keeps its
state in `useState` fields and changes it in event handlers; the rest is pure
computation over strings and lists.

The model follows that split:

- A component whose handlers update state becomes a Dafny `class`. Its fields
  are the `useState` fields and it has one `method` per handler. Each method's
  `ensures` gives the new state, and lemmas about the functions it uses prove
  what the component promises.
- An awaited API call becomes a parameter saying how it ended
  (`ApiOutcome`: resolved, or threw with an optional message; `Fetched<T>`:
  the data, or a failure). The clock, `Date.now()` ids and parsed dates are
  parameters as well.
- Pure computations (slugs, filters, excerpts, JSON-LD records, form data)
  are functions, with lemmas stating their properties.

Shared modules:

- `Wrappers`: `Option`, `ApiOutcome` and `Fetched`.
- `Seqs`: JavaScript's `filter`, counting and summing, and the subsequence
  relation.
- `Text`: the JavaScript string operations the components use:
  - `trim`, on the `\s` whitespace set;
  - `toLowerCase` and `toUpperCase`, on A–Z and Đ;
  - `includes`, and case-insensitive search;
  - `a || b` on strings;
  - `replace(/\s+/g, "-")`.

One module per component models the rest.

## Model

| member | source | states |
|---|---|---|
| ContributeWiki.SlugCharsOnly | components/contribute-wiki-modal.tsx:45-54 | `generateSlug` returns only `a`–`z`, `0`–`9` and `-`, and never two `-` in a row |
| ContributeWiki.CollapseDashesShape | components/contribute-wiki-modal.tsx:53 | collapsing dash runs keeps the other characters, leaves no double dash, and keeps a leading dash exactly when there was one |
| ContributeWiki.CollapseDashesNoOp | components/contribute-wiki-modal.tsx:53 | text without a double dash is left alone by the collapse |
| ContributeWiki.SlugTrimIsNoOp | components/contribute-wiki-modal.tsx:52-54 | the final `trim()` removes nothing, because whitespace has already become `-` |
| ContributeWiki.LeadingSpaceGivesDash | components/contribute-wiki-modal.tsx:52-54 | a title starting with whitespace gives a slug starting with `-` |
| ContributeWiki.SlugIdempotent | components/contribute-wiki-modal.tsx:45-55 | applying `generateSlug` to its own output gives the same slug |
| ContributeWiki.SlugFixedPoint | components/contribute-wiki-modal.tsx:45-55 | every string of slug characters without a double dash is its own slug |
| ContributeWiki.MarksAreDropped | components/contribute-wiki-modal.tsx:48-49 | inserting a combining mark (U+0300–U+036F) anywhere in a title leaves its slug unchanged |
| ContributeWiki.LettersAreLowerCased | components/contribute-wiki-modal.tsx:47-50 | a title of letters and digits keeps its length; A–Z are lower-cased, and Đ and đ become `d` |
| ContributeWiki.SlugOfLetters | components/contribute-wiki-modal.tsx:47-50 | the slug of letters and digits is the lower-cased text with Đ and đ turned into `d` |
| ContributeWiki.ContributeWikiModal.HandleTitleChange | components/contribute-wiki-modal.tsx:57-62 | the title always takes the new value; the slug is regenerated only while it was empty or equal to the old title's slug, so a hand-edited slug is kept |
| ContributeWiki.ContributeWikiModal.EditSlug | components/contribute-wiki-modal.tsx:189 | the slug becomes the typed text; it keeps following the title exactly when that text is empty or the title's own slug |
| ContributeWiki.ContributeWikiModal.HandleSubmit | components/contribute-wiki-modal.tsx:98-136 | no token or a blank title, content or slug: an error, nothing sent, nothing cleared. Otherwise the trimmed fields are sent; on success the fields reset, the category returns to "guide" and the dialog closes; on failure the fields are kept and the error shown. `isLoading` ends false |
| CreatePost.NormalizeTagIdempotent | components/create-post-modal.tsx:47 | a normalised tag (trimmed, then lower-cased) is its own normal form |
| CreatePost.AddTagKeepsValid | components/create-post-modal.tsx:46-52 | adding a tag keeps the list at most five long, free of duplicates, and made of non-empty normalised tags |
| CreatePost.RemoveTagSpec | components/create-post-modal.tsx:54-56 | removing a tag drops exactly that tag, keeps the others in order, and keeps the list valid |
| CreatePost.CreatePostModal.HandleAddTag | components/create-post-modal.tsx:46-52 | an accepted tag (non-empty, new, fewer than five) is appended and the input cleared; otherwise tags and input are unchanged |
| CreatePost.CreatePostModal.HandleRemoveTag | components/create-post-modal.tsx:54-56 | the tag list becomes the old list without that tag |
| CreatePost.CreatePostModal.HandleKeyDown | components/create-post-modal.tsx:58-63 | Enter adds the tag; any other key changes nothing |
| CreatePost.CreatePostModal.HandleSubmit | components/create-post-modal.tsx:100-138 | no token or a blank title or content: an error and nothing sent. Otherwise the trimmed title and content are sent with the category and tags; on success title and content are emptied, the category returns to "discussion" and the tags are cleared |
| RichTextEditor.Substring | components/rich-text-editor.tsx:28-29 | `substring` inside the string is the slice |
| RichTextEditor.SpliceInRange | components/rich-text-editor.tsx:29 | the new value is `value[..start] + before + value[start..end] + after + value[end..]`, and its length is the old length plus both markers |
| RichTextEditor.SpliceRoundTrip | components/rich-text-editor.tsx:29 | cutting the inserted markers back out gives the original value |
| RichTextEditor.SelectionRestored | components/rich-text-editor.tsx:28-36 | the restored selection covers exactly the text that was selected |
| RichTextEditor.CaretInsertsBoth | components/rich-text-editor.tsx:28-29 | with an empty selection both markers are inserted together at the caret |
| RichTextEditor.SelectionPastEndAppends | components/rich-text-editor.tsx:26-29 | a selection past the end of the text appends both markers |
| RichTextEditor.PrefixButtons | components/rich-text-editor.tsx:22-49 | heading, list, numbered list and quote insert only a prefix; the other buttons wrap the selection |
| RichTextEditor.BreakLines | components/rich-text-editor.tsx:67 | the preview's newline step leaves no `\n` |
| RichTextEditor.BreakLinesNoNewline | components/rich-text-editor.tsx:67 | text without a newline is unchanged |
| RichTextEditor.BreakLinesAppend | components/rich-text-editor.tsx:67 | the replacement works line by line |
| RichTextEditor.BreakLinesLength | components/rich-text-editor.tsx:67 | each newline adds four characters |
| RichTextEditor.RichTextEditorState.InsertMarkdown | components/rich-text-editor.tsx:22-38 | without a textarea nothing changes; otherwise the value becomes the splice and the restored selection is recorded |
| RichTextEditor.RichTextEditorState.Press | components/rich-text-editor.tsx:40-49 | a toolbar button splices its own marker pair around the selection and restores the selection just inside the opening marker |
| RichTextEditor.RichTextEditorState.TogglePreview | components/rich-text-editor.tsx:96 | the preview flag flips |
| ReleasesList.Split | components/releases-list-client.tsx:92 | `split("\n")` gives at least one line, none containing a newline |
| ReleasesList.SplitJoin | components/releases-list-client.tsx:92 | joining the split lines with `\n` gives the body back |
| ReleasesList.SplitAppend | components/releases-list-client.tsx:92 | splitting at a newline splits the two sides independently |
| ReleasesList.StripBulletOnce | components/releases-list-client.tsx:94 | only one `-` or `*` in column 0, and the whitespace after it, is removed; an indented bullet or the second dash of `--x` stays |
| ReleasesList.ParagraphsOfBody | components/releases-list-client.tsx:91-95 | one paragraph per line whose trim is non-empty, each starting with "• " |
| ReleasesList.ParagraphsAppend | components/releases-list-client.tsx:92-95 | paragraphs keep the order of the lines |
| ReleasesList.BlankLineAddsNothing | components/releases-list-client.tsx:93 | a blank or whitespace-only line gives no paragraph |
| ReleasesList.RenderBodyAppend | components/releases-list-client.tsx:91-96 | the HTML of a body split at a newline is the HTML of the first part followed by that of the second, joined with nothing between |
| ReleasesList.RenderBodyLine | components/releases-list-client.tsx:91-96 | one line renders as `<p class="text-sm text-muted-foreground">• …</p>` around the line without its bullet when it is not blank, and as nothing when it is |
| ReleasesList.ReleaseBadges | components/releases-list-client.tsx:81-82 | the coloured badge always shows the tag name, in the type's colour or "bg-gray-500" for a type `typeConfig` does not list; the outline badge shows the type's capitalised label, or the raw type name for an unlisted type |
| ReleasesList.ViewPriority | components/releases-list-client.tsx:38-66 | the view is chosen in priority order: loading, then a non-empty error, then an empty list, then the timeline |
| ReleasesList.ReleasesListClient.FetchReleases | components/releases-list-client.tsx:21-32 | success stores the releases (or none) and clears the error; failure keeps the list and shows the message or the fallback; loading ends false |
| ForumPosts.FormatTimeBuckets | components/forum-posts-client.tsx:50-61 | under an hour (future dates included) is "just now"; then whole hours 1–23; then whole days 1–6; then the date |
| ForumPosts.StripTags | components/forum-posts-client.tsx:121 | tag stripping adds no character |
| ForumPosts.StripTagsLeavesNoTag | components/forum-posts-client.tsx:121 | after stripping, no `<` is followed anywhere by a `>` |
| ForumPosts.StripTagsPlainText | components/forum-posts-client.tsx:121 | text without `<` is unchanged |
| ForumPosts.ExcerptShape | components/forum-posts-client.tsx:121 | the excerpt is the first 200 characters of the stripped text followed by "...", even when the text is shorter |
| ForumPosts.Find | components/forum-posts-client.tsx:110 | `find` returns the first category with that id, or nothing when none has it |
| ForumPosts.CategoryLabelFallback | components/forum-posts-client.tsx:110 | an unknown category shows its raw id; a known one shows its name |
| SeoJsonLd.PutGet | components/seo/json-ld.tsx:9-13 | after setting a key it holds the new value and every other key is unchanged |
| SeoJsonLd.PutKeys | components/seo/json-ld.tsx:9-13 | an existing key keeps its place; a new key goes at the end, as JavaScript orders keys that are not integer-like |
| SeoJsonLd.SpreadGet | components/seo/json-ld.tsx:12 | after a spread, a key of the spread object has its value; any other key keeps the target's |
| SeoJsonLd.JsonLdKeys | components/seo/json-ld.tsx:8-13 | `@context` is "https://schema.org" and `@type` is the type unless `data` overrides them; the other keys come from `data` |
| SeoJsonLd.ListItemFields | components/seo/json-ld.tsx:109-114 | a list item has position index + 1 and the item's name and url unchanged |
| SeoJsonLd.BreadcrumbPositions | components/seo/json-ld.tsx:104-118 | one list item per breadcrumb, in order, numbered 1 to n |
| SeoJsonLd.QuestionFields | components/seo/json-ld.tsx:130-137 | a question is named by the question text and answered by the answer text |
| SeoJsonLd.FaqEntries | components/seo/json-ld.tsx:125-141 | one question per FAQ item, in order |
| SeoJsonLd.ShikigamiTexts | components/seo/json-ld.tsx:157-158 | the headline starts with `nameVi`, or `name` when `nameVi` is empty; a missing description becomes the sentence about that name |
| SeoJsonLd.PageIdFromName | components/seo/json-ld.tsx:174 | the page `@id` depends on `name` only, never `nameVi`; it contains no whitespace and is the lower-cased name when the name has none |
| SeoJsonLd.ShikigamiRecord | components/seo/json-ld.tsx:152-179 | the record is an Article with that headline and description, and its `mainEntityOfPage` is the WebPage whose `@id` is `PageId` |
| SeoJsonLd.ShikigamiKeysDistinct | components/seo/json-ld.tsx:156-175 | the record's own keys are distinct, start with headline and description, and do not override `@type` |
| AdminGiftcodes.MaxUsage | app/admin/giftcodes/page.tsx:95 | the parsed number is kept unless it is NaN or 0, which give 100; a negative number is kept |
| AdminGiftcodes.NewGiftcodeShape | app/admin/giftcodes/page.tsx:89-98 | the stored code is the typed code upper-cased (same length, no a-z left); it is active with usage 0, carries the typed description and expiry date, the `MaxUsage` limit, the given id and today's date |
| AdminGiftcodes.DeleteSpec | app/admin/giftcodes/page.tsx:108-110 | delete removes every entry with that id and keeps the rest in order, repeated entries included: the result's length is the number of entries with another id |
| AdminGiftcodes.SearchSpec | app/admin/giftcodes/page.tsx:82-86 | search keeps, in order, exactly the codes whose code or description contains the query, ignoring case, each as often as it occurs (the length is the number of matches); an empty query keeps all |
| AdminGiftcodes.TotalsAfterCreate | app/admin/giftcodes/page.tsx:193-212 | a created code adds one to the count and to the active count and leaves the usage sum unchanged |
| AdminGiftcodes.CreateAllowsDuplicates | app/admin/giftcodes/page.tsx:88-102 | create does not check for an existing code, so the count of entries with that code grows by one |
| AdminGiftcodes.AdminGiftcodesPage.HandleCreate | app/admin/giftcodes/page.tsx:88-102 | the new code is prepended and the earlier list follows unchanged; the form resets and the dialog closes |
| AdminGiftcodes.AdminGiftcodesPage.HandleDelete | app/admin/giftcodes/page.tsx:108-110 | the list becomes the list without that id |
| AdminMessages.SetStatusSpec | app/admin/messages/page.tsx:89-95 | approve and delete change only the status of the messages with that id; every other message, every other field and the length are unchanged |
| AdminMessages.SetStatusIdempotent | app/admin/messages/page.tsx:89-95 | approving twice, or deleting twice, is doing it once |
| AdminMessages.SetStatusAt | app/admin/messages/page.tsx:89-95 | with distinct ids, acting on one message updates that one position |
| AdminMessages.DeletedIsFinal | app/admin/messages/page.tsx:210-232 | with distinct ids, no button that is shown changes a deleted message, and none makes a normal message flagged |
| AdminMessages.ApproveRestoresDuplicate | app/admin/messages/page.tsx:89-91 | approval rewrites every message with that id, so when two messages share an id, approving the flagged one also brings back a deleted one |
| AdminMessages.FilteredSpec | app/admin/messages/page.tsx:81-87 | the list shows, in order, exactly the messages whose content or display name contains the query, ignoring case, each as often as it occurs (the length is the number of visible messages); the flagged mode shows only flagged ones; no query with "all" shows every message |
| AdminMessages.FlaggedModeNarrows | app/admin/messages/page.tsx:85 | the flagged mode's list is the "all" list restricted to flagged messages |
| AdminMessages.StatsAfterAction | app/admin/messages/page.tsx:121-140 | counts are over the whole list: approve lowers the flagged count by one; delete raises the deleted count by one and lowers the flagged count if the message was flagged; the total never changes |
| AdminMessages.AdminMessagesPage.HandleApprove | app/admin/messages/page.tsx:89-91 | the list becomes the approved list |
| AdminMessages.AdminMessagesPage.HandleDelete | app/admin/messages/page.tsx:93-95 | the list becomes the soft-deleted list |
| AdminMessages.AdminMessagesPage.ToggleFilter | app/admin/messages/page.tsx:169 | the filter switches between "all" and "flagged" |
| AdminUsers.SearchSpec | app/admin/users/page.tsx:94-98 | search keeps, in order, exactly the users whose username or email contains the query, ignoring case, each as often as it occurs (the length is the number of matches); an empty query keeps all |
| AdminUsers.SearchNarrows | app/admin/users/page.tsx:94-98 | typing more characters never adds a user to the result |
| AdminUsers.StatsPartition | app/admin/users/page.tsx:115-141 | active, pending and banned counts add up to the total |
| ShikigamiList.ExpectedSpec | components/wiki/ShikigamiListClient.tsx:59-76 | the shown list is an order-preserving subsequence of exactly the entries that pass, as long as the number of entries that pass; a set rarity or role is matched exactly; with all filters empty the whole list is shown |
| ShikigamiList.EmptyFilterIsNeutral | components/wiki/ShikigamiListClient.tsx:62-73 | an empty rarity or role filter leaves the other filters' result unchanged; an entry without `nameVi` can match only by its name |
| ShikigamiList.FilterOrderIrrelevant | components/wiki/ShikigamiListClient.tsx:59-76 | the filters are conjunctive: in either order they give the same list |
| ShikigamiList.ShikigamiListClient.Fetch | components/wiki/ShikigamiListClient.tsx:41-57 | a fetch fills both lists with the result (or none); a failure keeps them and sets the error; loading ends false; with no filter set the shown list agrees with the filters, and a failure keeps that agreement |
| ShikigamiList.ShikigamiListClient.ApplyFilters | components/wiki/ShikigamiListClient.tsx:59-76 | the narrowing steps give exactly the expected list, which is never longer than the fetched one |
| ShikigamiList.ShikigamiListClient.SetSearch | components/wiki/ShikigamiListClient.tsx:98 | the search changes and the shown list follows it |
| ShikigamiList.ShikigamiListClient.SetRarityFilter | components/wiki/ShikigamiListClient.tsx:106 | the rarity changes and the shown list follows it |
| ShikigamiList.ShikigamiListClient.SetRoleFilter | components/wiki/ShikigamiListClient.tsx:118 | the role changes and the shown list follows it |
| SoulsList.ExpectedSpec | components/wiki/SoulsListClient.tsx:59-72 | the shown list is an order-preserving subsequence of exactly the souls that pass, as long as the number of souls that pass; a set type is matched exactly; with both filters empty the whole list is shown |
| SoulsList.OfferedTypeExcludesEffects | components/wiki/SoulsListClient.tsx:23-31 | "effect_hit" and "effect_res" have no button, so any offered non-empty type excludes them |
| SoulsList.SoulsListClient.Fetch | components/wiki/SoulsListClient.tsx:41-57 | a fetch fills both lists with the result (or none); a failure keeps them and sets the error; with no filter set the shown list agrees with the filters, and a failure keeps that agreement |
| SoulsList.SoulsListClient.ApplyFilters | components/wiki/SoulsListClient.tsx:59-72 | the narrowing steps give exactly the expected list, never longer than the fetched one |
| SoulsList.SoulsListClient.SetSearch | components/wiki/SoulsListClient.tsx:93 | the search changes and the shown list follows it |
| SoulsList.SoulsListClient.SetTypeFilter | components/wiki/SoulsListClient.tsx:97 | a type button sets one of the offered values and the shown list follows it |
| GiftcodeList.CardsSpec | components/giftcode-list.tsx:37-98 | one card per code, in order; a card is expired exactly when its status says so or its date has passed; the badge reads "Hết hạn" exactly then; copy is enabled exactly when not expired; "Đã sao chép" shows exactly on the copied code |
| GiftcodeList.ActiveButPast | components/giftcode-list.tsx:37-44 | an active code whose date has passed is expired; an unparsable date never expires an active code |
| GiftcodeList.OnlyCopiedCardMarked | components/giftcode-list.tsx:23-26 | with distinct codes, after a copy only that card shows "Đã sao chép"; after the reset none does |
| GiftcodeList.GiftcodeListState.HandleCopy | components/giftcode-list.tsx:23-25 | the copied code is recorded |
| GiftcodeList.GiftcodeListState.ResetCopied | components/giftcode-list.tsx:26 | the reset clears it |
| AdminReleases.LookupNoneIff | app/admin/releases/page.tsx:141-149 | a key is found exactly when some entry carries it |
| AdminReleases.FormEntriesAlwaysSent | app/admin/releases/page.tsx:142-146 | version, title, content and type are always sent as typed, and `isPublished` as "true" or "false" |
| AdminReleases.FormEntriesOptional | app/admin/releases/page.tsx:147-149 | the download URL, changelog URL and file are sent exactly when non-empty |
| AdminReleases.FormEntriesDistinct | app/admin/releases/page.tsx:141-149 | no field is sent twice |
| AdminReleases.CanCreateUntrimmed | app/admin/releases/page.tsx:134 | create needs a non-empty version, title and content; the check does not trim, so any non-empty whitespace-only values pass |
| AdminReleases.EditFormOf | app/admin/releases/page.tsx:236-244 | the edit form copies the release's fields, with a missing URL shown as "" |
| AdminReleases.ProgressBounds | app/admin/releases/page.tsx:187 | from 0..90 the progress never decreases and never exceeds 90 |
| AdminReleases.ProgressFromZero | app/admin/releases/page.tsx:186-188 | after n ticks from 0 the progress is min(10 n, 90) |
| AdminReleases.FailedUploadClimbsBack | app/admin/releases/page.tsx:186-188 | from the 0 a failed upload leaves, the orphaned interval brings the progress above 0 after one tick (so the bar, shown while it is above 0, reappears) and to 90 after nine |
| AdminReleases.PagerBounds | app/admin/releases/page.tsx:550-559 | the pager shows only when there is more than one page; the enabled buttons request a page within 1..totalPages |
| AdminReleases.AdminReleasesPage.ResetCreateForm | app/admin/releases/page.tsx:254-265 | empty strings, type "minor", published, no file |
| AdminReleases.AdminReleasesPage.HandleCreate | app/admin/releases/page.tsx:132-160 | no token: nothing. An incomplete form: the alert and no request. Otherwise the form data is sent; success closes the dialog and resets the form; failure alerts. Submitting ends false |
| AdminReleases.AdminReleasesPage.OpenEditDialog | app/admin/releases/page.tsx:234-246 | the release is selected, the edit form is filled from it and the dialog opens |
| AdminReleases.AdminReleasesPage.HandleUpdate | app/admin/releases/page.tsx:162-176 | without a token or a selected release nothing happens; otherwise the release id and edit form are sent; success closes the dialog and clears the selection |
| AdminReleases.AdminReleasesPage.OpenUploadDialog | app/admin/releases/page.tsx:248-252 | the release is selected, the file cleared and the dialog opened |
| AdminReleases.AdminReleasesPage.IntervalTick | app/admin/releases/page.tsx:186-188 | with at least one interval live, a firing moves the progress one step, `min(p + 10, 90)`; with none live nothing changes |
| AdminReleases.AdminReleasesPage.HandleUploadFile | app/admin/releases/page.tsx:178-208 | corrected: the upload is sent only with a token, a selected release and a file; success gives 100 and failure 0 with the alert; the handler clears its own interval on both paths, so the number of live intervals is unchanged |
| AdminReleases.AdminReleasesPage.HandleUploadFileAsWritten | app/admin/releases/page.tsx:178-208 | as written, callable again after a failure: success gives 100 and clears only its own interval; failure gives 0 and leaves one more interval live; `isSubmitting` is false afterwards either way |
| AdminReleases.AdminReleasesPage.FailedUploadClimbsAsWritten | app/admin/releases/page.tsx:184-204 | as written: a failed upload followed by `k` ticks leaves one interval live and the progress at `ProgressAfter(0, k)` |
| AdminReleases.AdminReleasesPage.RetryAfterFailureAsWritten | app/admin/releases/page.tsx:178-208 | as written: a failed upload, then a successful retry (the Upload button is enabled again, line 683), then one tick: the orphaned interval pulls the finished 100 back to 90 |
| AdminReleases.AdminReleasesPage.FailedUploadSettles | app/admin/releases/page.tsx:184-204 | corrected: a failed upload followed by any number of ticks leaves the progress at 0 and no interval live |
| AdminReleases.AdminReleasesPage.FinishUpload | app/admin/releases/page.tsx:195-201 | half a second after success the dialog closes and the selection, file and progress reset |
| RegisterForm.WithFieldSpec | components/auth/register-form.tsx:28-30 | a change sets the named field and no other |
| RegisterForm.ValidateOrder | components/auth/register-form.tsx:36-44 | a mismatch is reported first, then a password shorter than 6; otherwise the form passes |
| RegisterForm.RequestIgnoresConfirmation | components/auth/register-form.tsx:49-54 | `register` receives username, email, display name and password; the confirmation is never sent |
| RegisterForm.RegisterFormState.HandleChange | components/auth/register-form.tsx:28-30 | the form takes the new field value |
| RegisterForm.RegisterFormState.HandleSubmit | components/auth/register-form.tsx:32-61 | the error is cleared first; a failed check sets its message and nothing is sent; otherwise the request is sent, a failure shows its message or "Đăng ký thất bại", and loading ends false |
| Profile.PasswordCheckOrder | app/profile/page.tsx:69-77 | mismatch is checked before length; only the success message is green |
| Profile.AvatarInitial | app/profile/page.tsx:133 | the initial is one character |
| Profile.AvatarInitialSpec | app/profile/page.tsx:133 | the initial is the first character of the display name, else of the username, else "U", upper-cased |
| Profile.ProfilePage.HandleChangePassword | app/profile/page.tsx:65-107 | without a token nothing happens; a failed check sets its message and sends nothing; otherwise the request is sent, success clears the three fields, failure keeps them, and saving ends false |
| ChatBox.NewMessageSpec | components/chat-box.tsx:73-78 | the stored text is the trimmed input, non-empty, no longer than the input and already trimmed; the author is the display name, or "Bạn" |
| ChatBox.AfterSendAppendOnly | components/chat-box.tsx:68-82 | a send keeps the old log as a prefix and adds one message exactly when the input is not blank and no send is in progress; a log of trimmed messages stays one |
| ChatBox.ChatBoxState.SetMessage | components/chat-box.tsx:139-145 | the input holds the typed text, which the input's `maxLength` keeps to at most 500 characters |
| ChatBox.ChatBoxState.HandleSend | components/chat-box.tsx:68-82 | a blank input or a send in progress changes nothing; otherwise the message is appended, the input emptied and the sending flag false |
| ChatRoom.AfterSendSpec | components/chat-room.tsx:69-83 | a send keeps the old log as a prefix and adds one message exactly when the input is not blank and someone is logged in; the text is kept as typed, and the sender's id, username and display name are copied |
| ChatRoom.SentMessageIsOwn | components/chat-room.tsx:110 | the sent message, which takes the sender's id (line 74), is drawn as the sender's own: their count grows by one, and the count of a user with another id does not |
| ChatRoom.NobodysOwn | components/chat-room.tsx:110 | with nobody logged in no message is drawn as one's own |
| ChatRoom.ChatRoomState.SetNewMessage | components/chat-room.tsx:145-149 | the input holds the typed text; this input sets no length limit |
| ChatRoom.ChatRoomState.HandleSend | components/chat-room.tsx:69-83 | a blank input or nobody logged in changes nothing; otherwise the message is appended and the input emptied |

## Left out

- ChatBox.ChatBoxState.SetMessage: the 500-character limit counts Dafny characters, where the browser's `maxLength` counts UTF-16 code units.
- Donation ledger, webhook reconciliation, leaderboard and milestones: the client only calls endpoints for these, so there is no logic to model.
- HTTP, session and storage plumbing (`fetchApi`, the auth context, `localStorage`). Every awaited call is a parameter saying how it ended.
- Timers: `setTimeout` and `setInterval` are explicit method calls (`ResetCopied`, `IntervalTick`, `FinishUpload`), never concurrency. The one exception is the 0 ms timeout in `insertMarkdown` that focuses the textarea and restores the selection: `InsertMarkdown` does it in the same step as the splice, so the moment between the re-render and the restore is not modelled.
- Locale formatting (`toLocaleDateString`, `toLocaleTimeString`), `JSON.stringify`, `Number.parseInt` and `Date` parsing. Parsed values are parameters; formatted dates are a label (`OnDate`).
- Unicode: case mapping covers only A–Z and Đ/đ. NFD is a per-character decomposition parameter. Strings are sequences of code points, while JavaScript counts UTF-16 units (`password.length`, `substring(0, 200)`).
- DOM, clipboard and router calls: `querySelector`, `focus`, scrolling, `navigator.clipboard`, `router.push`, `alert` (modelled as the returned `Alert`).
- The `renderMarkdown` regex steps other than the newline step. They rely on lazy quantifiers and multiline flags and emit unescaped HTML.
- Image upload in the wiki and post dialogs.
- Admin releases: `fetchReleases`, `handleDelete`, `handleDeleteFile` and `formatFileSize` (logarithms on floats).
- Profile: `handleUpdateProfile` and the login redirect.
- Forum: `fetchPosts` and the avatar fallback.
- JSON-LD: the static Organization, WebSite and SoftwareApplication records, which hold no logic.
- Presentation: badge labels and colours by role or status, online counters, the chat mock messages (the initial log is a constructor parameter), and the digits of a `TimeLabel`.
- AdminUsers: there is no class, because the page never updates its user list.
- RegisterForm.RegisterFormState.HandleSubmit: when a check fails, `isLoading` keeps its old value, as in the source. "Loading ends false" therefore holds only for a submit that reached `register`, or when loading was already false.
- ShikigamiList.ShikigamiListClient.SetRarityFilter and SetRoleFilter accept any string, while the buttons offer only the values of `rarityFilters` and `roleFilters`.

## Findings

| source | as written | input that shows it | evidently intended | confidence | as-written member | corrected member |
|---|---|---|---|---|---|---|
| app/admin/releases/page.tsx:184-204 | `clearInterval` runs only after a successful upload (line 192). When `adminUploadFile` throws, the catch sets the progress to 0, but the interval keeps firing `min(prev + 10, 90)`. The bar, shown while progress > 0 (line 669), climbs back to 90 and the interval never stops. A retry, allowed because the Upload button is enabled again (line 683), starts a second interval; if it succeeds it clears only that one, and the orphan pulls 100 back to 90. | an upload that fails, followed by one tick of the 200 ms interval (progress 10; 90 after nine ticks); or a failure, a successful retry and one tick (progress 90 instead of 100) | clear the interval on every path, so a failed upload leaves the progress at 0 | high — not executed | AdminReleases.AdminReleasesPage.FailedUploadClimbsAsWritten | AdminReleases.AdminReleasesPage.FailedUploadSettles |
