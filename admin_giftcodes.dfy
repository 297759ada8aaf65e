/** The giftcode administration page: creating a code (prepended to the
    list), deleting by id, the search box and the three totals. */
module AdminGiftcodes {

  import opened Wrappers
  import opened Text
  import Seqs

  datatype Status = Active | Expired | Used

  datatype Giftcode = Giftcode(
    id: string, code: string, description: string, status: Status,
    usageCount: int, maxUsage: int, expiresAt: string, createdAt: string)

  /** The create dialog's fields, as typed. */
  datatype NewCodeForm = NewCodeForm(code: string, description: string, maxUsage: string, expiresAt: string)

  const EmptyForm := NewCodeForm("", "", "", "")
  const DefaultMaxUsage := 100

  /** `Number.parseInt(newCode.maxUsage) || 100`, given what `parseInt`
      returned (`None` for NaN): NaN and 0 are falsy and give 100; any other
      number, negative ones included, is kept. */
  function MaxUsage(parsed: Option<int>): (r: int)
    ensures parsed.Some? && parsed.value != 0 ==> r == parsed.value
    ensures parsed.None? || parsed.value == 0 ==> r == DefaultMaxUsage
  {
    if parsed.Some? && parsed.value != 0 then parsed.value else DefaultMaxUsage
  }

  /** The giftcode `handleCreate` builds; `id` is `Date.now().toString()` and
      `today` the current date as `yyyy-mm-dd`. */
  function NewGiftcode(form: NewCodeForm, id: string, today: string, parsed: Option<int>): Giftcode
  {
    Giftcode(id, Upper(form.code), form.description, Active, 0, MaxUsage(parsed), form.expiresAt, today)
  }

  /** A created code is the typed one upper-cased, stored active and unused,
      with the description and expiry date as typed, the usage limit from
      `MaxUsage`, and the given id and creation date. */
  lemma NewGiftcodeShape(form: NewCodeForm, id: string, today: string, parsed: Option<int>)
    ensures var g := NewGiftcode(form, id, today, parsed);
      && g.code == Upper(form.code)
      && g.description == form.description && g.expiresAt == form.expiresAt
      && g.maxUsage == MaxUsage(parsed) && g.id == id && g.createdAt == today
      && g.status == Active && g.usageCount == 0
      && |g.code| == |form.code|
      && (forall i :: 0 <= i < |g.code| ==> !('a' <= g.code[i] <= 'z'))
      && Upper(g.code) == g.code
  {
    var g := NewGiftcode(form, id, today, parsed);
    assert Upper(g.code) == g.code;
  }

  /** `giftcodes.filter((gc) => gc.id !== id)` */
  function Delete(giftcodes: seq<Giftcode>, id: string): seq<Giftcode>
  {
    Seqs.Filter(giftcodes, (g: Giftcode) => g.id != id)
  }

  /** Delete removes every entry with that id and keeps the others, in
      order, repeated entries included: the result is as long as the number
      of entries with another id. */
  lemma DeleteSpec(giftcodes: seq<Giftcode>, id: string)
    ensures forall g :: g in Delete(giftcodes, id) <==> g in giftcodes && g.id != id
    ensures Seqs.Subseq(Delete(giftcodes, id), giftcodes)
    ensures |Delete(giftcodes, id)| == Seqs.Count(giftcodes, (g: Giftcode) => g.id != id)
  {
    var p := (g: Giftcode) => g.id != id;
    Seqs.FilterLength(giftcodes, p);
    forall g ensures g in Delete(giftcodes, id) <==> g in giftcodes && g.id != id {
      Seqs.FilterMembership(giftcodes, p, g);
    }
    Seqs.FilterIsSubseq(giftcodes, p);
  }

  /** The search box: code or description contains the query, ignoring
      case. */
  predicate MatchesSearch(g: Giftcode, query: string)
  {
    ContainsIgnoringCase(g.code, query) || ContainsIgnoringCase(g.description, query)
  }

  function Search(giftcodes: seq<Giftcode>, query: string): seq<Giftcode>
  {
    Seqs.Filter(giftcodes, (g: Giftcode) => MatchesSearch(g, query))
  }

  /** Every result matches, every matching code is a result as often as it
      occurs, the order is kept, and the empty query keeps the whole list. */
  lemma SearchSpec(giftcodes: seq<Giftcode>, query: string)
    ensures forall g :: g in Search(giftcodes, query) <==> g in giftcodes && MatchesSearch(g, query)
    ensures Seqs.Subseq(Search(giftcodes, query), giftcodes)
    ensures |Search(giftcodes, query)| == Seqs.Count(giftcodes, (g: Giftcode) => MatchesSearch(g, query))
    ensures query == "" ==> Search(giftcodes, query) == giftcodes
  {
    var p := (g: Giftcode) => MatchesSearch(g, query);
    Seqs.FilterLength(giftcodes, p);
    forall g ensures g in Search(giftcodes, query) <==> g in giftcodes && MatchesSearch(g, query) {
      Seqs.FilterMembership(giftcodes, p, g);
    }
    Seqs.FilterIsSubseq(giftcodes, p);
    if query == "" {
      forall i | 0 <= i < |giftcodes| ensures p(giftcodes[i]) {
        EmptyQueryMatches(giftcodes[i].code);
      }
      Seqs.FilterKeepsAll(giftcodes, p);
    }
  }

  /** The three stat cards. */
  datatype Totals = Totals(count: int, active: int, usage: int)

  function IsActive(g: Giftcode): bool { g.status == Active }
  function Usage(g: Giftcode): int { g.usageCount }

  function TotalsOf(giftcodes: seq<Giftcode>): Totals
  {
    Totals(|giftcodes|, Seqs.Count(giftcodes, IsActive), Seqs.Sum(giftcodes, Usage))
  }

  /** Creating a code adds one to the count and to the active count and
      leaves the usage sum unchanged. */
  lemma TotalsAfterCreate(giftcodes: seq<Giftcode>, g: Giftcode)
    requires g.status == Active && g.usageCount == 0
    ensures TotalsOf([g] + giftcodes) ==
      Totals(TotalsOf(giftcodes).count + 1, TotalsOf(giftcodes).active + 1, TotalsOf(giftcodes).usage)
  {
    Seqs.CountAppend([g], giftcodes, IsActive);
    Seqs.SumAppend([g], giftcodes, Usage);
  }

  /** Create does not look for an existing code: the number of entries
      carrying the new code grows by one even when it was already there. */
  lemma CreateAllowsDuplicates(giftcodes: seq<Giftcode>, g: Giftcode)
    ensures Seqs.Count([g] + giftcodes, (h: Giftcode) => h.code == g.code)
      == Seqs.Count(giftcodes, (h: Giftcode) => h.code == g.code) + 1
  {
    Seqs.CountAppend([g], giftcodes, (h: Giftcode) => h.code == g.code);
  }

  class AdminGiftcodesPage {
    var giftcodes: seq<Giftcode>
    var searchQuery: string
    var isCreateOpen: bool
    var newCode: NewCodeForm

    constructor (initial: seq<Giftcode>)
      ensures giftcodes == initial && searchQuery == "" && !isCreateOpen && newCode == EmptyForm
    {
      giftcodes, searchQuery, isCreateOpen, newCode := initial, "", false, EmptyForm;
    }

    /** `filteredGiftcodes` */
    function Filtered(): seq<Giftcode>
      reads this
    {
      Search(giftcodes, searchQuery)
    }

    /** `handleCreate`, reachable only while the code field is non-empty
        (the button is disabled otherwise). */
    method HandleCreate(id: string, today: string, parsedMax: Option<int>)
      requires newCode.code != ""
      modifies this`giftcodes, this`newCode, this`isCreateOpen
      ensures giftcodes == [NewGiftcode(old(newCode), id, today, parsedMax)] + old(giftcodes)
      ensures |giftcodes| == |old(giftcodes)| + 1 && giftcodes[1..] == old(giftcodes)
      ensures newCode == EmptyForm && !isCreateOpen
    {
      var g := NewGiftcode(newCode, id, today, parsedMax);
      giftcodes := [g] + giftcodes;
      newCode := EmptyForm;
      isCreateOpen := false;
    }

    /** `handleDelete(id)` */
    method HandleDelete(id: string)
      modifies this`giftcodes
      ensures giftcodes == Delete(old(giftcodes), id)
    {
      giftcodes := Delete(giftcodes, id);
    }
  }
}
