/** The shikigami wiki list: the fetched list and the effect that narrows it
    by search text, rarity and role. */
module ShikigamiList {

  import opened Wrappers
  import opened Text
  import Seqs

  datatype Shikigami = Shikigami(id: string, name: string, nameVi: Option<string>, rarity: string, role: string)

  /** The rarity and role buttons; "" is "Tất cả". */
  const RarityFilters: seq<string> := ["", "SP", "SSR", "SR", "R", "N"]
  const RoleFilters: seq<string> := ["", "DPS", "Support", "Tank", "Healer", "Control", "Utility"]

  /** `name` or, when present, `nameVi` contains the query, ignoring case; an
      entry without `nameVi` can match only by name. */
  predicate MatchesSearch(s: Shikigami, query: string)
  {
    ContainsIgnoringCase(s.name, query) || (s.nameVi.Some? && ContainsIgnoringCase(s.nameVi.value, query))
  }

  /** Each filter lets everything through while it is empty. */
  predicate SearchOk(s: Shikigami, search: string) { search == "" || MatchesSearch(s, search) }
  predicate RarityOk(s: Shikigami, rarity: string) { rarity == "" || s.rarity == rarity }
  predicate RoleOk(s: Shikigami, role: string) { role == "" || s.role == role }

  predicate Passes(s: Shikigami, search: string, rarity: string, role: string)
  {
    SearchOk(s, search) && RarityOk(s, rarity) && RoleOk(s, role)
  }

  /** What the list should show: the entries passing all three filters. */
  function Expected(all: seq<Shikigami>, search: string, rarity: string, role: string): seq<Shikigami>
  {
    Seqs.Filter(all, (s: Shikigami) => Passes(s, search, rarity, role))
  }

  /** The shown list is an order-preserving subsequence holding exactly the
      entries that pass; a set rarity or role is matched exactly; with every
      filter empty the whole list is shown. */
  lemma ExpectedSpec(all: seq<Shikigami>, search: string, rarity: string, role: string)
    ensures var r := Expected(all, search, rarity, role);
      && Seqs.Subseq(r, all)
      && |r| <= |all|
      && |r| == Seqs.Count(all, (s: Shikigami) => Passes(s, search, rarity, role))
      && (forall s :: s in r <==> s in all && Passes(s, search, rarity, role))
      && (rarity != "" ==> forall s :: s in r ==> s.rarity == rarity)
      && (role != "" ==> forall s :: s in r ==> s.role == role)
      && (search == "" && rarity == "" && role == "" ==> r == all)
  {
    var p := (s: Shikigami) => Passes(s, search, rarity, role);
    Seqs.FilterIsSubseq(all, p);
    Seqs.FilterLength(all, p);
    forall s ensures s in Expected(all, search, rarity, role) <==> s in all && p(s) {
      Seqs.FilterMembership(all, p, s);
    }
    if search == "" && rarity == "" && role == "" {
      Seqs.FilterKeepsAll(all, p);
    }
  }

  /** An empty rarity or role filter leaves the result of the others as it
      is, and an entry without `nameVi` passes the search only by its name. */
  lemma EmptyFilterIsNeutral(all: seq<Shikigami>, search: string, rarity: string, role: string)
    ensures Expected(all, search, "", role) == Seqs.Filter(all, (s: Shikigami) => SearchOk(s, search) && RoleOk(s, role))
    ensures Expected(all, search, rarity, "") == Seqs.Filter(all, (s: Shikigami) => SearchOk(s, search) && RarityOk(s, rarity))
    ensures forall s: Shikigami :: s.nameVi.None? ==> (MatchesSearch(s, search) <==> ContainsIgnoringCase(s.name, search))
  {
    Seqs.FilterExt(all, (s: Shikigami) => Passes(s, search, "", role),
      (s: Shikigami) => SearchOk(s, search) && RoleOk(s, role));
    Seqs.FilterExt(all, (s: Shikigami) => Passes(s, search, rarity, ""),
      (s: Shikigami) => SearchOk(s, search) && RarityOk(s, rarity));
  }

  /** The filters are conjunctive: applying them one after another in either
      order gives the shown list. */
  lemma FilterOrderIrrelevant(all: seq<Shikigami>, search: string, rarity: string, role: string)
    ensures var bySearch := (s: Shikigami) => SearchOk(s, search);
      var byRarity := (s: Shikigami) => RarityOk(s, rarity);
      var byRole := (s: Shikigami) => RoleOk(s, role);
      && Seqs.Filter(Seqs.Filter(Seqs.Filter(all, bySearch), byRarity), byRole) == Expected(all, search, rarity, role)
      && Seqs.Filter(Seqs.Filter(Seqs.Filter(all, byRole), byRarity), bySearch) == Expected(all, search, rarity, role)
  {
    var bySearch := (s: Shikigami) => SearchOk(s, search);
    var byRarity := (s: Shikigami) => RarityOk(s, rarity);
    var byRole := (s: Shikigami) => RoleOk(s, role);
    var all3 := (s: Shikigami) => Passes(s, search, rarity, role);
    var sr := (s: Shikigami) => SearchOk(s, search) && RarityOk(s, rarity);
    var rr := (s: Shikigami) => RoleOk(s, role) && RarityOk(s, rarity);
    Seqs.FilterFilter(all, bySearch, byRarity, sr);
    Seqs.FilterFilter(all, sr, byRole, all3);
    Seqs.FilterFilter(all, byRole, byRarity, rr);
    Seqs.FilterFilter(all, rr, bySearch, all3);
  }

  const LoadFailed := "Không thể tải danh sách Thức Thần"

  class ShikigamiListClient {
    var shikigamis: seq<Shikigami>
    var filtered: seq<Shikigami>
    var loading: bool
    var error: Option<string>
    var search: string
    var rarityFilter: string
    var roleFilter: string

    /** The list shown agrees with the filters. */
    predicate Valid()
      reads this
    {
      filtered == Expected(shikigamis, search, rarityFilter, roleFilter)
    }

    constructor ()
      ensures shikigamis == [] && filtered == [] && loading && error == None
      ensures search == "" && rarityFilter == "" && roleFilter == ""
      ensures Valid()
    {
      shikigamis, filtered, loading, error := [], [], true, None;
      search, rarityFilter, roleFilter := "", "", "";
    }

    /** `fetchShikigamis`, given the response (whose `shikigamis` may be
        missing) or the failure; both lists take the fetched entries. */
    method Fetch(outcome: Fetched<Option<seq<Shikigami>>>)
      modifies this`shikigamis, this`filtered, this`loading, this`error
      ensures !loading
      ensures outcome.Got? ==>
        shikigamis == outcome.value.GetOr([]) && filtered == shikigamis && error == old(error)
      ensures outcome.Failed? ==>
        shikigamis == old(shikigamis) && filtered == old(filtered) && error == Some(LoadFailed)
      ensures outcome.Got? && search == "" && rarityFilter == "" && roleFilter == "" ==> Valid()
      ensures outcome.Failed? && old(Valid()) ==> Valid()
    {
      loading := true;
      match outcome {
        case Got(response) =>
          var list := response.GetOr([]);
          shikigamis := list;
          filtered := list;
          ExpectedSpec(list, search, rarityFilter, roleFilter);
        case Failed(_) =>
          error := Some(LoadFailed);
      }
      loading := false;
    }

    /** The filter effect, run whenever the search, a filter or the list
        changes: `result` is narrowed by each non-empty filter in turn. */
    method ApplyFilters()
      modifies this`filtered
      ensures Valid()
      ensures |filtered| <= |shikigamis|
    {
      var all, q, ra, ro := shikigamis, search, rarityFilter, roleFilter;
      var s1 := (s: Shikigami) => SearchOk(s, q);
      var s12 := (s: Shikigami) => SearchOk(s, q) && RarityOk(s, ra);
      var s123 := (s: Shikigami) => Passes(s, q, ra, ro);
      var result := all;
      if q != "" {
        result := Seqs.Filter(result, (s: Shikigami) => MatchesSearch(s, q));
        Seqs.FilterExt(all, (s: Shikigami) => MatchesSearch(s, q), s1);
      } else {
        Seqs.FilterKeepsAll(all, s1);
      }
      assert result == Seqs.Filter(all, s1);
      if ra != "" {
        result := Seqs.Filter(result, (s: Shikigami) => s.rarity == ra);
        Seqs.FilterFilter(all, s1, (s: Shikigami) => s.rarity == ra, s12);
      } else {
        Seqs.FilterExt(all, s1, s12);
      }
      assert result == Seqs.Filter(all, s12);
      if ro != "" {
        result := Seqs.Filter(result, (s: Shikigami) => s.role == ro);
        Seqs.FilterFilter(all, s12, (s: Shikigami) => s.role == ro, s123);
      } else {
        Seqs.FilterExt(all, s12, s123);
      }
      filtered := result;
    }

    method SetSearch(value: string)
      modifies this`search, this`filtered
      ensures search == value && Valid()
    {
      search := value;
      ApplyFilters();
    }

    method SetRarityFilter(value: string)
      modifies this`rarityFilter, this`filtered
      ensures rarityFilter == value && Valid()
    {
      rarityFilter := value;
      ApplyFilters();
    }

    method SetRoleFilter(value: string)
      modifies this`roleFilter, this`filtered
      ensures roleFilter == value && Valid()
    {
      roleFilter := value;
      ApplyFilters();
    }
  }
}
