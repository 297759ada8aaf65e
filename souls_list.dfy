/** The soul (Ngự Hồn) wiki list: the fetched list and the effect that
    narrows it by search text and by type. */
module SoulsList {

  import opened Wrappers
  import opened Text
  import Seqs

  datatype Soul = Soul(id: string, name: string, nameVi: Option<string>, soulType: string)

  /** The values of the type buttons; "" is "Tất cả". The types "effect_hit"
      and "effect_res" have labels but no button. */
  const TypeFilterValues: seq<string> := ["", "attack", "crit", "hp", "defense", "speed", "special"]

  /** `name` or, when present, `nameVi` contains the query, ignoring case. */
  predicate MatchesSearch(s: Soul, query: string)
  {
    ContainsIgnoringCase(s.name, query) || (s.nameVi.Some? && ContainsIgnoringCase(s.nameVi.value, query))
  }

  predicate SearchOk(s: Soul, search: string) { search == "" || MatchesSearch(s, search) }
  predicate TypeOk(s: Soul, t: string) { t == "" || s.soulType == t }

  /** What the list should show. */
  function Expected(all: seq<Soul>, search: string, t: string): seq<Soul>
  {
    Seqs.Filter(all, (s: Soul) => SearchOk(s, search) && TypeOk(s, t))
  }

  /** The shown list is an order-preserving subsequence of exactly the
      entries that pass; a set type is matched exactly; with both filters
      empty the whole list is shown. */
  lemma ExpectedSpec(all: seq<Soul>, search: string, t: string)
    ensures var r := Expected(all, search, t);
      && Seqs.Subseq(r, all)
      && |r| <= |all|
      && |r| == Seqs.Count(all, (s: Soul) => SearchOk(s, search) && TypeOk(s, t))
      && (forall s :: s in r <==> s in all && SearchOk(s, search) && TypeOk(s, t))
      && (t != "" ==> forall s :: s in r ==> s.soulType == t)
      && (search == "" && t == "" ==> r == all)
  {
    var p := (s: Soul) => SearchOk(s, search) && TypeOk(s, t);
    Seqs.FilterIsSubseq(all, p);
    Seqs.FilterLength(all, p);
    forall s ensures s in Expected(all, search, t) <==> s in all && p(s) {
      Seqs.FilterMembership(all, p, s);
    }
    if search == "" && t == "" {
      Seqs.FilterKeepsAll(all, p);
    }
  }

  /** Whichever non-empty type button is chosen, no "effect_hit" or
      "effect_res" soul is listed. */
  lemma OfferedTypeExcludesEffects(all: seq<Soul>, search: string, t: string)
    requires t in TypeFilterValues && t != ""
    ensures forall s :: s in Expected(all, search, t) ==> s.soulType != "effect_hit" && s.soulType != "effect_res"
  {
    ExpectedSpec(all, search, t);
    assert forall i :: 0 <= i < |TypeFilterValues| ==> |TypeFilterValues[i]| < |"effect_hit"|;
  }

  const LoadFailed := "Không thể tải danh sách Ngự Hồn"

  class SoulsListClient {
    var souls: seq<Soul>
    var filtered: seq<Soul>
    var loading: bool
    var error: Option<string>
    var search: string
    var typeFilter: string

    /** The list shown agrees with the filters, and the type filter is one of
        the buttons. */
    predicate Valid()
      reads this
    {
      filtered == Expected(souls, search, typeFilter) && typeFilter in TypeFilterValues
    }

    constructor ()
      ensures souls == [] && filtered == [] && loading && error == None
      ensures search == "" && typeFilter == ""
      ensures Valid()
    {
      souls, filtered, loading, error := [], [], true, None;
      search, typeFilter := "", "";
    }

    /** `fetchSouls`, given the response (whose `souls` may be missing) or
        the failure; both lists take the fetched entries. */
    method Fetch(outcome: Fetched<Option<seq<Soul>>>)
      modifies this`souls, this`filtered, this`loading, this`error
      ensures !loading
      ensures outcome.Got? ==> souls == outcome.value.GetOr([]) && filtered == souls && error == old(error)
      ensures outcome.Failed? ==> souls == old(souls) && filtered == old(filtered) && error == Some(LoadFailed)
      ensures outcome.Got? && search == "" && typeFilter == "" ==> Valid()
      ensures outcome.Failed? && old(Valid()) ==> Valid()
    {
      loading := true;
      match outcome {
        case Got(response) =>
          var list := response.GetOr([]);
          souls := list;
          filtered := list;
          ExpectedSpec(list, search, typeFilter);
        case Failed(_) =>
          error := Some(LoadFailed);
      }
      loading := false;
    }

    /** The filter effect: `result` is narrowed by the search, then by the
        type, each only when it is non-empty. */
    method ApplyFilters()
      requires typeFilter in TypeFilterValues
      modifies this`filtered
      ensures Valid()
      ensures |filtered| <= |souls|
    {
      var all, q, t := souls, search, typeFilter;
      var s1 := (s: Soul) => SearchOk(s, q);
      var s12 := (s: Soul) => SearchOk(s, q) && TypeOk(s, t);
      var result := all;
      if q != "" {
        result := Seqs.Filter(result, (s: Soul) => MatchesSearch(s, q));
        Seqs.FilterExt(all, (s: Soul) => MatchesSearch(s, q), s1);
      } else {
        Seqs.FilterKeepsAll(all, s1);
      }
      assert result == Seqs.Filter(all, s1);
      if t != "" {
        result := Seqs.Filter(result, (s: Soul) => s.soulType == t);
        Seqs.FilterFilter(all, s1, (s: Soul) => s.soulType == t, s12);
      } else {
        Seqs.FilterExt(all, s1, s12);
      }
      filtered := result;
    }

    method SetSearch(value: string)
      requires typeFilter in TypeFilterValues
      modifies this`search, this`filtered
      ensures search == value && Valid()
    {
      search := value;
      ApplyFilters();
    }

    /** A type button. */
    method SetTypeFilter(value: string)
      requires value in TypeFilterValues
      modifies this`typeFilter, this`filtered
      ensures typeFilter == value && Valid()
    {
      typeFilter := value;
      ApplyFilters();
    }
  }
}
