/**
 * The soldier roster table (components/features/soldiers/soldier-table.tsx): a search
 * term and two select filters held as component state, the rows they let through,
 * and the Reset control that puts all three back to their initial values.
 */
module SoldierTable {
  import opened Text
  import opened Seqs

  /** The soldier columns the table reads. */
  datatype Soldier = Soldier(id: string, serviceNumber: string, fullName: string, rank: string, isActive: bool)

  /** The lower-cased term occurs in the lower-cased full name or service number. */
  predicate MatchesSearch(term: string, s: Soldier) {
    Contains(ToLower(s.fullName), ToLower(term)) || Contains(ToLower(s.serviceNumber), ToLower(term))
  }

  predicate MatchesRank(rankFilter: string, s: Soldier) {
    rankFilter == "all" || s.rank == rankFilter
  }

  /** "all" admits everyone, "active" and "inactive" the soldiers in that state, anything else no one. */
  predicate MatchesStatus(statusFilter: string, s: Soldier) {
    statusFilter == "all" || (statusFilter == "active" && s.isActive) || (statusFilter == "inactive" && !s.isActive)
  }

  predicate Matches(term: string, rankFilter: string, statusFilter: string, s: Soldier) {
    MatchesSearch(term, s) && MatchesRank(rankFilter, s) && MatchesStatus(statusFilter, s)
  }

  function Matcher(term: string, rankFilter: string, statusFilter: string): Soldier -> bool {
    (s: Soldier) => Matches(term, rankFilter, statusFilter, s)
  }

  /** `filteredData`: the soldiers passing all three conditions, in roster order. */
  function FilterSoldiers(data: seq<Soldier>, term: string, rankFilter: string, statusFilter: string)
    : (r: seq<Soldier>)
    ensures forall s :: s in r <==> s in data && Matches(term, rankFilter, statusFilter, s)
    ensures forall s :: multiset(r)[s] == if Matches(term, rankFilter, statusFilter, s) then multiset(data)[s] else 0
    ensures IsSubsequence(r, data)
  {
    var p := Matcher(term, rankFilter, statusFilter);
    FilterIsSubsequence(data, p);
    forall s
      ensures multiset(Filter(data, p))[s] == if p(s) then multiset(data)[s] else 0
    {
      FilterCount(data, p, s);
    }
    Filter(data, p)
  }

  /** The initial filters let every soldier through. */
  lemma InitialFiltersShowAll(data: seq<Soldier>)
    ensures FilterSoldiers(data, "", "all", "all") == data
  {
    forall s | s in data
      ensures Matcher("", "all", "all")(s)
    {
      assert ToLower("") == "";
      ContainsEmpty(ToLower(s.fullName));
    }
    FilterAll(data, Matcher("", "all", "all"));
  }

  /** The search ignores letter case in the term. */
  lemma SearchIgnoresCase(term: string, s: Soldier)
    ensures MatchesSearch(ToUpper(term), s) <==> MatchesSearch(term, s)
  {
    assert ToLower(ToUpper(term)) == ToLower(term);
  }

  /** Under the same search and rank, "active" and "inactive" split the "all" rows between them. */
  lemma ActiveInactivePartition(data: seq<Soldier>, term: string, rankFilter: string)
    ensures |FilterSoldiers(data, term, rankFilter, "active")| + |FilterSoldiers(data, term, rankFilter, "inactive")|
         == |FilterSoldiers(data, term, rankFilter, "all")|
  {
    var all := FilterSoldiers(data, term, rankFilter, "all");
    var p := (s: Soldier) => s.isActive;
    var q := (s: Soldier) => !s.isActive;
    FilterPartition(all, p, q);
    FilterTwice(data, Matcher(term, rankFilter, "all"), p, Matcher(term, rankFilter, "active"));
    FilterTwice(data, Matcher(term, rankFilter, "all"), q, Matcher(term, rankFilter, "inactive"));
  }

  /** The component's filter state. */
  class SoldierTableState {
    var searchTerm: string
    var rankFilter: string
    var statusFilter: string

    /** The initial state: an empty search and both filters on "all". */
    constructor()
      ensures searchTerm == "" && rankFilter == "all" && statusFilter == "all"
      ensures !ResetVisible()
    {
      searchTerm := "";
      rankFilter := "all";
      statusFilter := "all";
    }

    /** The rows the table shows for the roster `data`. */
    function FilteredData(data: seq<Soldier>): (r: seq<Soldier>)
      reads this
      ensures forall s :: s in r <==> s in data && Matches(searchTerm, rankFilter, statusFilter, s)
      ensures forall s :: multiset(r)[s] == if Matches(searchTerm, rankFilter, statusFilter, s) then multiset(data)[s] else 0
      ensures IsSubsequence(r, data)
    {
      FilterSoldiers(data, searchTerm, rankFilter, statusFilter)
    }

    /** The Reset control is shown while the search is non-empty or a filter is not "all". */
    predicate ResetVisible()
      reads this
    {
      searchTerm != "" || rankFilter != "all" || statusFilter != "all"
    }

    method SetSearchTerm(term: string)
      modifies this
      ensures searchTerm == term && rankFilter == old(rankFilter) && statusFilter == old(statusFilter)
    {
      searchTerm := term;
    }

    method SetRankFilter(rank: string)
      modifies this
      ensures rankFilter == rank && searchTerm == old(searchTerm) && statusFilter == old(statusFilter)
    {
      rankFilter := rank;
    }

    method SetStatusFilter(status: string)
      modifies this
      ensures statusFilter == status && searchTerm == old(searchTerm) && rankFilter == old(rankFilter)
    {
      statusFilter := status;
    }

    /** `resetFilters`: back to the initial state, which hides the control and shows every row. */
    method ResetFilters()
      modifies this
      ensures searchTerm == "" && rankFilter == "all" && statusFilter == "all"
      ensures !ResetVisible()
    {
      searchTerm := "";
      rankFilter := "all";
      statusFilter := "all";
    }

    /** While the Reset control is hidden, the table shows the whole roster. */
    lemma HiddenResetShowsAll(data: seq<Soldier>)
      requires !ResetVisible()
      ensures FilteredData(data) == data
    {
      InitialFiltersShowAll(data);
    }
  }
}
