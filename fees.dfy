/**
 * The fee list page (src/pages/Fees.tsx): the search box, the All / Paid / Due
 * tabs over the searched list, and the owner-only "New Fee" button.
 */
module FeesPage {
  import opened Collections
  import opened Text
  import opened Auth
  import opened FeeCard
  import opened FeeUtils

  /**
   * A record matches when its lower-cased member name contains the lower-cased
   * query, or its admission number contains that same lower-cased query. The
   * query is not trimmed here.
   */
  predicate MatchesFeeQuery(r: FeeRecord, query: string)
  {
    Contains(Lower(r.member.name), Lower(query)) || Contains(r.member.admissionNumber, Lower(query))
  }

  function FeeQuery(query: string): FeeRecord -> bool
  {
    r => MatchesFeeQuery(r, query)
  }

  /** The search effect: a blank query shows every record, otherwise the matching ones. */
  function FeeSearch(records: seq<FeeRecord>, query: string): (r: seq<FeeRecord>)
    ensures IsSubsequence(r, records) && |r| <= |records|
    ensures IsBlank(query) ==> r == records
    ensures !IsBlank(query) ==> forall x :: x in r <==> x in records && MatchesFeeQuery(x, query)
    ensures !IsBlank(query) ==>
      forall x :: multiset(r)[x] == if MatchesFeeQuery(x, query) then multiset(records)[x] else 0
  {
    if IsBlank(query) then
      SubsequenceReflexive(records);
      records
    else
      FilterLength(records, FeeQuery(query));
      FilterCounts(records, FeeQuery(query));
      Filter(records, FeeQuery(query))
  }

  /** The Paid tab: the paid records of the searched list. */
  function PaidTab(records: seq<FeeRecord>, query: string): (r: seq<FeeRecord>)
    ensures forall i :: 0 <= i < |r| ==> r[i].status == PaidStatus
    ensures forall x :: x in r <==>
      x in records && x.status == PaidStatus && (IsBlank(query) || MatchesFeeQuery(x, query))
  {
    GetPaidRecords(FeeSearch(records, query))
  }

  /** The Due tab: the due records of the searched list. */
  function DueTab(records: seq<FeeRecord>, query: string): (r: seq<FeeRecord>)
    ensures forall i :: 0 <= i < |r| ==> r[i].status == DueStatus
    ensures forall x :: x in r <==>
      x in records && x.status == DueStatus && (IsBlank(query) || MatchesFeeQuery(x, query))
  {
    GetDueRecords(FeeSearch(records, query))
  }

  /** Searching then taking the paid records is the same as searching among the paid records. */
  lemma {:induction false} TabsSearchWithinStatus(records: seq<FeeRecord>, query: string)
    ensures PaidTab(records, query) == FeeSearch(GetPaidRecords(records), query)
    ensures DueTab(records, query) == FeeSearch(GetDueRecords(records), query)
  {
    if !IsBlank(query) {
      FilterCommutes(records, FeeQuery(query), IsPaid);
      FilterCommutes(records, FeeQuery(query), IsDue);
    }
  }

  /** Every record of a tab is in the searched list and has that tab's status. */
  lemma {:induction false} TabsShowSearchedRecords(records: seq<FeeRecord>, query: string, x: FeeRecord)
    ensures x in PaidTab(records, query) <==> x in FeeSearch(records, query) && x.status == PaidStatus
    ensures x in DueTab(records, query) <==> x in FeeSearch(records, query) && x.status == DueStatus
  {
  }

  /** A query of spaces only is blank: it hides nothing. */
  lemma SpacesOnlyQueryShowsAll(records: seq<FeeRecord>)
    ensures FeeSearch(records, "  ") == records
  {
    BlankIffAllWhitespace("  ");
  }

  /** The "New Fee" button is shown to owners only. */
  function ShowsNewFeeButton(user: Option<User>): (b: bool)
    ensures b <==> user.Some? && user.value.role == OwnerRole
  {
    match user
    case Some(u) => u.role == OwnerRole
    case None => false
  }

  class FeesPageState {
    var searchQuery: string
    var feeRecords: seq<FeeRecord>
    var filteredRecords: seq<FeeRecord>
    var isLoading: bool

    /** After each effect has run, the shown list is the search over the loaded records. */
    ghost predicate Valid()
      reads this
    {
      filteredRecords == FeeSearch(feeRecords, searchQuery)
    }

    constructor ()
      ensures Valid() && searchQuery == "" && feeRecords == [] && isLoading
    {
      searchQuery, feeRecords, filteredRecords, isLoading := "", [], [], true;
    }

    /**
     * `fetchFeeRecords` followed by the search effect it triggers. `failed`
     * stands for a query error; `data` is the query's data, possibly null.
     */
    method FetchFeeRecords(failed: bool, data: Option<seq<FeeRecord>>)
      requires Valid()
      modifies this
      ensures Valid() && !isLoading && searchQuery == old(searchQuery)
      ensures feeRecords == if failed then old(feeRecords) else if data.Some? then data.value else []
    {
      isLoading := true;
      if !failed {
        var typed := if data.Some? then data.value else [];
        feeRecords := typed;
        filteredRecords := typed;
        filteredRecords := FeeSearch(feeRecords, searchQuery);
      }
      isLoading := false;
    }

    /** Typing in the search box, followed by the search effect. */
    method SetSearchQuery(query: string)
      requires Valid()
      modifies this`searchQuery, this`filteredRecords
      ensures Valid() && searchQuery == query && feeRecords == old(feeRecords)
    {
      searchQuery := query;
      filteredRecords := FeeSearch(feeRecords, searchQuery);
    }
  }
}
