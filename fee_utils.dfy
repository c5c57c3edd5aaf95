/**
 * The Paid and Due filters (src/utils/feeUtils.ts).
 */
module FeeUtils {
  import opened Collections
  import opened FeeCard

  predicate IsPaid(r: FeeRecord)
  {
    r.status == PaidStatus
  }

  predicate IsDue(r: FeeRecord)
  {
    r.status == DueStatus
  }

  /** `records.filter(r => r.status === 'Paid')` */
  function GetPaidRecords(records: seq<FeeRecord>): (r: seq<FeeRecord>)
    ensures IsSubsequence(r, records) && |r| <= |records|
    ensures forall x :: x in r <==> x in records && x.status == PaidStatus
    ensures forall x :: multiset(r)[x] == if x.status == PaidStatus then multiset(records)[x] else 0
  {
    FilterLength(records, IsPaid);
    FilterCounts(records, IsPaid);
    Filter(records, IsPaid)
  }

  /** `records.filter(r => r.status === 'Due')` */
  function GetDueRecords(records: seq<FeeRecord>): (r: seq<FeeRecord>)
    ensures IsSubsequence(r, records) && |r| <= |records|
    ensures forall x :: x in r <==> x in records && x.status == DueStatus
    ensures forall x :: multiset(r)[x] == if x.status == DueStatus then multiset(records)[x] else 0
  {
    FilterLength(records, IsDue);
    FilterCounts(records, IsDue);
    Filter(records, IsDue)
  }

  /** When every status is 'Paid' or 'Due', the two tabs together hold every record once. */
  lemma {:induction false} PaidAndDuePartition(records: seq<FeeRecord>)
    requires forall i :: 0 <= i < |records| ==> HasDeclaredStatus(records[i])
    ensures |GetPaidRecords(records)| + |GetDueRecords(records)| == |records|
  {
    FilterPartition(records, IsPaid, IsDue);
  }

  lemma {:induction false} FiltersAreIdempotent(records: seq<FeeRecord>)
    ensures GetPaidRecords(GetPaidRecords(records)) == GetPaidRecords(records)
    ensures GetDueRecords(GetDueRecords(records)) == GetDueRecords(records)
  {
    FilterIdempotent(records, IsPaid);
    FilterIdempotent(records, IsDue);
  }

  /** No paid record is due. */
  lemma {:induction false} NoDueAmongPaid(records: seq<FeeRecord>)
    ensures GetDueRecords(GetPaidRecords(records)) == []
    ensures GetPaidRecords(GetDueRecords(records)) == []
  {
    FilterDisjoint(records, IsPaid, IsDue);
    FilterDisjoint(records, IsDue, IsPaid);
  }
}
