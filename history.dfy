/**
 * The diet-plan history list (src/pages/History.tsx): a constant list of plans
 * and its search box.
 */
module HistoryPage {
  import opened Collections
  import opened Text

  datatype MemberPlan = MemberPlan(id: string, name: string, admissionNumber: string, date: string, weight: string)

  /** The list the page shows. */
  const SamplePlans := [
    MemberPlan("1", "Rahul Kumar", "2023001", "2023-10-15", "75"),
    MemberPlan("2", "Priya Singh", "2023005", "2023-10-12", "62"),
    MemberPlan("3", "Amit Sharma", "2023010", "2023-10-10", "80")
  ]

  /**
   * The name is compared case-insensitively, the admission number against the
   * query exactly as typed; the query is not trimmed.
   */
  predicate MatchesPlanQuery(p: MemberPlan, query: string)
  {
    Contains(Lower(p.name), Lower(query)) || Contains(p.admissionNumber, query)
  }

  function PlanQuery(query: string): MemberPlan -> bool
  {
    p => MatchesPlanQuery(p, query)
  }

  /** `filteredPlans`: the matching plans, in their order. */
  function FilteredPlans(plans: seq<MemberPlan>, query: string): (r: seq<MemberPlan>)
    ensures IsSubsequence(r, plans) && |r| <= |plans|
    ensures forall p :: p in r <==> p in plans && MatchesPlanQuery(p, query)
    ensures forall p :: multiset(r)[p] == if MatchesPlanQuery(p, query) then multiset(plans)[p] else 0
  {
    FilterLength(plans, PlanQuery(query));
    FilterCounts(plans, PlanQuery(query));
    Filter(plans, PlanQuery(query))
  }

  /** The empty query keeps every plan. */
  lemma {:induction false} EmptyQueryKeepsAll(plans: seq<MemberPlan>)
    ensures FilteredPlans(plans, "") == plans
  {
    forall i | 0 <= i < |plans|
      ensures PlanQuery("")(plans[i])
    {
      ContainsEmpty(plans[i].admissionNumber);
    }
    FilterAll(plans, PlanQuery(""));
  }

  /** Lower-casing an upper-cased query gives the lower-cased query back. */
  lemma {:induction false} LowerOfUpper(q: string)
    ensures Lower(Upper(q)) == Lower(q)
  {
    assert forall i :: 0 <= i < |q| ==> LowerChar(UpperChar(q[i])) == LowerChar(q[i]);
  }

  /** The name match ignores the case of the query. */
  lemma {:induction false} NameMatchIgnoresCase(p: MemberPlan, query: string)
    ensures Contains(Lower(p.name), Lower(Upper(query))) == Contains(Lower(p.name), Lower(query))
  {
    LowerOfUpper(query);
  }

  /** Two spaces in a row somewhere in `s`. */
  ghost predicate HasDoubleSpace(s: string)
  {
    exists i :: 0 <= i < |s| - 1 && s[i] == ' ' && s[i + 1] == ' '
  }

  lemma {:induction false} DoubleSpaceNotContained(s: string)
    requires !HasDoubleSpace(s)
    ensures !Contains(s, "  ")
  {
    ContainsIffOccurs(s, "  ");
    forall i | 0 <= i <= |s| - 2
      ensures !OccursAt(s, "  ", i)
    {
      assert s[i..i + 2][0] == s[i] && s[i..i + 2][1] == s[i + 1];
    }
  }

  lemma {:induction false} LowerKeepsDoubleSpaceFree(s: string)
    requires !HasDoubleSpace(s)
    ensures !HasDoubleSpace(Lower(s))
  {
    var l := Lower(s);
    forall i | 0 <= i < |l| - 1
      ensures !(l[i] == ' ' && l[i + 1] == ' ')
    {
      assert l[i] == LowerChar(s[i]) && l[i + 1] == LowerChar(s[i + 1]);
    }
  }

  /**
   * A query of two spaces is not trimmed away: when no name or admission
   * number holds two spaces in a row, it hides every plan.
   */
  lemma {:induction false} TwoSpacesHideEveryPlan(plans: seq<MemberPlan>)
    requires forall i :: 0 <= i < |plans| ==> !HasDoubleSpace(plans[i].name) && !HasDoubleSpace(plans[i].admissionNumber)
    ensures FilteredPlans(plans, "  ") == []
  {
    assert Lower("  ") == "  ";
    forall i | 0 <= i < |plans|
      ensures !PlanQuery("  ")(plans[i])
    {
      LowerKeepsDoubleSpaceFree(plans[i].name);
      DoubleSpaceNotContained(Lower(plans[i].name));
      DoubleSpaceNotContained(plans[i].admissionNumber);
    }
    FilterNone(plans, PlanQuery("  "));
  }
}
