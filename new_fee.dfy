/**
 * The new-fee form (src/pages/NewFee.tsx): the fee schema, the member picker
 * with its search, and the submit guards that build the inserted `fees` row.
 *
 * Dates are day numbers; the default payment and due dates (today and a month
 * later) are passed in.
 */
module NewFeePage {
  import opened Collections
  import opened Text
  import opened Auth

  datatype Member = Member(id: string, name: string, admissionNumber: string, phone: string)

  datatype FeeForm = FeeForm(
    admissionNumber: string, amount: string, paymentDate: Option<int>, dueDate: Option<int>, status: string)

  datatype FeeField = AdmissionNumberField | AmountField | PaymentDateField | DueDateField | StatusField

  /**
   * The row handed to the insert. `amount` is the form's text: the source
   * converts it with `parseFloat`, which is not modelled.
   */
  datatype FeeInsert = FeeInsert(
    memberId: string, amount: string, paymentDate: int, dueDate: int, status: string, createdBy: string)

  datatype SubmitOutcome =
    | Invalid(errors: set<FeeField>)
    | NotSignedIn
    | NoMemberSelected
    | Saved(row: FeeInsert)
    | SaveFailed(row: FeeInsert)

  /** The fields `feeSchema` rejects. */
  function FeeSchemaErrors(f: FeeForm): (errors: set<FeeField>)
    ensures errors == {} <==>
      |f.admissionNumber| >= 1 && |f.amount| >= 1 && f.paymentDate.Some? && f.dueDate.Some?
      && (f.status == "Paid" || f.status == "Due")
    ensures StatusField in errors <==> f.status != "Paid" && f.status != "Due"
  {
    (if f.admissionNumber == "" then {AdmissionNumberField} else {})
    + (if f.amount == "" then {AmountField} else {})
    + (if f.paymentDate.None? then {PaymentDateField} else {})
    + (if f.dueDate.None? then {DueDateField} else {})
    + (if f.status != "Paid" && f.status != "Due" then {StatusField} else {})
  }

  function DefaultForm(today: int, nextMonth: int): FeeForm
  {
    FeeForm("", "", Some(today), Some(nextMonth), "Paid")
  }

  /** The untouched form is rejected for its empty admission number and amount only. */
  lemma DefaultFormNeedsMemberAndAmount(today: int, nextMonth: int)
    ensures FeeSchemaErrors(DefaultForm(today, nextMonth)) == {AdmissionNumberField, AmountField}
  {
  }

  /** The member search: lower-cased name, or admission number, contains the lower-cased query. */
  predicate MatchesMemberQuery(m: Member, query: string)
  {
    Contains(Lower(m.name), Lower(query)) || Contains(m.admissionNumber, Lower(query))
  }

  function MemberQuery(query: string): Member -> bool
  {
    m => MatchesMemberQuery(m, query)
  }

  function MemberSearch(members: seq<Member>, query: string): (r: seq<Member>)
    ensures IsSubsequence(r, members) && |r| <= |members|
    ensures IsBlank(query) ==> r == members
    ensures !IsBlank(query) ==> forall m :: m in r <==> m in members && MatchesMemberQuery(m, query)
    ensures !IsBlank(query) ==>
      forall m :: multiset(r)[m] == if MatchesMemberQuery(m, query) then multiset(members)[m] else 0
  {
    if IsBlank(query) then
      SubsequenceReflexive(members);
      members
    else
      FilterLength(members, MemberQuery(query));
      FilterCounts(members, MemberQuery(query));
      Filter(members, MemberQuery(query))
  }

  /**
   * Submitting the form: the schema is checked first (the form library only
   * calls `onSubmit` with valid values), then the signed-in user, then the
   * selected member; only then is the row inserted.
   */
  function SubmitFee(values: FeeForm, user: Option<User>, selected: Option<Member>, insertFails: bool): (r: SubmitOutcome)
    ensures r.Invalid? <==> FeeSchemaErrors(values) != {}
    ensures r == NotSignedIn <==> FeeSchemaErrors(values) == {} && user.None?
    ensures r == NoMemberSelected <==> FeeSchemaErrors(values) == {} && user.Some? && selected.None?
    ensures (r.Saved? || r.SaveFailed?) ==>
      && user.Some? && selected.Some? && values.paymentDate.Some? && values.dueDate.Some?
      && r.row == FeeInsert(selected.value.id, values.amount, values.paymentDate.value, values.dueDate.value,
                            values.status, user.value.id)
    ensures r.Saved? ==> !insertFails
  {
    var errors := FeeSchemaErrors(values);
    if errors != {} then Invalid(errors)
    else if user.None? then NotSignedIn
    else if selected.None? then NoMemberSelected
    else
      var row := FeeInsert(selected.value.id, values.amount, values.paymentDate.value, values.dueDate.value,
                           values.status, user.value.id);
      if insertFails then SaveFailed(row) else Saved(row)
  }

  /** The row's member is the selected one, whatever admission number the form holds. */
  lemma {:induction false} RowUsesSelectedMember(values: FeeForm, user: User, m: Member, other: string)
    requires FeeSchemaErrors(values) == {} && other != ""
    ensures SubmitFee(values, Some(user), Some(m), false).Saved?
    ensures SubmitFee(values, Some(user), Some(m), false).row.memberId == m.id
    ensures SubmitFee(values.(admissionNumber := other), Some(user), Some(m), false)
         == SubmitFee(values, Some(user), Some(m), false)
  {
  }

  /** Only a saved fee navigates back to the list. */
  function Navigation(o: SubmitOutcome): (r: Option<string>)
    ensures r.Some? <==> o.Saved?
    ensures r.Some? ==> r.value == "/fees"
  {
    if o.Saved? then Some("/fees") else None
  }

  class NewFeePageState {
    var members: seq<Member>
    var filteredMembers: seq<Member>
    var searchQuery: string
    var showMemberSearch: bool
    var selectedMember: Option<Member>
    var form: FeeForm
    var isLoading: bool

    ghost predicate Valid()
      reads this
    {
      filteredMembers == MemberSearch(members, searchQuery)
    }

    constructor (today: int, nextMonth: int)
      ensures Valid() && members == [] && searchQuery == "" && !showMemberSearch
      ensures selectedMember == None && form == DefaultForm(today, nextMonth) && !isLoading
    {
      members, filteredMembers, searchQuery := [], [], "";
      showMemberSearch, selectedMember := false, None;
      form := DefaultForm(today, nextMonth);
      isLoading := false;
    }

    /** `fetchMembers` and the search effect it triggers; a failure keeps the old list. */
    method FetchMembers(failed: bool, data: Option<seq<Member>>)
      requires Valid()
      modifies this`members, this`filteredMembers
      ensures Valid()
      ensures members == if failed then old(members) else if data.Some? then data.value else []
    {
      if !failed {
        members := if data.Some? then data.value else [];
        filteredMembers := MemberSearch(members, searchQuery);
      }
    }

    method SetSearchQuery(query: string)
      requires Valid()
      modifies this`searchQuery, this`filteredMembers
      ensures Valid() && searchQuery == query && members == old(members)
    {
      searchQuery := query;
      filteredMembers := MemberSearch(members, searchQuery);
    }

    method OpenMemberSearch()
      modifies this`showMemberSearch
      ensures showMemberSearch
    {
      showMemberSearch := true;
    }

    method CloseMemberSearch()
      modifies this`showMemberSearch
      ensures !showMemberSearch
    {
      showMemberSearch := false;
    }

    /** Picks a member: remembers it, copies its admission number into the form, closes the panel. */
    method SelectMember(m: Member)
      modifies this`selectedMember, this`form, this`showMemberSearch
      ensures selectedMember == Some(m)
      ensures form == old(form).(admissionNumber := m.admissionNumber)
      ensures !showMemberSearch
    {
      selectedMember := Some(m);
      form := form.(admissionNumber := m.admissionNumber);
      showMemberSearch := false;
    }

    method Submit(user: Option<User>, insertFails: bool) returns (outcome: SubmitOutcome, navigateTo: Option<string>)
      modifies this`isLoading
      ensures outcome == SubmitFee(form, user, selectedMember, insertFails)
      ensures navigateTo == Navigation(outcome)
      ensures isLoading == if outcome.Saved? || outcome.SaveFailed? then false else old(isLoading)
    {
      outcome := SubmitFee(form, user, selectedMember, insertFails);
      if outcome.Saved? || outcome.SaveFailed? {
        isLoading := true;
        isLoading := false;
      }
      navigateTo := Navigation(outcome);
    }
  }
}
