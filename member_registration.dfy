/**
 * Member registration (src/components/MemberRegistration.tsx): the member
 * schema, the admission number (the year followed by a three-digit random
 * number) and the submit that inserts the `members` row.
 *
 * The current year and the value of `Math.random()` are passed in.
 */
module MemberRegistrationPage {
  import opened Collections
  import opened Text
  import opened Auth

  datatype MemberForm = MemberForm(name: string, phone: string, address: string, gymPlan: string)

  datatype MemberField = NameField | PhoneField | AddressField | GymPlanField

  datatype MemberInsert = MemberInsert(
    admissionNumber: string, name: string, phone: string, address: string, gymPlan: string, createdBy: string)

  datatype SubmitOutcome =
    | Invalid(errors: set<MemberField>)
    | NotSignedIn
    | Saved(row: MemberInsert)
    | SaveFailed(row: MemberInsert)

  const DefaultMemberForm := MemberForm("", "", "", "Non-PT")

  /** The fields `memberSchema` rejects. */
  function MemberSchemaErrors(f: MemberForm): (errors: set<MemberField>)
    ensures errors == {} <==>
      |f.name| >= 2 && |f.phone| >= 10 && |f.address| >= 5 && (f.gymPlan == "PT" || f.gymPlan == "Non-PT")
    ensures GymPlanField !in errors <==> f.gymPlan == "PT" || f.gymPlan == "Non-PT"
  {
    (if |f.name| < 2 then {NameField} else {})
    + (if |f.phone| < 10 then {PhoneField} else {})
    + (if |f.address| < 5 then {AddressField} else {})
    + (if f.gymPlan != "PT" && f.gymPlan != "Non-PT" then {GymPlanField} else {})
  }

  /** The reset form is rejected for its text fields, never for its plan. */
  lemma DefaultFormRejectsTextFieldsOnly()
    ensures MemberSchemaErrors(DefaultMemberForm) == {NameField, PhoneField, AddressField}
  {
  }

  /** `Math.floor(100 + Math.random() * 900)` over the reals, for `0 <= random < 1`. */
  function RandomSuffix(random: real): (n: int)
    requires 0.0 <= random < 1.0
    ensures 100 <= n <= 999
  {
    (100.0 + random * 900.0).Floor
  }

  /**
   * `${year}${randomNum}`. The last three characters are the random number and
   * the rest is the year, each read back exactly.
   */
  function AdmissionNumber(year: nat, suffix: int): (s: string)
    requires 100 <= suffix <= 999
    ensures |s| == |NatToString(year)| + 3
    ensures forall i :: 0 <= i < |s| ==> IsDigit(s[i])
    ensures ParseDecimal(s[..|s| - 3]) == year
    ensures ParseDecimal(s[|s| - 3..]) == suffix
  {
    var y := NatToString(year);
    var n := NatToString(suffix);
    NatToStringLength(suffix, 2);
    ParseNatToString(year);
    ParseNatToString(suffix);
    assert (y + n)[..|y + n| - 3] == y;
    assert (y + n)[|y + n| - 3..] == n;
    y + n
  }

  /** A four-digit year gives a seven-character admission number. */
  lemma {:induction false} FourDigitYearGivesSevenCharacters(year: nat, random: real)
    requires 1000 <= year <= 9999 && 0.0 <= random < 1.0
    ensures |AdmissionNumber(year, RandomSuffix(random))| == 7
  {
    NatToStringLength(year, 3);
  }

  /**
   * Submitting the form: the schema first, then the signed-in user; the row
   * copies the form's fields and records who created it.
   */
  function SubmitMember(values: MemberForm, user: Option<User>, year: nat, random: real, insertFails: bool): (r: SubmitOutcome)
    requires 0.0 <= random < 1.0
    ensures r.Invalid? <==> MemberSchemaErrors(values) != {}
    ensures r == NotSignedIn <==> MemberSchemaErrors(values) == {} && user.None?
    ensures (r.Saved? || r.SaveFailed?) ==>
      && user.Some?
      && r.row == MemberInsert(AdmissionNumber(year, RandomSuffix(random)), values.name, values.phone,
                               values.address, values.gymPlan, user.value.id)
    ensures (r.Saved? || r.SaveFailed?) <==> MemberSchemaErrors(values) == {} && user.Some?
    ensures (r.Saved? || r.SaveFailed?) ==> (r.Saved? <==> !insertFails)
  {
    var errors := MemberSchemaErrors(values);
    if errors != {} then Invalid(errors)
    else if user.None? then NotSignedIn
    else
      var row := MemberInsert(AdmissionNumber(year, RandomSuffix(random)), values.name, values.phone,
                              values.address, values.gymPlan, user.value.id);
      if insertFails then SaveFailed(row) else Saved(row)
  }

  /** A saved row has a well-formed admission number and values the schema accepts. */
  lemma {:induction false} SavedRowIsWellFormed(values: MemberForm, user: Option<User>, year: nat, random: real)
    requires 0.0 <= random < 1.0
    requires SubmitMember(values, user, year, random, false).Saved?
    ensures var row := SubmitMember(values, user, year, random, false).row;
      |row.name| >= 2 && |row.phone| >= 10 && |row.address| >= 5 && (row.gymPlan == "PT" || row.gymPlan == "Non-PT")
      && 100 <= ParseDecimal(row.admissionNumber[|row.admissionNumber| - 3..]) <= 999
  {
  }

  class MemberRegistrationState {
    var form: MemberForm
    var isLoading: bool

    constructor ()
      ensures form == DefaultMemberForm && !isLoading
    {
      form, isLoading := DefaultMemberForm, false;
    }

    /** `onSubmit`: only a successful insert resets the form and navigates home. */
    method Submit(user: Option<User>, year: nat, random: real, insertFails: bool)
      returns (outcome: SubmitOutcome, navigateTo: Option<string>)
      requires 0.0 <= random < 1.0
      modifies this
      ensures outcome == SubmitMember(old(form), user, year, random, insertFails)
      ensures form == if outcome.Saved? then DefaultMemberForm else old(form)
      ensures navigateTo == if outcome.Saved? then Some("/") else None
      ensures isLoading == if outcome.Saved? || outcome.SaveFailed? then false else old(isLoading)
    {
      outcome := SubmitMember(form, user, year, random, insertFails);
      navigateTo := None;
      if outcome.Saved? || outcome.SaveFailed? {
        isLoading := true;
        if outcome.Saved? {
          form := DefaultMemberForm;
          navigateTo := Some("/");
        }
        isLoading := false;
      }
    }
  }
}
