/**
 * A fee record and its card (src/components/fees/FeeCard.tsx): the
 * Paid / Overdue / Due badge, its colour, and the red due date, all derived from
 * the record's status and its due date compared with the current time.
 *
 * Dates are instants in milliseconds; `now` is the time the card is drawn.
 */
module FeeCard {

  datatype MemberSummary = MemberSummary(name: string, admissionNumber: string, phone: string)

  /**
   * A row of the `fees` query joined with its member. `status` is the column's
   * string; the source declares it 'Paid' | 'Due' but only casts the query
   * result to that type.
   */
  datatype FeeRecord = FeeRecord(
    id: string, memberId: string, amountPaid: real, paymentDate: int, dueDate: int,
    status: string, member: MemberSummary)

  const PaidStatus := "Paid"
  const DueStatus := "Due"

  /** The statuses the `FeeRecord` type admits. */
  predicate HasDeclaredStatus(r: FeeRecord)
  {
    r.status == PaidStatus || r.status == DueStatus
  }

  /** `new Date(record.due_date) < new Date() && record.status === 'Due'` */
  predicate IsPastDue(r: FeeRecord, now: int): (b: bool)
    ensures b ==> HasDeclaredStatus(r) && r.status != PaidStatus
  {
    r.dueDate < now && r.status == DueStatus
  }

  datatype Badge = PaidBadge | OverdueBadge | DueBadge

  datatype Colour = Green | Red | Amber | Plain

  /** The badge text, chosen by the nested conditional in the badge body. */
  function BadgeLabel(r: FeeRecord, now: int): (b: Badge)
    ensures b == PaidBadge <==> r.status == PaidStatus
    ensures b == OverdueBadge <==> IsPastDue(r, now)
    ensures b == DueBadge <==> r.status != PaidStatus && !IsPastDue(r, now)
  {
    if r.status == PaidStatus then PaidBadge
    else if IsPastDue(r, now) then OverdueBadge
    else DueBadge
  }

  /** The badge background, chosen by a second, separate conditional in its class name. */
  function BadgeColour(r: FeeRecord, now: int): (c: Colour)
    ensures c != Plain
    ensures c == Green <==> r.status == PaidStatus
    ensures c == Red <==> IsPastDue(r, now)
  {
    if r.status == PaidStatus then Green
    else if IsPastDue(r, now) then Red
    else Amber
  }

  /** The colour of the due date text. */
  function DueDateColour(r: FeeRecord, now: int): (c: Colour)
    ensures c == Red <==> IsPastDue(r, now)
    ensures c == Red || c == Plain
  {
    if IsPastDue(r, now) then Red else Plain
  }

  function ColourOf(b: Badge): Colour
  {
    match b
    case PaidBadge => Green
    case OverdueBadge => Red
    case DueBadge => Amber
  }

  /** The two conditionals agree: Paid is green, Overdue red, Due amber. */
  lemma {:induction false} BadgeColourMatchesLabel(r: FeeRecord, now: int)
    ensures BadgeColour(r, now) == ColourOf(BadgeLabel(r, now))
  {
  }

  /** A paid record shows "Paid" in green whatever its due date. */
  lemma PaidIgnoresDueDate(r: FeeRecord, now: int, later: int)
    requires r.status == PaidStatus
    ensures BadgeLabel(r, now) == BadgeLabel(r.(dueDate := later), now) == PaidBadge
    ensures BadgeColour(r, now) == Green
  {
  }

  /** A record due exactly now is still "Due", not "Overdue": the comparison is strict. */
  lemma DueOnTheDeadlineIsNotOverdue(r: FeeRecord, now: int)
    requires r.status == DueStatus && r.dueDate == now
    ensures BadgeLabel(r, now) == DueBadge
    ensures DueDateColour(r, now) == Plain
  {
  }

  /** Once a record reads "Overdue" it keeps doing so as time goes on. */
  lemma OverdueStaysOverdue(r: FeeRecord, now: int, later: int)
    requires BadgeLabel(r, now) == OverdueBadge && now <= later
    ensures BadgeLabel(r, later) == OverdueBadge
  {
  }

  /** A status outside the declared two falls through to the "Due" / "Overdue" branch and is never overdue. */
  lemma UndeclaredStatusShowsDue(r: FeeRecord, now: int)
    requires !HasDeclaredStatus(r)
    ensures BadgeLabel(r, now) == DueBadge
  {
  }
}
