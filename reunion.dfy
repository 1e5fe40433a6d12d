/** The reunion RSVP page: the submit handler and the three attendance
    counters. */
module Reunion {
  import opened Common

  datatype AttendanceStatus = Attending | NotAttending | Maybe

  datatype Attendee = Attendee(
    id: string, name: string, email: string, status: AttendanceStatus, message: string, submittedAt: string)

  datatype Form = Form(name: string, email: string, status: AttendanceStatus, message: string)

  const EmptyForm := Form("", "", Attending, "")

  /** Which of the two alerts the handler shows. */
  datatype Alert = NameAndEmailRequired | ThankYou

  datatype Submitted = Submitted(attendees: seq<Attendee>, form: Form, alert: Alert)

  /** handleSubmit. `id` and `submittedAt` stand for `Date.now()` and the
      ISO clock text of the moment of submission. */
  function HandleSubmit(attendees: seq<Attendee>, form: Form, id: string, submittedAt: string): (r: Submitted)
    ensures form.name == "" || form.email == "" ==>
      r == Submitted(attendees, form, NameAndEmailRequired)
    ensures form.name != "" && form.email != "" ==>
      && r.alert == ThankYou
      && |r.attendees| == |attendees| + 1
      && r.attendees[..|attendees|] == attendees
      && r.attendees[|attendees|] == Attendee(id, form.name, form.email, form.status, form.message, submittedAt)
      && r.form == EmptyForm
  {
    if form.name == "" || form.email == "" then
      Submitted(attendees, form, NameAndEmailRequired)
    else
      var newAttendee := Attendee(id, form.name, form.email, form.status, form.message, submittedAt);
      Submitted(attendees + [newAttendee], EmptyForm, ThankYou)
  }

  predicate IsAttending(a: Attendee) { a.status == Attending }
  predicate IsNotAttending(a: Attendee) { a.status == NotAttending }
  predicate IsMaybe(a: Attendee) { a.status == Maybe }

  datatype Counts = Counts(attending: nat, notAttending: nat, maybe: nat)

  /** The three counters; every answer has one of the three statuses, so
      they add up to the number of answers. */
  function AttendanceCounts(attendees: seq<Attendee>): (r: Counts)
    ensures r.attending + r.notAttending + r.maybe == |attendees|
  {
    CountPartition3(attendees, IsAttending, IsNotAttending, IsMaybe);
    Counts(Count(attendees, IsAttending), Count(attendees, IsNotAttending), Count(attendees, IsMaybe))
  }

  /** A successful submit raises exactly the counter of the submitted
      status by one; a refused one changes no counter. */
  lemma {:induction false} SubmitCounts(attendees: seq<Attendee>, form: Form, id: string, submittedAt: string)
    ensures var before := AttendanceCounts(attendees);
      var after := AttendanceCounts(HandleSubmit(attendees, form, id, submittedAt).attendees);
      (form.name == "" || form.email == "" ==> after == before)
      && (form.name != "" && form.email != "" ==>
        after == Counts(
          before.attending + (if form.status == Attending then 1 else 0),
          before.notAttending + (if form.status == NotAttending then 1 else 0),
          before.maybe + (if form.status == Maybe then 1 else 0)))
  {
    if form.name != "" && form.email != "" {
      var a := Attendee(id, form.name, form.email, form.status, form.message, submittedAt);
      assert HandleSubmit(attendees, form, id, submittedAt).attendees == attendees + [a];
      CountAppend(attendees, [a], IsAttending);
      CountAppend(attendees, [a], IsNotAttending);
      CountAppend(attendees, [a], IsMaybe);
    }
  }

  /** Earlier answers are never altered by later submissions. */
  lemma {:induction false} SubmitKeepsEarlierAnswers(attendees: seq<Attendee>, form: Form, id: string, submittedAt: string)
    ensures forall a :: a in attendees ==> a in HandleSubmit(attendees, form, id, submittedAt).attendees
  {
    var r := HandleSubmit(attendees, form, id, submittedAt).attendees;
    forall a | a in attendees ensures a in r {
      var k :| 0 <= k < |attendees| && attendees[k] == a;
      assert r[k] == a;
    }
  }
}
