/** AppointmentService and CaseService: booking an appointment together with
    its case, and the status updates and lookups over the "appointments" and
    "cases" collections. The two uuid4() ids, the ObjectIds MongoDB gives the
    two documents, the clock and whether each insert succeeds are
    parameters. */
module AppointmentService {
  import opened Wrappers
  import opened Collections
  import opened Store

  const DefaultConsultationType: string := "video"
  const Ongoing: string := "ongoing"

  /** The appointment_data dict; `consultationType` None is a missing key. */
  datatype AppointmentData = AppointmentData(
    lawyerEmail: string,
    userEmail: string,
    date: string,
    startTime: string,
    endTime: string,
    caseType: string,
    description: string,
    consultationType: Option<string>)

  datatype Booking = Booking(appointmentId: string, caseId: string)

  datatype BookingTables = BookingTables(appointments: seq<Appointment>, cases: seq<Case>)

  function TablesOf(db: Database): BookingTables
    reads db`appointments, db`cases
  {
    BookingTables(db.appointments, db.cases)
  }

  /** _insert_document: True and the document stored when insert_one
      succeeds; False, and nothing stored, when it raises. */
  function InsertDocument<T>(s: seq<T>, doc: T, succeeds: bool): (r: (seq<T>, bool))
    ensures r.1 == succeeds
    ensures r.0 == if succeeds then s + [doc] else s
  {
    if succeeds then (s + [doc], true) else (s, false)
  }

  function NewAppointment(data: AppointmentData, aid: string, now: int, oid: string): Appointment {
    Appointment(oid, aid, data.lawyerEmail, data.userEmail, data.date, data.startTime, data.endTime,
                false, data.caseType, data.description,
                data.consultationType.GetOr(DefaultConsultationType), now)
  }

  function NewCase(data: AppointmentData, aid: string, caseId: string, now: int, oid: string): Case {
    Case(oid, caseId, aid, now, data.lawyerEmail, data.userEmail, Ongoing, now, data.caseType, data.description)
  }

  /** create_appointment: both documents are inserted, and the call fails
      unless both inserts succeeded. */
  function CreateAppointment(t: BookingTables, data: AppointmentData, aid: string, caseId: string, now: int,
                             appointmentOid: string, caseOid: string, appointmentStored: bool, caseStored: bool)
    : (BookingTables, Result<Booking, Failure>)
  {
    var (appointments, okAppointment) := InsertDocument(t.appointments, NewAppointment(data, aid, now, appointmentOid), appointmentStored);
    var (cases, okCase) := InsertDocument(t.cases, NewCase(data, aid, caseId, now, caseOid), caseStored);
    (BookingTables(appointments, cases), if okAppointment && okCase then Ok(Booking(aid, caseId)) else Err(Unhandled))
  }

  method CreateAppointmentIn(db: Database, data: AppointmentData, aid: string, caseId: string, now: int,
                             appointmentOid: string, caseOid: string, appointmentStored: bool, caseStored: bool)
    returns (r: Result<Booking, Failure>)
    modifies db`appointments, db`cases
    ensures (TablesOf(db), r) ==
            CreateAppointment(old(TablesOf(db)), data, aid, caseId, now, appointmentOid, caseOid, appointmentStored, caseStored)
  {
    var appointment := NewAppointment(data, aid, now, appointmentOid);
    var caseDoc := NewCase(data, aid, caseId, now, caseOid);
    var resultAppointment := InsertDocument(db.appointments, appointment, appointmentStored);
    db.appointments := resultAppointment.0;
    var resultCase := InsertDocument(db.cases, caseDoc, caseStored);
    db.cases := resultCase.0;
    if resultAppointment.1 && resultCase.1 {
      r := Ok(Booking(aid, caseId));
    } else {
      r := Err(Unhandled);
    }
  }

  /** The new appointment is unfinished and a video consultation unless the
      data says otherwise; its case is ongoing and shares the appointment's
      id, emails, case type and description. Success needs both inserts; a
      failed case insert does not take the appointment back out. */
  lemma CreateAppointmentSpec(t: BookingTables, data: AppointmentData, aid: string, caseId: string, now: int,
                              appointmentOid: string, caseOid: string, appointmentStored: bool, caseStored: bool)
    ensures var (t2, r) := CreateAppointment(t, data, aid, caseId, now, appointmentOid, caseOid, appointmentStored, caseStored);
            var a := NewAppointment(data, aid, now, appointmentOid);
            var c := NewCase(data, aid, caseId, now, caseOid);
            (r.Ok? <==> appointmentStored && caseStored) &&
            (r.Ok? ==> r.value == Booking(aid, caseId)) &&
            (r.Err? ==> r.error == Unhandled) &&
            t2.appointments == (if appointmentStored then t.appointments + [a] else t.appointments) &&
            t2.cases == (if caseStored then t.cases + [c] else t.cases) &&
            !a.isFinished && a.appointmentId == aid &&
            a.consultationType == (if data.consultationType.Some? then data.consultationType.value else "video") &&
            c.status == "ongoing" && c.caseId == caseId && c.appointmentId == a.appointmentId &&
            c.lawyerEmail == a.lawyerEmail && c.userEmail == a.userEmail &&
            c.caseType == a.caseType && c.description == a.description
  {
  }

  // ---------------------------------------------------------------------------
  // Lookups

  function AppointmentIs(aid: string): Appointment -> bool {
    (a: Appointment) => a.appointmentId == aid
  }

  /** get_appointment: None when no appointment has the id. */
  function GetAppointment(appointments: seq<Appointment>, aid: string): (r: Option<Appointment>)
    ensures r.None? <==> forall a :: a in appointments ==> a.appointmentId != aid
    ensures r.Some? ==> r.value in appointments && r.value.appointmentId == aid
  {
    FindOne(appointments, AppointmentIs(aid))
  }

  function OfUser(email: string): Appointment -> bool {
    (a: Appointment) => a.userEmail == email
  }

  function OfLawyer(email: string): Appointment -> bool {
    (a: Appointment) => a.lawyerEmail == email
  }

  /** get_appointments_by_user: that client's appointments in natural order. */
  function AppointmentsByUser(appointments: seq<Appointment>, email: string): seq<Appointment> {
    Filter(appointments, OfUser(email))
  }

  /** get_appointments_by_lawyer. */
  function AppointmentsByLawyer(appointments: seq<Appointment>, email: string): seq<Appointment> {
    Filter(appointments, OfLawyer(email))
  }

  lemma AppointmentsByEmailSpec(appointments: seq<Appointment>, email: string)
    ensures forall a :: a in AppointmentsByUser(appointments, email) <==> a in appointments && a.userEmail == email
    ensures forall a :: a in AppointmentsByLawyer(appointments, email) <==> a in appointments && a.lawyerEmail == email
  {
    forall a
      ensures a in AppointmentsByUser(appointments, email) <==> a in appointments && a.userEmail == email
      ensures a in AppointmentsByLawyer(appointments, email) <==> a in appointments && a.lawyerEmail == email
    {
      FilterMembership(appointments, OfUser(email), a);
      FilterMembership(appointments, OfLawyer(email), a);
    }
  }

  function CaseIs(caseId: string): Case -> bool {
    (c: Case) => c.caseId == caseId
  }

  /** get_case. */
  function GetCase(cases: seq<Case>, caseId: string): (r: Option<Case>)
    ensures r.None? <==> forall c :: c in cases ==> c.caseId != caseId
    ensures r.Some? ==> r.value in cases && r.value.caseId == caseId
  {
    FindOne(cases, CaseIs(caseId))
  }

  // ---------------------------------------------------------------------------
  // Status updates

  function SetFinished(isFinished: bool): Appointment -> Appointment {
    (a: Appointment) => a.(isFinished := isFinished)
  }

  /** update_appointment_status: whether the document was modified. */
  function UpdateAppointmentStatus(appointments: seq<Appointment>, aid: string, isFinished: bool): (seq<Appointment>, bool) {
    UpdateOne(appointments, AppointmentIs(aid), SetFinished(isFinished))
  }

  method UpdateAppointmentStatusIn(db: Database, aid: string, isFinished: bool) returns (success: bool)
    modifies db`appointments
    ensures (db.appointments, success) == UpdateAppointmentStatus(old(db.appointments), aid, isFinished)
  {
    var r := UpdateOne(db.appointments, AppointmentIs(aid), SetFinished(isFinished));
    db.appointments := r.0;
    success := r.1;
  }

  /** The first appointment with the id gets the flag and nothing else
      changes; the answer is true exactly when that appointment exists and
      its flag was different, so an unknown id and a repeated call give
      false. */
  lemma UpdateAppointmentStatusSpec(appointments: seq<Appointment>, aid: string, isFinished: bool)
    ensures var (s, success) := UpdateAppointmentStatus(appointments, aid, isFinished);
            var first := FindFirst(appointments, AppointmentIs(aid));
            |s| == |appointments| &&
            (success <==> first.Some? && appointments[first.value].isFinished != isFinished) &&
            (first.None? ==> s == appointments) &&
            (first.Some? ==> s == appointments[first.value := appointments[first.value].(isFinished := isFinished)]) &&
            !UpdateAppointmentStatus(s, aid, isFinished).1
  {
    var first := FindFirst(appointments, AppointmentIs(aid));
    if first.Some? {
      var i := first.value;
      var s := UpdateAppointmentStatus(appointments, aid, isFinished).0;
      var a := appointments[i];
      if a.isFinished == isFinished {
        assert a.(isFinished := isFinished) == a;
      } else {
        assert a.(isFinished := isFinished) != a;
      }
      FindFirstAt(s, AppointmentIs(aid), i);
      assert s[i].(isFinished := isFinished) == s[i];
    }
  }

  function SetCaseStatus(status: string, now: int): Case -> Case {
    (c: Case) => c.(status := status, lastUpdated := now)
  }

  /** CaseService.update_case_status: status and last_updated are set. */
  function UpdateCaseStatus(cases: seq<Case>, caseId: string, status: string, now: int): (seq<Case>, bool) {
    UpdateOne(cases, CaseIs(caseId), SetCaseStatus(status, now))
  }

  method UpdateCaseStatusIn(db: Database, caseId: string, status: string, now: int) returns (success: bool)
    modifies db`cases
    ensures (db.cases, success) == UpdateCaseStatus(old(db.cases), caseId, status, now)
  {
    var r := UpdateOne(db.cases, CaseIs(caseId), SetCaseStatus(status, now));
    db.cases := r.0;
    success := r.1;
  }

  /** The first case with the id gets the status and the time; the answer is
      false for an unknown case and otherwise true unless both were already
      those values. */
  lemma UpdateCaseStatusSpec(cases: seq<Case>, caseId: string, status: string, now: int)
    ensures var (s, success) := UpdateCaseStatus(cases, caseId, status, now);
            var first := FindFirst(cases, CaseIs(caseId));
            |s| == |cases| &&
            (first.None? ==> s == cases && !success) &&
            (first.Some? ==>
               s[first.value].status == status && s[first.value].lastUpdated == now &&
               s[first.value].caseId == caseId &&
               (forall j :: 0 <= j < |cases| && j != first.value ==> s[j] == cases[j]) &&
               (success <==> cases[first.value].status != status || cases[first.value].lastUpdated != now))
  {
    var first := FindFirst(cases, CaseIs(caseId));
    if first.Some? {
      var c := cases[first.value];
      if c.status == status && c.lastUpdated == now {
        assert c.(status := status, lastUpdated := now) == c;
      }
    }
  }
}
