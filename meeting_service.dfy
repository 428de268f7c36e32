/** MeetingService: video-consultation rooms over the "meetings" collection,
    one room per appointment, with the list of participants in the room.
    The clock (datetime.now(), as whole seconds) and the ObjectId of an
    inserted room are parameters. */
module MeetingService {
  import opened Wrappers
  import opened Strings
  import opened Collections
  import opened Store

  /** room_expiration_hours, in seconds. */
  const RoomExpiration: int := 24 * 60 * 60

  const RoomPrefix: string := "casemate_"

  function RoomIs(roomId: string): Meeting -> bool {
    (m: Meeting) => m.roomId == roomId
  }

  function ForAppointment(aid: string): Meeting -> bool {
    (m: Meeting) => m.appointmentId == aid
  }

  /** update_one({"room_id": room_id}, ...) with its modified flag. */
  function UpdateRoom(ms: seq<Meeting>, roomId: string, f: Meeting -> Meeting): (seq<Meeting>, bool) {
    UpdateOne(ms, RoomIs(roomId), f)
  }

  /** f keeps the room's id and its appointment. */
  ghost predicate KeepsIdentity(f: Meeting -> Meeting) {
    forall m :: f(m).roomId == m.roomId && f(m).appointmentId == m.appointmentId && f(m).createdAt == m.createdAt
  }

  // ---------------------------------------------------------------------------
  // create_meeting_room

  datatype RoomResult = RoomResult(roomId: string, meetingId: string, created: bool)

  /** f"casemate_{appointment_id}_{int(datetime.now().timestamp())}". */
  function RoomName(aid: string, timestamp: int): string {
    RoomPrefix + aid + "_" + IntToString(timestamp)
  }

  function NewRoom(aid: string, lawyerEmail: string, userEmail: string, scheduledTime: string, now: int, id: string): Meeting {
    Meeting(id, RoomName(aid, now), aid, lawyerEmail, userEmail, scheduledTime, now,
            false, [], None, None, None, None)
  }

  function CreateMeetingRoom(ms: seq<Meeting>, aid: string, lawyerEmail: string, userEmail: string,
                             scheduledTime: string, now: int, id: string): (seq<Meeting>, RoomResult) {
    match FindOne(ms, ForAppointment(aid))
    case Some(m) => (ms, RoomResult(m.roomId, m.id, false))
    case None =>
      var room := NewRoom(aid, lawyerEmail, userEmail, scheduledTime, now, id);
      (ms + [room], RoomResult(room.roomId, id, true))
  }

  method CreateMeetingRoomIn(db: Database, aid: string, lawyerEmail: string, userEmail: string,
                             scheduledTime: string, now: int, newId: string) returns (r: RoomResult)
    modifies db`meetings
    ensures (db.meetings, r) == CreateMeetingRoom(old(db.meetings), aid, lawyerEmail, userEmail, scheduledTime, now, newId)
  {
    var existing := FindOne(db.meetings, ForAppointment(aid));
    if existing.Some? {
      return RoomResult(existing.value.roomId, existing.value.id, false);
    }
    var roomId := RoomName(aid, now);
    var meeting := Meeting(newId, roomId, aid, lawyerEmail, userEmail, scheduledTime, now,
                           false, [], None, None, None, None);
    db.meetings := db.meetings + [meeting];
    return RoomResult(roomId, newId, true);
  }

  /** An appointment that has a room gets that room back with created=false
      and nothing is inserted; otherwise one inactive room without
      participants is added, named after the appointment and the time. */
  lemma CreateMeetingRoomSpec(ms: seq<Meeting>, aid: string, lawyerEmail: string, userEmail: string,
                              scheduledTime: string, now: int, id: string)
    ensures var (ms2, r) := CreateMeetingRoom(ms, aid, lawyerEmail, userEmail, scheduledTime, now, id);
            (r.created <==> forall m :: m in ms ==> m.appointmentId != aid) &&
            (!r.created ==> ms2 == ms && exists m :: m in ms && m.appointmentId == aid && m.roomId == r.roomId) &&
            (r.created ==>
               |ms2| == |ms| + 1 && ms2[..|ms|] == ms &&
               var room := ms2[|ms|];
               room.appointmentId == aid && room.roomId == r.roomId && room.id == r.meetingId &&
               !room.active && room.participants == [] && room.createdAt == now &&
               r.roomId == RoomPrefix + aid + "_" + IntToString(now))
  {
    var (ms2, r) := CreateMeetingRoom(ms, aid, lawyerEmail, userEmail, scheduledTime, now, id);
    if r.created {
      assert ms2[..|ms|] == ms;
    }
  }

  /** Rooms made for one appointment at different seconds get different
      names: the name determines the time it was made. */
  lemma RoomNameInjective(aid: string, t1: int, t2: int)
    ensures RoomName(aid, t1) == RoomName(aid, t2) ==> t1 == t2
  {
    var p := RoomPrefix + aid + "_";
    if RoomName(aid, t1) == RoomName(aid, t2) {
      assert IntToString(t1) == RoomName(aid, t1)[|p|..];
      assert IntToString(t2) == RoomName(aid, t2)[|p|..];
      IntStringRoundTrip(t1);
      IntStringRoundTrip(t2);
    }
  }

  /** No two rooms are for the same appointment. */
  ghost predicate OneRoomPerAppointment(ms: seq<Meeting>) {
    forall i, j :: 0 <= i < |ms| && 0 <= j < |ms| && i != j ==> ms[i].appointmentId != ms[j].appointmentId
  }

  lemma CreateKeepsOneRoom(ms: seq<Meeting>, aid: string, lawyerEmail: string, userEmail: string,
                           scheduledTime: string, now: int, id: string)
    requires OneRoomPerAppointment(ms)
    ensures OneRoomPerAppointment(CreateMeetingRoom(ms, aid, lawyerEmail, userEmail, scheduledTime, now, id).0)
  {
    var (ms2, r) := CreateMeetingRoom(ms, aid, lawyerEmail, userEmail, scheduledTime, now, id);
    CreateMeetingRoomSpec(ms, aid, lawyerEmail, userEmail, scheduledTime, now, id);
    if r.created {
      forall i, j | 0 <= i < |ms2| && 0 <= j < |ms2| && i != j
        ensures ms2[i].appointmentId != ms2[j].appointmentId
      {
        if i < |ms| && j < |ms| {
          assert ms2[i] == ms[i] && ms2[j] == ms[j];
        } else if i < |ms| {
          assert ms2[i] == ms[i] && ms[i] in ms;
        } else {
          assert ms2[j] == ms[j] && ms[j] in ms;
        }
      }
    }
  }

  /** Updating a room without touching its identity keeps one room per appointment. */
  lemma UpdateKeepsOneRoom(ms: seq<Meeting>, roomId: string, f: Meeting -> Meeting)
    requires OneRoomPerAppointment(ms) && KeepsIdentity(f)
    ensures OneRoomPerAppointment(UpdateRoom(ms, roomId, f).0)
  {
  }

  /** Joining, leaving and closing a room keep one room per appointment. */
  lemma RoomUpdatesKeepOneRoom(ms: seq<Meeting>, roomId: string, p: Participant, email: string,
                               durationMinutes: int, notes: string, now: int)
    requires OneRoomPerAppointment(ms)
    ensures OneRoomPerAppointment(UpdateRoom(ms, roomId, Join(p, now)).0)
    ensures OneRoomPerAppointment(UpdateRoom(ms, roomId, Leave(email, now)).0)
    ensures OneRoomPerAppointment(UpdateRoom(ms, roomId, Close(durationMinutes, notes, now)).0)
  {
    UpdateKeepsOneRoom(ms, roomId, Join(p, now));
    UpdateKeepsOneRoom(ms, roomId, Leave(email, now));
    UpdateKeepsOneRoom(ms, roomId, Close(durationMinutes, notes, now));
  }

  // ---------------------------------------------------------------------------
  // add_participant

  /** $addToSet of the participant and $set active=True, started_at=now. */
  function Join(p: Participant, now: int): Meeting -> Meeting {
    (m: Meeting) =>
      m.(participants := if p in m.participants then m.participants else m.participants + [p],
         active := true, startedAt := Some(now))
  }

  function AddParticipant(ms: seq<Meeting>, roomId: string, email: string, name: string, kind: string, now: int)
    : (seq<Meeting>, bool)
  {
    UpdateRoom(ms, roomId, Join(Participant(email, name, kind, now), now))
  }

  method AddParticipantIn(db: Database, roomId: string, email: string, name: string, kind: string, now: int)
    returns (modified: bool)
    modifies db`meetings
    ensures (db.meetings, modified) == AddParticipant(old(db.meetings), roomId, email, name, kind, now)
  {
    var r := UpdateRoom(db.meetings, roomId, Join(Participant(email, name, kind, now), now));
    db.meetings := r.0;
    modified := r.1;
  }

  /** An unknown room is left alone and the answer is false. In the room,
      the participant record is there afterwards, added at the end unless an
      identical record (same email, name, type and join time) already was,
      and the room is active and started now. Since the join time is part
      of the record, joining again later adds a second entry for the email. */
  lemma AddParticipantSpec(ms: seq<Meeting>, roomId: string, email: string, name: string, kind: string, now: int)
    ensures var (ms2, modified) := AddParticipant(ms, roomId, email, name, kind, now);
            var p := Participant(email, name, kind, now);
            (FindFirst(ms, RoomIs(roomId)).None? ==> ms2 == ms && !modified) &&
            (FindFirst(ms, RoomIs(roomId)).Some? ==>
               var i := FindFirst(ms, RoomIs(roomId)).value;
               |ms2| == |ms| &&
               (forall j :: 0 <= j < |ms| && j != i ==> ms2[j] == ms[j]) &&
               ms2[i].active && ms2[i].startedAt == Some(now) && p in ms2[i].participants &&
               (p !in ms[i].participants ==> ms2[i].participants == ms[i].participants + [p]) &&
               (p in ms[i].participants ==> ms2[i].participants == ms[i].participants) &&
               ms2[i].roomId == roomId &&
               (modified <==> p !in ms[i].participants || !ms[i].active || ms[i].startedAt != Some(now)))
  {
  }

  // ---------------------------------------------------------------------------
  // remove_participant

  function OtherThan(email: string): Participant -> bool {
    (p: Participant) => p.email != email
  }

  /** The $set of remove_participant: the other participants, active iff any
      remain, and ended_at now only when none does. */
  function Leave(email: string, now: int): Meeting -> Meeting {
    (m: Meeting) =>
      var remaining := Filter(m.participants, OtherThan(email));
      m.(participants := remaining, active := |remaining| > 0,
         endedAt := if |remaining| > 0 then None else Some(now))
  }

  function RemoveParticipant(ms: seq<Meeting>, roomId: string, email: string, now: int): (seq<Meeting>, bool) {
    UpdateRoom(ms, roomId, Leave(email, now))
  }

  method RemoveParticipantIn(db: Database, roomId: string, email: string, now: int) returns (modified: bool)
    modifies db`meetings
    ensures (db.meetings, modified) == RemoveParticipant(old(db.meetings), roomId, email, now)
  {
    var meeting := FindOne(db.meetings, RoomIs(roomId));
    if meeting.None? {
      return false;
    }
    var r := UpdateRoom(db.meetings, roomId, Leave(email, now));
    db.meetings := r.0;
    modified := r.1;
  }

  /** An unknown room gives false. In the room every entry with the email is
      dropped and the others keep their order; the room is active exactly
      when someone remains, and has an end time exactly when it is not. */
  lemma RemoveParticipantSpec(ms: seq<Meeting>, roomId: string, email: string, now: int)
    ensures var (ms2, modified) := RemoveParticipant(ms, roomId, email, now);
            (FindFirst(ms, RoomIs(roomId)).None? ==> ms2 == ms && !modified) &&
            (FindFirst(ms, RoomIs(roomId)).Some? ==>
               var i := FindFirst(ms, RoomIs(roomId)).value;
               var after := ms2[i].participants;
               |ms2| == |ms| &&
               (forall j :: 0 <= j < |ms| && j != i ==> ms2[j] == ms[j]) &&
               after == Filter(ms[i].participants, OtherThan(email)) &&
               (forall p :: p in after <==> p in ms[i].participants && p.email != email) &&
               (ms2[i].active <==> after != []) &&
               (ms2[i].endedAt.Some? <==> !ms2[i].active) &&
               (!ms2[i].active ==> ms2[i].endedAt == Some(now)))
  {
    if FindFirst(ms, RoomIs(roomId)).Some? {
      var i := FindFirst(ms, RoomIs(roomId)).value;
      forall p
        ensures p in Filter(ms[i].participants, OtherThan(email)) <==> p in ms[i].participants && p.email != email
      {
        FilterMembership(ms[i].participants, OtherThan(email), p);
      }
    }
  }

  /** A participant who joined and leaves an otherwise empty room leaves it
      inactive, with an end time. */
  lemma JoinThenLeaveAlone(m: Meeting, email: string, name: string, kind: string, t1: int, t2: int)
    requires forall p :: p in m.participants ==> p.email == email
    ensures var m2 := Leave(email, t2)(Join(Participant(email, name, kind, t1), t1)(m));
            m2.participants == [] && !m2.active && m2.endedAt == Some(t2)
  {
    var m1 := Join(Participant(email, name, kind, t1), t1)(m);
    FilterEmpty(m1.participants, OtherThan(email));
  }

  // ---------------------------------------------------------------------------
  // get_meeting_status, check_room_has_participants

  datatype Status = Status(roomId: string, active: bool, participantsCount: int,
                           participants: seq<Participant>, startedAt: Option<int>)

  function GetMeetingStatus(ms: seq<Meeting>, roomId: string): (r: Option<Status>)
    ensures r.None? <==> forall m :: m in ms ==> m.roomId != roomId
    ensures r.Some? ==> r.value.roomId == roomId && r.value.participantsCount == |r.value.participants|
    ensures r.Some? ==> exists m :: m in ms && m.roomId == roomId && r.value.participants == m.participants &&
                                   r.value.active == m.active && r.value.startedAt == m.startedAt
  {
    match FindOne(ms, RoomIs(roomId))
    case None => None
    case Some(m) => Some(Status(m.roomId, m.active, |m.participants|, m.participants, m.startedAt))
  }

  function CheckRoomHasParticipants(ms: seq<Meeting>, roomId: string): (r: bool)
    ensures (forall m :: m in ms ==> m.roomId != roomId) ==> !r
    ensures r <==> GetMeetingStatus(ms, roomId).Some? && GetMeetingStatus(ms, roomId).value.participantsCount > 0
  {
    match FindOne(ms, RoomIs(roomId))
    case None => false
    case Some(m) => |m.participants| > 0
  }

  /** After a leave, the room has participants exactly when it is active. */
  lemma LeaveMatchesCheck(ms: seq<Meeting>, roomId: string, email: string, now: int)
    requires FindFirst(ms, RoomIs(roomId)).Some?
    ensures var ms2 := RemoveParticipant(ms, roomId, email, now).0;
            GetMeetingStatus(ms2, roomId).Some? &&
            (CheckRoomHasParticipants(ms2, roomId) <==> GetMeetingStatus(ms2, roomId).value.active)
  {
    var i := FindFirst(ms, RoomIs(roomId)).value;
    var ms2 := RemoveParticipant(ms, roomId, email, now).0;
    assert ms2 == ms[i := Leave(email, now)(ms[i])];
    assert FindFirst(ms2, RoomIs(roomId)) == Some(i) by {
      FindFirstAt(ms2, RoomIs(roomId), i);
    }
  }

  // ---------------------------------------------------------------------------
  // save_meeting_record, cleanup_expired_meetings

  function Close(durationMinutes: int, notes: string, now: int): Meeting -> Meeting {
    (m: Meeting) => m.(endedAt := Some(now), active := false, durationMinutes := Some(durationMinutes), notes := Some(notes))
  }

  function SaveMeetingRecord(ms: seq<Meeting>, roomId: string, durationMinutes: int, notes: string, now: int)
    : (seq<Meeting>, bool)
  {
    UpdateRoom(ms, roomId, Close(durationMinutes, notes, now))
  }

  method SaveMeetingRecordIn(db: Database, roomId: string, durationMinutes: int, notes: string, now: int)
    returns (modified: bool)
    modifies db`meetings
    ensures (db.meetings, modified) == SaveMeetingRecord(old(db.meetings), roomId, durationMinutes, notes, now)
  {
    var r := UpdateRoom(db.meetings, roomId, Close(durationMinutes, notes, now));
    db.meetings := r.0;
    modified := r.1;
  }

  /** The room is closed: inactive, ended now, with the duration and notes;
      its participants are kept. */
  lemma SaveMeetingRecordSpec(ms: seq<Meeting>, roomId: string, durationMinutes: int, notes: string, now: int)
    ensures var (ms2, modified) := SaveMeetingRecord(ms, roomId, durationMinutes, notes, now);
            (FindFirst(ms, RoomIs(roomId)).None? ==> ms2 == ms && !modified) &&
            (FindFirst(ms, RoomIs(roomId)).Some? ==>
               var i := FindFirst(ms, RoomIs(roomId)).value;
               |ms2| == |ms| && (forall j :: 0 <= j < |ms| && j != i ==> ms2[j] == ms[j]) &&
               !ms2[i].active && ms2[i].endedAt == Some(now) &&
               ms2[i].durationMinutes == Some(durationMinutes) && ms2[i].notes == Some(notes) &&
               ms2[i].participants == ms[i].participants)
  {
  }

  function CreatedBefore(cutoff: int): Meeting -> bool {
    (m: Meeting) => m.createdAt < cutoff
  }

  /** delete_many({"created_at": {"$lt": now - 24h}}): the rooms left and the
      deleted count. */
  function CleanupExpiredMeetings(ms: seq<Meeting>, now: int): (seq<Meeting>, int) {
    var kept := DeleteWhere(ms, CreatedBefore(now - RoomExpiration));
    (kept, |ms| - |kept|)
  }

  method CleanupExpiredMeetingsIn(db: Database, now: int) returns (deleted: int)
    modifies db`meetings
    ensures (db.meetings, deleted) == CleanupExpiredMeetings(old(db.meetings), now)
  {
    var before := |db.meetings|;
    db.meetings := DeleteWhere(db.meetings, CreatedBefore(now - RoomExpiration));
    deleted := before - |db.meetings|;
  }

  /** Exactly the rooms created more than 24 hours ago are deleted, the count
      is the number of them, and the rest keep their order. */
  lemma CleanupSpec(ms: seq<Meeting>, now: int)
    ensures var (kept, deleted) := CleanupExpiredMeetings(ms, now);
            kept == Filter(ms, Not(CreatedBefore(now - RoomExpiration))) &&
            (forall m :: m in kept <==> m in ms && m.createdAt >= now - RoomExpiration) &&
            deleted == |Filter(ms, CreatedBefore(now - RoomExpiration))| &&
            deleted >= 0
  {
    var p := CreatedBefore(now - RoomExpiration);
    forall m
      ensures m in DeleteWhere(ms, p) <==> m in ms && m.createdAt >= now - RoomExpiration
    {
      DeleteWhereMembership(ms, p, m);
    }
    FilterPartition(ms, p);
  }

  /** Cleanup keeps one room per appointment. */
  lemma CleanupKeepsOneRoom(ms: seq<Meeting>, now: int)
    requires OneRoomPerAppointment(ms)
    ensures OneRoomPerAppointment(CleanupExpiredMeetings(ms, now).0)
  {
    var p := Not(CreatedBefore(now - RoomExpiration));
    var kept := Filter(ms, p);
    forall i, j | 0 <= i < |kept| && 0 <= j < |kept| && i != j
      ensures kept[i].appointmentId != kept[j].appointmentId
    {
      SubsequenceOfFilter(ms, p, i, j);
    }
  }
}
