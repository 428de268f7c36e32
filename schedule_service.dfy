/** ScheduleService: a lawyer's weekly availability in "lawyer_schedules",
    read by email and replaced or created by an upsert. The ObjectId of a
    newly inserted schedule is a parameter. */
module ScheduleService {
  import opened Wrappers
  import opened Collections
  import opened Values
  import opened Store

  function ScheduleOf(email: string): Schedule -> bool {
    (s: Schedule) => s.email == email
  }

  /** get_schedule: find_one({"email": email}). */
  function GetSchedule(schedules: seq<Schedule>, email: string): (r: Option<Schedule>)
    ensures r.None? <==> forall s :: s in schedules ==> s.email != email
    ensures r.Some? ==> r.value in schedules && r.value.email == email
  {
    FindOne(schedules, ScheduleOf(email))
  }

  /** payload.get("weekly_schedule", []). */
  function WeeklyOf(payload: Document): Value {
    if "weekly_schedule" in payload then payload["weekly_schedule"] else List([])
  }

  function SetWeekly(weekly: Value): Schedule -> Schedule {
    (s: Schedule) => s.(weeklySchedule := weekly)
  }

  /** upsert_schedule: the schedules afterwards, and what the final
      find_one returns. */
  function UpsertSchedule(schedules: seq<Schedule>, email: string, payload: Document, id: string)
    : (seq<Schedule>, Option<Schedule>)
  {
    var weekly := WeeklyOf(payload);
    var after :=
      if GetSchedule(schedules, email).Some? then UpdateFirst(schedules, ScheduleOf(email), SetWeekly(weekly))
      else schedules + [Schedule(id, email, weekly, map[])];
    (after, GetSchedule(after, email))
  }

  method UpsertScheduleIn(db: Database, email: string, payload: Document, newId: string)
    returns (r: Option<Schedule>)
    modifies db`schedules
    ensures (db.schedules, r) == UpsertSchedule(old(db.schedules), email, payload, newId)
  {
    var existing := GetSchedule(db.schedules, email);
    if existing.Some? {
      db.schedules := UpdateFirst(db.schedules, ScheduleOf(email), SetWeekly(WeeklyOf(payload)));
    } else {
      db.schedules := db.schedules + [Schedule(newId, email, WeeklyOf(payload), map[])];
    }
    r := GetSchedule(db.schedules, email);
  }

  /** An existing schedule (the first for the email) keeps its id and other
      keys and gets the payload's weekly schedule, and is what is returned. */
  lemma UpsertExisting(schedules: seq<Schedule>, email: string, payload: Document, id: string)
    requires FindFirst(schedules, ScheduleOf(email)).Some?
    ensures var i := FindFirst(schedules, ScheduleOf(email)).value;
            var updated := schedules[i].(weeklySchedule := WeeklyOf(payload));
            UpsertSchedule(schedules, email, payload, id) == (schedules[i := updated], Some(updated))
  {
    var i := FindFirst(schedules, ScheduleOf(email)).value;
    var after := schedules[i := schedules[i].(weeklySchedule := WeeklyOf(payload))];
    assert UpsertSchedule(schedules, email, payload, id).0 == after;
    FindFirstAt(after, ScheduleOf(email), i);
  }

  /** A new email gets {email, weekly_schedule}, and that is what is returned. */
  lemma UpsertNew(schedules: seq<Schedule>, email: string, payload: Document, id: string)
    requires FindFirst(schedules, ScheduleOf(email)).None?
    ensures var created := Schedule(id, email, WeeklyOf(payload), map[]);
            UpsertSchedule(schedules, email, payload, id) == (schedules + [created], Some(created))
  {
    FindOneAppend(schedules, Schedule(id, email, WeeklyOf(payload), map[]), ScheduleOf(email));
  }

  /** Either way the returned schedule is the stored one for the email and
      holds the payload's weekly schedule, [] when the payload has none. */
  lemma UpsertScheduleSpec(schedules: seq<Schedule>, email: string, payload: Document, id: string)
    ensures var r := UpsertSchedule(schedules, email, payload, id).1;
            r.Some? && r.value.email == email && r.value.weeklySchedule == WeeklyOf(payload) &&
            r.value in UpsertSchedule(schedules, email, payload, id).0 &&
            (!("weekly_schedule" in payload) ==> r.value.weeklySchedule == List([]))
  {
    if FindFirst(schedules, ScheduleOf(email)).Some? {
      UpsertExisting(schedules, email, payload, id);
    } else {
      UpsertNew(schedules, email, payload, id);
    }
  }

  /** The other emails' schedules are not touched. */
  lemma UpsertKeepsOthers(schedules: seq<Schedule>, email: string, payload: Document, id: string, other: string)
    requires other != email
    ensures GetSchedule(UpsertSchedule(schedules, email, payload, id).0, other) == GetSchedule(schedules, other)
  {
    var after := UpsertSchedule(schedules, email, payload, id).0;
    var first := FindFirst(schedules, ScheduleOf(email));
    if first.Some? {
      var i := first.value;
      assert after == schedules[i := schedules[i].(weeklySchedule := WeeklyOf(payload))];
      assert forall j :: 0 <= j < |after| ==> (ScheduleOf(other)(after[j]) <==> ScheduleOf(other)(schedules[j]));
      SameMatches(schedules, after, ScheduleOf(other), i);
    } else {
      FindOneAppend(schedules, Schedule(id, email, WeeklyOf(payload), map[]), ScheduleOf(other));
    }
  }

  /** Repeating an upsert changes nothing more. */
  lemma UpsertIdempotent(schedules: seq<Schedule>, email: string, payload: Document, id: string, id2: string)
    ensures var (after, r) := UpsertSchedule(schedules, email, payload, id);
            UpsertSchedule(after, email, payload, id2) == (after, r)
  {
    var (after, r) := UpsertSchedule(schedules, email, payload, id);
    if FindFirst(schedules, ScheduleOf(email)).Some? {
      UpsertExisting(schedules, email, payload, id);
    } else {
      UpsertNew(schedules, email, payload, id);
    }
    var first := FindFirst(after, ScheduleOf(email));
    assert first.Some?;
    var k := first.value;
    assert after[k] == r.value by {
      assert FindOne(after, ScheduleOf(email)) == Some(after[k]);
    }
    assert after[k].(weeklySchedule := WeeklyOf(payload)) == after[k];
    assert after[k := after[k]] == after;
  }
}
