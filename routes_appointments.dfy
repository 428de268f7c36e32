/** AppointmentsRoutes: GET /appointments/me turns the caller's stored
    appointments into the frontend's shape. Dates held in any of the
    encodings the database has seen become milliseconds since the epoch, the
    finished flag becomes a bool, and the lawyer's name and phone are merged
    in from one batched lookup. The caller's appointments, the "lawyers"
    collection, whether the lookup raises, json.loads, float() and the
    server's UTC offset are parameters. */
module AppointmentsRoutes {
  import opened Wrappers
  import opened Strings
  import opened Collections
  import opened Values

  /** What _to_epoch_ms takes from the platform: json.loads of a text that
      starts with "{" (an object, or None when it raises), float() of a
      string (None when it raises), and the number of seconds local time is
      ahead of UTC, which datetime.timestamp() assumes for a naive datetime. */
  datatype Platform = Platform(
    parseJson: string -> Option<map<string, Value>>,
    parseFloat: string -> Option<real>,
    utcOffset: int)

  // ---------------------------------------------------------------------------
  // _to_epoch_ms

  /** int(s), and failing that int(float(s)). */
  function StringMs(s: string, p: Platform): Option<int> {
    match PyIntOfString(s)
    case Some(i) => Some(i)
    case None =>
      match p.parseFloat(s)
      case Some(f) => Some(Trunc(f))
      case None => None
  }

  /** A Mongo extended-JSON dict: {"$date": {"$numberLong": s}}, {"$date": d}
      or {"$numberLong": s}; int() of what it holds, None when that raises or
      the dict has neither key. */
  function DictMs(m: map<string, Value>): Option<int> {
    if "$date" in m then
      var d := m["$date"];
      if d.Dict? && "$numberLong" in d.entries then PyInt(d.entries["$numberLong"]) else PyInt(d)
    else if "$numberLong" in m then PyInt(m["$numberLong"])
    else None
  }

  predicate LooksLikeJson(s: string) {
    StartsWith(Strip(s), "{")
  }

  /** _to_epoch_ms: milliseconds since the epoch, or None. */
  function ToEpochMs(v: Value, p: Platform): Option<int> {
    match v
    case Null => None
    case DateTime(t) => Some((t - p.utcOffset) * 1000)
    case Str(s) =>
      if LooksLikeJson(s) && p.parseJson(s).Some? then DictMs(p.parseJson(s).value) else StringMs(s, p)
    case Dict(m) => DictMs(m)
    case Int(i) => Some(i)
    case Bool(b) => Some(if b then 1 else 0)
    case Float(f) => Some(Trunc(f))
    case ObjectId(_) => None
    case List(_) => None
  }

  /** The encodings of an instant, given in milliseconds, that the stored
      appointments use; `digits` is a text int() reads as the milliseconds
      (str(ms) is one, by IntStringRoundTrip). */
  datatype Encoding =
    | Native                                // a BSON datetime; whole seconds here
    | NumberLongDate(digits: string)        // {"$date": {"$numberLong": digits}}
    | NumberDate                            // {"$date": <ms>}
    | NumberLong(digits: string)            // {"$numberLong": digits}
    | Millis                                // <ms>
    | DecimalString(digits: string)         // digits
    | ExportedJson(text: string, digits: string)  // a text json.loads reads as {"$date": {"$numberLong": digits}}

  function Encode(ms: int, e: Encoding, p: Platform): Value {
    match e
    case Native => DateTime(ms / 1000 + p.utcOffset)
    case NumberLongDate(digits) => Dict(map["$date" := Dict(map["$numberLong" := Str(digits)])])
    case NumberDate => Dict(map["$date" := Int(ms)])
    case NumberLong(digits) => Dict(map["$numberLong" := Str(digits)])
    case Millis => Int(ms)
    case DecimalString(digits) => Str(digits)
    case ExportedJson(text, _) => Str(text)
  }

  /** When an encoding stands for ms: a datetime needs whole seconds, a text
      must be one int() reads as ms, and an exported text must look like JSON
      and be read by json.loads as the $numberLong form. */
  predicate Denotes(e: Encoding, ms: int, p: Platform) {
    match e
    case Native => ms % 1000 == 0
    case NumberLongDate(digits) => PyIntOfString(digits) == Some(ms)
    case NumberDate => true
    case NumberLong(digits) => PyIntOfString(digits) == Some(ms)
    case Millis => true
    case DecimalString(digits) => PyIntOfString(digits) == Some(ms)
    case ExportedJson(text, digits) =>
      PyIntOfString(digits) == Some(ms) && LooksLikeJson(text) &&
      p.parseJson(text) == Some(map["$date" := Dict(map["$numberLong" := Str(digits)])])
  }

  /** A text int() accepts never looks like JSON: once stripped it starts
      with a sign or a digit. */
  lemma IntTextIsNotJson(t: string)
    requires PyIntOfString(t).Some?
    ensures !LooksLikeJson(t)
  {
    var u := Strip(t);
    assert u != [];
    var body := if u[0] == '-' || u[0] == '+' then u[1..] else u;
    assert IsDigitBody(body);
    if u[0] != '-' && u[0] != '+' {
      assert IsDigit(u[0]);
    }
    assert u[0] != '{';
    assert !StartsWith(u, "{") by {
      if |"{"| <= |u| {
        assert u[..1][0] == u[0];
      }
    }
  }

  lemma DistinctKeys()
    ensures "$date" != "$numberLong"
  {
    assert "$date"[1] != "$numberLong"[1];
  }

  /** {"$date": {"$numberLong": text}} gives what int(text) gives. */
  lemma NumberLongDateText(text: string, ms: int)
    requires PyIntOfString(text) == Some(ms)
    ensures DictMs(map["$date" := Dict(map["$numberLong" := Str(text)])]) == Some(ms)
  {
    var inner := map["$numberLong" := Str(text)];
    assert "$numberLong" in inner && inner["$numberLong"] == Str(text);
    assert PyInt(Str(text)) == Some(ms);
  }

  /** {"$numberLong": text} gives what int(text) gives. */
  lemma NumberLongText(text: string, ms: int)
    requires PyIntOfString(text) == Some(ms)
    ensures DictMs(map["$numberLong" := Str(text)]) == Some(ms)
  {
    DistinctKeys();
    var m := map["$numberLong" := Str(text)];
    assert "$date" !in m;
    assert PyInt(Str(text)) == Some(ms);
  }

  /** A decimal text gives what int(text) gives. */
  lemma DecimalText(text: string, ms: int, p: Platform)
    requires PyIntOfString(text) == Some(ms)
    ensures ToEpochMs(Str(text), p) == Some(ms)
  {
    IntTextIsNotJson(text);
    assert StringMs(text, p) == Some(ms);
  }

  // One lemma per encoding, each stated on Encode so that the round trip
  // below only picks the case.

  lemma NativeMs(ms: int, p: Platform)
    requires Denotes(Native, ms, p)
    ensures ToEpochMs(Encode(ms, Native, p), p) == Some(ms)
  {
    assert Encode(ms, Native, p) == DateTime(ms / 1000 + p.utcOffset);
    assert (ms / 1000 + p.utcOffset - p.utcOffset) * 1000 == (ms / 1000) * 1000;
  }

  lemma NumberLongDateMs(ms: int, digits: string, p: Platform)
    requires Denotes(NumberLongDate(digits), ms, p)
    ensures ToEpochMs(Encode(ms, NumberLongDate(digits), p), p) == Some(ms)
  {
    NumberLongDateText(digits, ms);
  }

  lemma NumberDateMs(ms: int, p: Platform)
    ensures ToEpochMs(Encode(ms, NumberDate, p), p) == Some(ms)
  {
    assert Encode(ms, NumberDate, p) == Dict(map["$date" := Int(ms)]);
  }

  lemma NumberLongMs(ms: int, digits: string, p: Platform)
    requires Denotes(NumberLong(digits), ms, p)
    ensures ToEpochMs(Encode(ms, NumberLong(digits), p), p) == Some(ms)
  {
    NumberLongText(digits, ms);
  }

  lemma DecimalMs(ms: int, digits: string, p: Platform)
    requires Denotes(DecimalString(digits), ms, p)
    ensures ToEpochMs(Encode(ms, DecimalString(digits), p), p) == Some(ms)
  {
    DecimalText(digits, ms, p);
  }

  lemma ExportedMs(ms: int, text: string, digits: string, p: Platform)
    requires Denotes(ExportedJson(text, digits), ms, p)
    ensures ToEpochMs(Encode(ms, ExportedJson(text, digits), p), p) == Some(ms)
  {
    assert Encode(ms, ExportedJson(text, digits), p) == Str(text);
    NumberLongDateText(digits, ms);
  }

  /** Every encoding converts back to the milliseconds it stands for. */
  lemma EpochMsRoundTrip(ms: int, e: Encoding, p: Platform)
    requires Denotes(e, ms, p)
    ensures ToEpochMs(Encode(ms, e, p), p) == Some(ms)
  {
    match e
    case Native => NativeMs(ms, p);
    case NumberLongDate(digits) => NumberLongDateMs(ms, digits, p);
    case NumberDate => NumberDateMs(ms, p);
    case NumberLong(digits) => NumberLongMs(ms, digits, p);
    case Millis =>
    case DecimalString(digits) => DecimalMs(ms, digits, p);
    case ExportedJson(text, digits) => ExportedMs(ms, text, digits, p);
  }

  /** The texts the database writes, str(ms), stand for ms in every text
      encoding. */
  lemma StrDenotes(ms: int, p: Platform)
    ensures Denotes(NumberLongDate(IntToString(ms)), ms, p)
    ensures Denotes(NumberLong(IntToString(ms)), ms, p)
    ensures Denotes(DecimalString(IntToString(ms)), ms, p)
  {
    IntStringRoundTrip(ms);
  }

  // ---------------------------------------------------------------------------
  // is_finished

  /** a.get("is_finished", False): a string is true when it is "true" in any
      case or "1"; any other value is bool(v). */
  function IsFinished(a: Document): (r: bool)
    ensures "is_finished" !in a ==> !r
    ensures "is_finished" in a && a["is_finished"].Bool? ==> r == a["is_finished"].b
    ensures "is_finished" in a && a["is_finished"].Str? ==>
              (r <==> Lower(a["is_finished"].s) == "true" || a["is_finished"].s == "1")
    ensures "is_finished" in a && !a["is_finished"].Str? ==> r == PyTruthy(a["is_finished"])
  {
    var raw := if "is_finished" in a then a["is_finished"] else Bool(false);
    if raw.Str? then Lower(raw.s) == "true" || raw.s == "1" else PyTruthy(raw)
  }

  /** Some strings: "TRUE" and "True" are finished, "0", "false", "yes" and
      "" are not. */
  lemma IsFinishedStrings()
    ensures IsFinished(map["is_finished" := Str("TRUE")]) && IsFinished(map["is_finished" := Str("True")])
    ensures !IsFinished(map["is_finished" := Str("0")]) && !IsFinished(map["is_finished" := Str("false")])
    ensures !IsFinished(map["is_finished" := Str("yes")]) && !IsFinished(map["is_finished" := Str("")])
  {
    assert Lower("TRUE") == "true";
    assert Lower("True") == "true";
    assert Lower("yes") != "true" by { assert |Lower("yes")| == 3; }
    assert Lower("false") != "true" by { assert |Lower("false")| == 5; }
    assert Lower("0") != "true" by { assert |Lower("0")| == 1; }
  }

  // ---------------------------------------------------------------------------
  // The lawyer lookup and the merge

  /** The truthy lawyer emails of the appointments, in order. */
  function LawyerEmails(appts: seq<Document>): (r: seq<Value>)
    ensures forall k :: 0 <= k < |r| ==> PyTruthy(r[k])
  {
    if appts == [] then []
    else
      var e := Get(appts[|appts| - 1], "lawyer_email");
      LawyerEmails(appts[..|appts| - 1]) + (if PyTruthy(e) then [e] else [])
  }

  lemma {:induction false} LawyerEmailsSpec(appts: seq<Document>, e: Value)
    ensures e in LawyerEmails(appts) <==> PyTruthy(e) && exists a :: a in appts && Get(a, "lawyer_email") == e
  {
    if appts != [] {
      var init := appts[..|appts| - 1];
      LawyerEmailsSpec(init, e);
      assert appts == init + [appts[|appts| - 1]];
      if e in LawyerEmails(init) {
        var a :| a in init && Get(a, "lawyer_email") == e;
        assert a in appts;
      }
    }
  }

  function EmailIn(emails: seq<Value>): Document -> bool {
    (l: Document) => Get(l, "email") in emails
  }

  /** find({"email": {"$in": emails}}) on "lawyers", only when there are
      emails; nothing when the lookup raises. */
  function FetchedLawyers(appts: seq<Document>, lawyers: seq<Document>, lookupFails: bool): seq<Document> {
    var emails := LawyerEmails(appts);
    if emails == [] || lookupFails then [] else Filter(lawyers, EmailIn(emails))
  }

  /** The name and phone merged into an appointment. */
  datatype LawyerContact = LawyerContact(name: Value, phone: Value)

  function LawyerEntry(l: Document): LawyerContact {
    LawyerContact(OrValue(Get(l, "full_name"), Str("")), OrValue(Get(l, "phone"), Str("")))
  }

  /** lawyer_map: by email, a later lawyer with the same email replacing an
      earlier one. A lawyer whose email is a list or a dict raises when it is
      used as the key, and the loop goes on without it. */
  function LawyerMap(lawyers: seq<Document>): map<Value, LawyerContact> {
    if lawyers == [] then map[]
    else
      var l := lawyers[|lawyers| - 1];
      var before := LawyerMap(lawyers[..|lawyers| - 1]);
      if Hashable(Get(l, "email")) then before[Get(l, "email") := LawyerEntry(l)] else before
  }

  /** i is the last lawyer with email e. */
  predicate LastWith(lawyers: seq<Document>, e: Value, i: int) {
    0 <= i < |lawyers| && Get(lawyers[i], "email") == e &&
    forall j :: i < j < |lawyers| ==> Get(lawyers[j], "email") != e
  }

  /** An email is in the map exactly when it is hashable and a lawyer has
      it. */
  lemma {:induction false} LawyerMapKeys(lawyers: seq<Document>, e: Value)
    ensures e in LawyerMap(lawyers) <==> Hashable(e) && exists i :: 0 <= i < |lawyers| && Get(lawyers[i], "email") == e
  {
    if lawyers != [] {
      var n := |lawyers| - 1;
      var init := lawyers[..n];
      LawyerMapKeys(init, e);
      assert forall i :: 0 <= i < n ==> init[i] == lawyers[i];
      if e in LawyerMap(init) {
        var i :| 0 <= i < n && Get(init[i], "email") == e;
        assert Get(lawyers[i], "email") == e;
      }
    }
  }

  /** An email in the map maps to the entry of the last lawyer with it. */
  lemma {:induction false} LawyerMapLast(lawyers: seq<Document>, e: Value)
    requires e in LawyerMap(lawyers)
    ensures exists i :: LastWith(lawyers, e, i) && LawyerMap(lawyers)[e] == LawyerEntry(lawyers[i])
  {
    var n := |lawyers| - 1;
    var init := lawyers[..n];
    LawyerMapKeys(lawyers, e);
    if Get(lawyers[n], "email") == e {
      assert LastWith(lawyers, e, n);
    } else {
      LawyerMapLast(init, e);
      var i :| LastWith(init, e, i) && LawyerMap(init)[e] == LawyerEntry(init[i]);
      assert init[i] == lawyers[i];
      assert forall j :: i < j < n ==> init[j] == lawyers[j];
      assert LastWith(lawyers, e, i);
    }
  }

  /** A response row: the base dict, and the two lawyer keys when the merge
      added them. */
  datatype AppointmentRow = AppointmentRow(
    appointmentId: Value,
    lawyerEmail: Value,
    userEmail: Value,
    date: Option<int>,
    startTime: Value,
    endTime: Value,
    isFinished: bool,
    caseType: Value,
    description: Value,
    consultationType: Value,
    createdAt: Option<int>,
    lawyer: Option<LawyerContact>)

  function Base(a: Document, p: Platform): AppointmentRow {
    AppointmentRow(Get(a, "appointment_id"), Get(a, "lawyer_email"), Get(a, "user_email"),
                   ToEpochMs(Get(a, "date"), p), Get(a, "start_time"), Get(a, "end_time"),
                   IsFinished(a), Get(a, "case_type"), Get(a, "description"),
                   Get(a, "consultation_type"), ToEpochMs(Get(a, "created_at"), p), None)
  }

  /** base.update(le) when the lawyer was found. */
  function Enriched(a: Document, lawyerMap: map<Value, LawyerContact>, p: Platform): AppointmentRow {
    var key := Get(a, "lawyer_email");
    if key in lawyerMap then Base(a, p).(lawyer := Some(lawyerMap[key])) else Base(a, p)
  }

  /** An appointment whose lawyer_email lawyer_map.get cannot hash. */
  predicate UnhashableLawyer(appts: seq<Document>) {
    exists k :: 0 <= k < |appts| && !Hashable(Get(appts[k], "lawyer_email"))
  }

  /** The response rows of get_my_appointments. lawyer_map.get hashes each
      appointment's lawyer_email outside any try, so a list or a dict there
      makes the endpoint raise. */
  function MyAppointments(appts: seq<Document>, lawyers: seq<Document>, lookupFails: bool, p: Platform)
    : (r: Result<seq<AppointmentRow>, Failure>)
    ensures r.Err? <==> UnhashableLawyer(appts)
    ensures r.Err? ==> r == Err(Unhandled)
    ensures r.Ok? ==> |r.value| == |appts|
    ensures r.Ok? ==> forall k :: 0 <= k < |appts| ==>
              r.value[k] == Enriched(appts[k], LawyerMap(FetchedLawyers(appts, lawyers, lookupFails)), p)
  {
    var m := LawyerMap(FetchedLawyers(appts, lawyers, lookupFails));
    if UnhashableLawyer(appts) then Err(Unhandled)
    else Ok(seq(|appts|, k requires 0 <= k < |appts| => Enriched(appts[k], m, p)))
  }

  /** An appointment whose lawyer_email is a list makes the endpoint raise,
      whatever the lookup found. */
  lemma UnhashableLawyerRaises(lawyers: seq<Document>, lookupFails: bool, p: Platform)
    ensures MyAppointments([map["lawyer_email" := List([Str("a")])]], lawyers, lookupFails, p) == Err(Unhandled)
  {
    var a: Document := map["lawyer_email" := List([Str("a")])];
    assert !Hashable(Get([a][0], "lawyer_email"));
  }

  /** After the batched lookup, an appointment's lawyer email is in the map
      exactly when the lookup went through, the email is truthy and hashable
      and some lawyer has it, and then it maps to the entry of one such
      lawyer. */
  lemma FetchedMapSpec(appts: seq<Document>, lawyers: seq<Document>, lookupFails: bool, a: Document)
    requires a in appts
    ensures var e := Get(a, "lawyer_email");
            var m := LawyerMap(FetchedLawyers(appts, lawyers, lookupFails));
            (e in m <==> !lookupFails && PyTruthy(e) && Hashable(e) &&
                         exists i :: 0 <= i < |lawyers| && Get(lawyers[i], "email") == e) &&
            (e in m ==> exists l :: l in lawyers && Get(l, "email") == e && m[e] == LawyerEntry(l))
  {
    var e := Get(a, "lawyer_email");
    var emails := LawyerEmails(appts);
    var fetched := FetchedLawyers(appts, lawyers, lookupFails);
    LawyerMapKeys(fetched, e);
    LawyerEmailsSpec(appts, e);
    if !lookupFails && PyTruthy(e) && Hashable(e) && exists i :: 0 <= i < |lawyers| && Get(lawyers[i], "email") == e {
      var i :| 0 <= i < |lawyers| && Get(lawyers[i], "email") == e;
      FilterMembership(lawyers, EmailIn(emails), lawyers[i]);
      var j :| 0 <= j < |fetched| && fetched[j] == lawyers[i];
    }
    if e in LawyerMap(fetched) {
      LawyerMapLast(fetched, e);
      var i :| LastWith(fetched, e, i) && LawyerMap(fetched)[e] == LawyerEntry(fetched[i]);
      FilterMembership(lawyers, EmailIn(emails), fetched[i]);
      assert fetched[i] in lawyers;
    }
  }

  /** When the endpoint answers, every row carries the appointment's fields,
      its dates converted and its flag normalised; it holds the lawyer's name
      and phone exactly when the lookup went through and found a lawyer with
      the appointment's (non-empty) lawyer email, and then they are those of
      such a lawyer, "" for a missing one. */
  lemma MyAppointmentsSpec(appts: seq<Document>, lawyers: seq<Document>, lookupFails: bool, p: Platform, k: nat)
    requires k < |appts|
    ensures var r := MyAppointments(appts, lawyers, lookupFails, p);
            var a := appts[k];
            var e := Get(a, "lawyer_email");
            r.Ok? ==>
            var row := r.value[k];
            row.date == ToEpochMs(Get(a, "date"), p) &&
            row.createdAt == ToEpochMs(Get(a, "created_at"), p) &&
            row.isFinished == IsFinished(a) &&
            row.appointmentId == Get(a, "appointment_id") && row.lawyerEmail == e &&
            (row.lawyer.Some? <==>
               !lookupFails && PyTruthy(e) && exists i :: 0 <= i < |lawyers| && Get(lawyers[i], "email") == e) &&
            (row.lawyer.Some? ==> exists l :: l in lawyers && Get(l, "email") == e && row.lawyer.value == LawyerEntry(l))
  {
    FetchedMapSpec(appts, lawyers, lookupFails, appts[k]);
    if MyAppointments(appts, lawyers, lookupFails, p).Ok? {
      assert Hashable(Get(appts[k], "lawyer_email"));
    }
  }

  /** The comprehension collecting the truthy lawyer emails. */
  method CollectLawyerEmails(appts: seq<Document>) returns (emails: seq<Value>)
    ensures emails == LawyerEmails(appts)
  {
    emails := [];
    for i := 0 to |appts|
      invariant emails == LawyerEmails(appts[..i])
    {
      assert appts[..i + 1][..i] == appts[..i];
      var e := Get(appts[i], "lawyer_email");
      if PyTruthy(e) {
        emails := emails + [e];
      }
    }
    assert appts[..|appts|] == appts;
  }

  /** The loop filling lawyer_map from the fetched lawyers. */
  method BuildLawyerMap(found: seq<Document>) returns (lawyerMap: map<Value, LawyerContact>)
    ensures lawyerMap == LawyerMap(found)
  {
    lawyerMap := map[];
    for i := 0 to |found|
      invariant lawyerMap == LawyerMap(found[..i])
    {
      assert found[..i + 1][..i] == found[..i];
      var l := found[i];
      var email := Get(l, "email");
      if Hashable(email) {
        lawyerMap := lawyerMap[email := LawyerEntry(l)];
      }
    }
    assert found[..|found|] == found;
  }

  /** get_my_appointments from the caller's appointments on. */
  method GetMyAppointments(appts: seq<Document>, lawyers: seq<Document>, lookupFails: bool, p: Platform)
    returns (result: Result<seq<AppointmentRow>, Failure>)
    ensures result == MyAppointments(appts, lawyers, lookupFails, p)
  {
    var emails := CollectLawyerEmails(appts);
    var lawyerMap: map<Value, LawyerContact> := map[];
    if emails != [] && !lookupFails {
      lawyerMap := BuildLawyerMap(Filter(lawyers, EmailIn(emails)));
    }
    var rows := [];
    for i := 0 to |appts|
      invariant |rows| == i
      invariant forall k :: 0 <= k < i ==> Hashable(Get(appts[k], "lawyer_email"))
      invariant forall k :: 0 <= k < i ==> rows[k] == Enriched(appts[k], lawyerMap, p)
    {
      var a := appts[i];
      var row := Base(a, p);
      var key := Get(a, "lawyer_email");
      if !Hashable(key) {
        return Err(Unhandled);
      }
      if key in lawyerMap {
        row := row.(lawyer := Some(lawyerMap[key]));
      }
      rows := rows + [row];
    }
    assert !UnhashableLawyer(appts);
    assert lawyerMap == LawyerMap(FetchedLawyers(appts, lawyers, lookupFails));
    var expected := MyAppointments(appts, lawyers, lookupFails, p).value;
    assert |expected| == |rows| && forall k :: 0 <= k < |rows| ==> expected[k] == rows[k];
    assert rows == expected;
    assert MyAppointments(appts, lawyers, lookupFails, p) == Ok(expected);
    return Ok(rows);
  }
}
