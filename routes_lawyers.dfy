/** LawyersRoutes: the lawyer directory cards, the case endpoints over the raw
    "cases" documents, and the per-client summary a lawyer's dashboard shows.
    The lawyer search, the clock (datetime.utcnow) and datetime.isoformat are
    parameters. */
module LawyersRoutes {
  import opened Wrappers
  import opened Strings
  import opened Collections
  import opened Values

  // ---------------------------------------------------------------------------
  // Lawyer cards (list_lawyers, get_lawyer)

  /** The UserInDB fields a lawyer card is built from. */
  datatype LawyerProfile = LawyerProfile(
    id: Option<string>,
    fullName: string,
    specialization: Option<string>,
    rating: Option<real>,
    totalCases: Option<int>,
    yearsOfExperience: Option<int>,
    location: Option<string>,
    consultationFee: Option<real>,
    isVerified: bool,
    bio: Option<string>,
    education: Option<string>,
    achievements: Option<string>,
    email: string)

  /** The frontend card; "image", "languages" and "barAdmissions" are the
      constants None, [] and [] and are not stored. */
  datatype LawyerCard = LawyerCard(
    id: string,
    name: string,
    specialization: Option<string>,
    rating: real,
    reviews: int,
    experience: int,
    location: string,
    fee: int,
    verified: bool,
    bio: string,
    education: seq<string>,
    achievements: seq<string>,
    email: string)

  /** A comma-separated profile field as a list: split when it is a
      non-empty string, [] otherwise. */
  function ListField(o: Option<string>): (r: seq<string>)
    ensures Truthy(o) ==> |r| >= 1 && Join(r, ",") == o.value
    ensures Truthy(o) ==> forall k :: 0 <= k < |r| ==> ',' !in r[k]
    ensures !Truthy(o) ==> r == []
  {
    if Truthy(o) then JoinSplit(o.value, ','); Split(o.value, ',') else []
  }

  /** `int(consultation_fee) if consultation_fee else 0`. */
  function CardFee(fee: Option<real>): (r: int)
    ensures fee.Some? && fee.value >= 0.0 ==> 0 <= r && r as real <= fee.value < r as real + 1.0
    ensures fee.Some? && fee.value < 0.0 ==> r <= 0 && r as real - 1.0 < fee.value <= r as real
    ensures fee.None? || fee.value == 0.0 ==> r == 0
  {
    if fee.Some? && fee.value != 0.0 then Trunc(fee.value) else 0
  }

  /** The card of a lawyer: missing numbers and strings become 0, 0.0 and
      ""; the fee is the whole part of a non-negative consultation fee;
      education and achievements are the comma-separated pieces, which join
      back to the stored text. */
  function CardOf(l: LawyerProfile): (c: LawyerCard)
    ensures c.name == l.fullName && c.email == l.email && c.verified == l.isVerified
    ensures c.specialization == l.specialization
    ensures l.id.Some? ==> c.id == l.id.value
    ensures l.id.None? ==> c.id == "None"
    ensures l.rating.None? ==> c.rating == 0.0
    ensures l.rating.Some? ==> c.rating == l.rating.value
    ensures l.totalCases.None? ==> c.reviews == 0
    ensures l.totalCases.Some? ==> c.reviews == l.totalCases.value
    ensures l.yearsOfExperience.None? ==> c.experience == 0
    ensures l.yearsOfExperience.Some? ==> c.experience == l.yearsOfExperience.value
    ensures l.location.None? ==> c.location == ""
    ensures l.location.Some? ==> c.location == l.location.value
    ensures l.bio.None? ==> c.bio == ""
    ensures l.bio.Some? ==> c.bio == l.bio.value
    ensures c.fee == CardFee(l.consultationFee)
    ensures l.consultationFee.Some? && l.consultationFee.value >= 0.0 ==>
              0 <= c.fee && c.fee as real <= l.consultationFee.value < c.fee as real + 1.0
    ensures l.consultationFee.None? ==> c.fee == 0
    ensures Truthy(l.education) ==> Join(c.education, ",") == l.education.value
    ensures !Truthy(l.education) ==> c.education == []
    ensures Truthy(l.achievements) ==> Join(c.achievements, ",") == l.achievements.value
    ensures !Truthy(l.achievements) ==> c.achievements == []
  {
    LawyerCard(
      if l.id.Some? then l.id.value else "None",
      l.fullName,
      l.specialization,
      l.rating.GetOr(0.0),
      l.totalCases.GetOr(0),
      l.yearsOfExperience.GetOr(0),
      l.location.GetOr(""),
      CardFee(l.consultationFee),
      l.isVerified,
      l.bio.GetOr(""),
      ListField(l.education),
      ListField(l.achievements),
      l.email)
  }

  /** list_lawyers: one card per lawyer the search returned, in its order. */
  method ListLawyers(lawyers: seq<LawyerProfile>) returns (result: seq<LawyerCard>)
    ensures |result| == |lawyers|
    ensures forall k :: 0 <= k < |lawyers| ==> result[k] == CardOf(lawyers[k])
  {
    result := [];
    for i := 0 to |lawyers|
      invariant |result| == i
      invariant forall k :: 0 <= k < i ==> result[k] == CardOf(lawyers[k])
    {
      result := result + [CardOf(lawyers[i])];
    }
  }

  /** get_lawyer: 404 when get_lawyer_by_id found nothing (an id that is not
      an ObjectId included). */
  function GetLawyer(found: Option<LawyerProfile>): (r: Result<LawyerCard, Failure>)
    ensures found.None? <==> r == Err(Http(404))
    ensures found.Some? ==> r == Ok(CardOf(found.value))
  {
    match found
    case None => Err(Http(404))
    case Some(l) => Ok(CardOf(l))
  }

  // ---------------------------------------------------------------------------
  // serialize_case

  predicate HasId(d: Document) {
    "_id" in d && PyStr(d["_id"]).Some?
  }

  /** {"$date": iso} for a datetime field, the field itself otherwise. */
  function DateField(d: Document, key: string, iso: int -> string): Document {
    if key in d && d[key].DateTime? then d[key := Dict(map["$date" := Str(iso(d[key].t))])] else d
  }

  /** serialize_case of a document: the keys stay the same; "_id" is wrapped
      as {"$oid": str(_id)}; a date field is wrapped as {"$date": isoformat()}
      exactly when it held a datetime; every other key keeps its value. */
  function SerializedCase(d: Document, iso: int -> string): (r: Document)
    requires HasId(d)
    ensures r.Keys == d.Keys
    ensures r["_id"] == Dict(map["$oid" := Str(PyStr(d["_id"]).value)])
    ensures forall key :: key in d && key != "_id" && key != "creation_date" && key != "last_updated" ==>
              r[key] == d[key]
    ensures forall key :: key in {"creation_date", "last_updated"} && key in d ==>
              (d[key].DateTime? ==> r[key] == Dict(map["$date" := Str(iso(d[key].t))])) &&
              (!d[key].DateTime? ==> r[key] == d[key])
  {
    var withId := d["_id" := Dict(map["$oid" := Str(PyStr(d["_id"]).value)])];
    DateField(DateField(withId, "creation_date", iso), "last_updated", iso)
  }

  /** serialize_case: None stays None, and a document becomes its
      serialisation. */
  function SerializeCase(doc: Option<Document>, iso: int -> string): (r: Option<Document>)
    requires doc.Some? ==> HasId(doc.value)
    ensures doc.None? <==> r.None?
    ensures doc.Some? ==> r == Some(SerializedCase(doc.value, iso))
  {
    match doc
    case None => None
    case Some(d) => Some(SerializedCase(d, iso))
  }

  // ---------------------------------------------------------------------------
  // get_lawyer_cases and get_client_cases

  /** The status filter of a query string: lowercased, and only when it is
      non-empty and not "all". */
  function StatusFilter(status: Option<string>): (r: Option<string>)
    ensures r.None? <==> !Truthy(status) || Lower(status.value) == "all"
    ensures r.Some? ==> r.value == Lower(status.value)
  {
    if Truthy(status) && Lower(status.value) != "all" then Some(Lower(status.value)) else None
  }

  function CaseQuery(lawyerEmail: string, filter: Option<string>): Document -> bool {
    (c: Document) => Get(c, "lawyer_email") == Str(lawyerEmail) &&
                     (filter.Some? ==> Get(c, "status") == Str(filter.value))
  }

  /** sort("creation_date", -1) sorts by the stored datetime; a case without
      one sorts last. */
  function CreationKey(c: Document): Option<int> {
    match Get(c, "creation_date")
    case DateTime(t) => Some(t)
    case _ => None
  }

  /** Every stored document has an "_id". */
  ghost predicate AllHaveIds(cases: seq<Document>) {
    forall c :: c in cases ==> HasId(c)
  }

  function SerializeAll(cases: seq<Document>, iso: int -> string): (r: seq<Document>)
    requires AllHaveIds(cases)
    ensures |r| == |cases|
    ensures forall k :: 0 <= k < |cases| ==> r[k] == SerializedCase(cases[k], iso)
  {
    seq(|cases|, k requires 0 <= k < |cases| && HasId(cases[k]) => SerializedCase(cases[k], iso))
  }

  /** The cases a query selects, newest first, before serialisation. */
  function SelectCases(cases: seq<Document>, p: Document -> bool): seq<Document> {
    SortDesc(Filter(cases, p), CreationKey)
  }

  lemma SelectCasesSpec(cases: seq<Document>, p: Document -> bool)
    ensures var r := SelectCases(cases, p);
            SortedDesc(r, CreationKey) &&
            multiset(r) == multiset(Filter(cases, p)) &&
            (forall c :: c in r <==> c in cases && p(c))
  {
    SortDescSorted(Filter(cases, p), CreationKey);
    forall c
      ensures c in SelectCases(cases, p) <==> c in cases && p(c)
    {
      FilterMembership(cases, p, c);
      assert c in SelectCases(cases, p) <==> c in multiset(Filter(cases, p));
    }
  }

  lemma SelectedHaveIds(cases: seq<Document>, p: Document -> bool)
    requires AllHaveIds(cases)
    ensures AllHaveIds(SelectCases(cases, p))
  {
    SelectCasesSpec(cases, p);
  }

  /** get_lawyer_cases without the title search: the lawyer's cases, with the
      status filter, newest first, serialised. */
  function LawyerCases(cases: seq<Document>, lawyerEmail: string, status: Option<string>, iso: int -> string)
    : (r: seq<Document>)
    requires AllHaveIds(cases)
  {
    SelectedHaveIds(cases, CaseQuery(lawyerEmail, StatusFilter(status)));
    SerializeAll(SelectCases(cases, CaseQuery(lawyerEmail, StatusFilter(status))), iso)
  }

  /** Each listed case is the serialisation of one stored case of that lawyer
      whose status equals the lowercased filter (any status for "all" or no
      filter), and the stored cases are listed newest first, each once. */
  lemma LawyerCasesSpec(cases: seq<Document>, lawyerEmail: string, status: Option<string>, iso: int -> string)
    requires AllHaveIds(cases)
    ensures var p := CaseQuery(lawyerEmail, StatusFilter(status));
            var selected := SelectCases(cases, p);
            AllHaveIds(selected) &&
            LawyerCases(cases, lawyerEmail, status, iso) == SerializeAll(selected, iso) &&
            SortedDesc(selected, CreationKey) &&
            multiset(selected) == multiset(Filter(cases, p)) &&
            (forall c :: c in selected <==>
               c in cases && Get(c, "lawyer_email") == Str(lawyerEmail) &&
               (Truthy(status) && Lower(status.value) != "all" ==> Get(c, "status") == Str(Lower(status.value))))
  {
    var p := CaseQuery(lawyerEmail, StatusFilter(status));
    SelectCasesSpec(cases, p);
  }

  function ClientQuery(lawyerEmail: string, userEmail: string): Document -> bool {
    (c: Document) => Get(c, "lawyer_email") == Str(lawyerEmail) && Get(c, "user_email") == Str(userEmail)
  }

  /** get_client_cases: the cases between the lawyer and the client, newest
      first, serialised. */
  function ClientCases(cases: seq<Document>, lawyerEmail: string, userEmail: string, iso: int -> string)
    : (r: seq<Document>)
    requires AllHaveIds(cases)
  {
    SelectedHaveIds(cases, ClientQuery(lawyerEmail, userEmail));
    SerializeAll(SelectCases(cases, ClientQuery(lawyerEmail, userEmail)), iso)
  }

  lemma ClientCasesSpec(cases: seq<Document>, lawyerEmail: string, userEmail: string, iso: int -> string)
    requires AllHaveIds(cases)
    ensures var selected := SelectCases(cases, ClientQuery(lawyerEmail, userEmail));
            AllHaveIds(selected) &&
            ClientCases(cases, lawyerEmail, userEmail, iso) == SerializeAll(selected, iso) &&
            SortedDesc(selected, CreationKey) &&
            (forall c :: c in selected <==>
               c in cases && Get(c, "lawyer_email") == Str(lawyerEmail) && Get(c, "user_email") == Str(userEmail))
  {
    SelectCasesSpec(cases, ClientQuery(lawyerEmail, userEmail));
  }

  // ---------------------------------------------------------------------------
  // get_case_details and update_case_status

  function IdIs(oid: string): Document -> bool {
    (c: Document) => Get(c, "_id") == ObjectId(oid)
  }

  /** The text the case handlers look for in the message of an exception
      that is not an HTTPException. */
  const InvalidIdText: string := "invalid ObjectId"

  /** str(e) of the HTTPException(404, "Case not found") that
      get_case_details raises inside its own try block. */
  const NotFoundMessage: string := "404: Case not found"

  /** The status of the `except Exception as e` branches: 400 when
      str(e).lower() contains the text, 500 otherwise. */
  function ExceptionStatus(message: string): int {
    if Contains(Lower(message), InvalidIdText) then 400 else 500
  }

  /** The text has capitals and the message is lower-cased first, so the
      400 branch is never taken, whatever the exception says. */
  lemma ExceptionStatusIs500(message: string)
    ensures ExceptionStatus(message) == 500
  {
    assert InvalidIdText[8] == 'O';
    LowerContainsNoUpper(message, InvalidIdText, 8);
  }

  /** The 404's message holds no "j", so it would not match the text even
      spelled in lower case: what loses the 404 is the `except Exception`
      branch catching it, not the capitals. */
  lemma NotFoundNeverMatches()
    ensures !Contains(Lower(NotFoundMessage), Lower(InvalidIdText))
  {
    var m := Lower(NotFoundMessage);
    var t := Lower(InvalidIdText);
    assert t[10] == 'j';
    forall i | 0 <= i < |m| ensures m[i] != 'j' {
      assert m[i] == LowerChar(NotFoundMessage[i]);
    }
    AbsentCharNotContained(m, t, 10);
  }

  /** get_case_details as written: a malformed id raises bson's InvalidId
      (`idMessage` is its text), and an id of no case raises the 404
      HTTPException inside the try; `except Exception` catches both, and as
      the 400 test never matches, both are answered 500. A case found is
      answered serialised. */
  function CaseDetailsAsWritten(cases: seq<Document>, caseId: string, iso: int -> string, idMessage: string)
    : (r: Result<Document, Failure>)
    ensures ParseObjectId(caseId).None? ==> r == Err(Http(500))
    ensures ParseObjectId(caseId).Some? ==>
              var found := FindOne(cases, IdIs(ParseObjectId(caseId).value));
              (found.None? ==> r == Err(Http(500))) &&
              (found.Some? ==> HasId(found.value) && r == Ok(SerializedCase(found.value, iso)))
  {
    ExceptionStatusIs500(idMessage);
    ExceptionStatusIs500(NotFoundMessage);
    match ParseObjectId(caseId)
    case None => Err(Http(ExceptionStatus(idMessage)))
    case Some(oid) =>
      match FindOne(cases, IdIs(oid))
      case None => Err(Http(ExceptionStatus(NotFoundMessage)))
      case Some(c) =>
        assert Get(c, "_id") == ObjectId(oid);
        Ok(SerializedCase(c, iso))
  }

  /** An id of no case: 500 where 404 was meant. */
  lemma CaseDetailsMissingIs500(cases: seq<Document>, iso: int -> string, idMessage: string)
    ensures var caseId := "000000000000000000000000";
            ParseObjectId(caseId).Some? &&
            (cases == [] ==> CaseDetailsAsWritten(cases, caseId, iso, idMessage) == Err(Http(500))) &&
            (cases == [] ==> CaseDetails(cases, caseId, iso) == Err(Http(404)))
  {
    var caseId := "000000000000000000000000";
    assert forall i :: 0 <= i < |caseId| ==> caseId[i] == '0';
    assert IsCanonicalObjectId(caseId);
    ParseCanonicalObjectId(caseId);
  }

  /** A malformed id: 500 where the "Invalid case ID format" 400 was meant. */
  lemma MalformedIdIs500(cases: seq<Document>, iso: int -> string, idMessage: string)
    ensures ParseObjectId("abc").None?
    ensures CaseDetailsAsWritten(cases, "abc", iso, idMessage) == Err(Http(500))
    ensures CaseDetails(cases, "abc", iso) == Err(Http(400))
  {
  }

  /** get_case_details as evidently intended: the HTTPException re-raised,
      as update_case_status does, and a malformed id answered 400 "Invalid
      case ID format". So 400 exactly for a malformed id, 404 exactly for a
      well-formed id of no case, and the serialised case otherwise. */
  function CaseDetails(cases: seq<Document>, caseId: string, iso: int -> string)
    : (r: Result<Document, Failure>)
    ensures r == Err(Http(400)) <==> ParseObjectId(caseId).None?
    ensures ParseObjectId(caseId).Some? ==>
              var found := FindOne(cases, IdIs(ParseObjectId(caseId).value));
              (found.None? <==> r == Err(Http(404))) &&
              (found.Some? ==> HasId(found.value) && r == Ok(SerializedCase(found.value, iso)))
  {
    match ParseObjectId(caseId)
    case None => Err(Http(400))
    case Some(oid) =>
      match FindOne(cases, IdIs(oid))
      case None => Err(Http(404))
      case Some(c) =>
        assert Get(c, "_id") == ObjectId(oid);
        Ok(SerializedCase(c, iso))
  }

  const ValidStatuses: seq<string> := ["pending", "ongoing", "closed"]

  /** The status check of update_case_status: missing or empty, or not one
      of the three after lowercasing, is 400; a status that is not a string
      makes .lower() raise, which ends in the `except Exception` branch. */
  function NewStatus(body: Document, lowerMessage: string): (r: Result<string, Failure>)
    ensures var v := Get(body, "status");
            (r.Ok? <==> v.Str? && v.s != "" && Lower(v.s) in ValidStatuses) &&
            (r.Ok? ==> r.value == Lower(v.s) && r.value in ValidStatuses) &&
            (!PyTruthy(v) || (v.Str? && Lower(v.s) !in ValidStatuses) ==> r == Err(Http(400))) &&
            (PyTruthy(v) && !v.Str? ==> r == Err(Http(500)))
  {
    ExceptionStatusIs500(lowerMessage);
    var v := Get(body, "status");
    if !PyTruthy(v) then Err(Http(400))
    else if !v.Str? then Err(Http(ExceptionStatus(lowerMessage)))
    else if Lower(v.s) !in ValidStatuses then Err(Http(400))
    else Ok(Lower(v.s))
  }

  /** $set of the new status and the time. */
  function SetStatus(status: string, now: int): Document -> Document {
    (c: Document) => c["status" := Str(status)]["last_updated" := DateTime(now)]
  }

  /** The update once the status and the id are valid: the cases afterwards
      and the response. */
  function UpdateStatusOf(cases: seq<Document>, oid: string, status: string, now: int, iso: int -> string)
    : (seq<Document>, Result<Option<Document>, Failure>)
  {
    var (after, modified) := UpdateOne(cases, IdIs(oid), SetStatus(status, now));
    if FindFirst(cases, IdIs(oid)).None? then (after, Err(Http(404)))
    else if !modified then (after, Err(Http(304)))
    else
      var updated := FindOne(after, IdIs(oid));
      (after, Ok(SerializeCase(updated, iso)))
  }

  /** update_case_status as written: the status is checked before the id; a
      bad status or a malformed id changes nothing, and the malformed id's
      InvalidId (text `idMessage`) ends in 500 since the 400 test never
      matches. `lowerMessage` is the text of the AttributeError. */
  function UpdateCaseStatusRouteAsWritten(cases: seq<Document>, caseId: string, body: Document, now: int,
                                          iso: int -> string, lowerMessage: string, idMessage: string)
    : (r: (seq<Document>, Result<Option<Document>, Failure>))
    ensures NewStatus(body, lowerMessage).Err? ==> r == (cases, Err(NewStatus(body, lowerMessage).error))
    ensures NewStatus(body, lowerMessage).Ok? && ParseObjectId(caseId).None? ==> r == (cases, Err(Http(500)))
    ensures NewStatus(body, lowerMessage).Ok? && ParseObjectId(caseId).Some? ==>
              r == UpdateStatusOf(cases, ParseObjectId(caseId).value, NewStatus(body, lowerMessage).value, now, iso)
  {
    ExceptionStatusIs500(idMessage);
    match NewStatus(body, lowerMessage)
    case Err(e) => (cases, Err(e))
    case Ok(status) =>
      match ParseObjectId(caseId)
      case None => (cases, Err(Http(ExceptionStatus(idMessage))))
      case Some(oid) => UpdateStatusOf(cases, oid, status, now, iso)
  }

  /** update_case_status as evidently intended: a malformed id is answered
      400 "Invalid case ID format"; everything else as written. */
  function UpdateCaseStatusRoute(cases: seq<Document>, caseId: string, body: Document, now: int,
                                 iso: int -> string, lowerMessage: string)
    : (r: (seq<Document>, Result<Option<Document>, Failure>))
    ensures NewStatus(body, lowerMessage).Err? ==> r == (cases, Err(NewStatus(body, lowerMessage).error))
    ensures NewStatus(body, lowerMessage).Ok? && ParseObjectId(caseId).None? ==> r == (cases, Err(Http(400)))
    ensures NewStatus(body, lowerMessage).Ok? && ParseObjectId(caseId).Some? ==>
              r == UpdateStatusOf(cases, ParseObjectId(caseId).value, NewStatus(body, lowerMessage).value, now, iso)
  {
    match NewStatus(body, lowerMessage)
    case Err(e) => (cases, Err(e))
    case Ok(status) =>
      match ParseObjectId(caseId)
      case None => (cases, Err(Http(400)))
      case Some(oid) => UpdateStatusOf(cases, oid, status, now, iso)
  }

  /** The two differ only on a malformed id with a valid status. */
  lemma UpdateRouteDiffersOnMalformedId(cases: seq<Document>, caseId: string, body: Document, now: int,
                                        iso: int -> string, lowerMessage: string, idMessage: string)
    ensures var asWritten := UpdateCaseStatusRouteAsWritten(cases, caseId, body, now, iso, lowerMessage, idMessage);
            var intended := UpdateCaseStatusRoute(cases, caseId, body, now, iso, lowerMessage);
            (asWritten != intended <==> NewStatus(body, lowerMessage).Ok? && ParseObjectId(caseId).None?) &&
            asWritten.0 == intended.0
  {
  }

  /** The case the update reaches keeps its id, so it is the one found
      afterwards. */
  lemma UpdatedCase(cases: seq<Document>, oid: string, s: string, now: int, i: nat)
    requires FindFirst(cases, IdIs(oid)) == Some(i)
    ensures var updated := cases[i]["status" := Str(s)]["last_updated" := DateTime(now)];
            UpdateOne(cases, IdIs(oid), SetStatus(s, now)) == (cases[i := updated], updated != cases[i]) &&
            FindOne(cases[i := updated], IdIs(oid)) == Some(updated) && HasId(updated)
  {
    var updated := SetStatus(s, now)(cases[i]);
    var after := cases[i := updated];
    assert Get(updated, "_id") == Get(cases[i], "_id");
    FindFirstAt(after, IdIs(oid), i);
  }

  /** With a valid status and id: 404 and nothing changed when no case has the
      id; otherwise the first such case gets the status and the time, and the
      answer is 304 exactly when it already had both, or else its
      serialisation. */
  lemma UpdateCaseStatusSpec(cases: seq<Document>, oid: string, s: string, now: int, iso: int -> string)
    ensures var first := FindFirst(cases, IdIs(oid));
            var (after, r) := UpdateStatusOf(cases, oid, s, now, iso);
            (first.None? ==> after == cases && r == Err(Http(404))) &&
            (first.Some? ==>
               var i := first.value;
               var updated := cases[i]["status" := Str(s)]["last_updated" := DateTime(now)];
               after == cases[i := updated] &&
               (r == Err(Http(304)) <==> updated == cases[i]) &&
               (r != Err(Http(304)) ==> HasId(updated) && r == Ok(Some(SerializedCase(updated, iso)))))
  {
    var first := FindFirst(cases, IdIs(oid));
    if first.Some? {
      UpdatedCase(cases, oid, s, now, first.value);
    }
  }

  /** The route sets last_updated to the current time, so a stored case whose
      last_updated is any other value is never answered 304, even when its
      status is already the requested one. */
  lemma UpdateCaseStatusNot304(cases: seq<Document>, oid: string, s: string, now: int, iso: int -> string)
    requires var first := FindFirst(cases, IdIs(oid));
             first.Some? && Get(cases[first.value], "last_updated") != DateTime(now)
    ensures UpdateStatusOf(cases, oid, s, now, iso).1 != Err(Http(304))
  {
    UpdateCaseStatusSpec(cases, oid, s, now, iso);
    var i := FindFirst(cases, IdIs(oid)).value;
    var updated := SetStatus(s, now)(cases[i]);
    assert updated["last_updated"] == DateTime(now);
  }

  // ---------------------------------------------------------------------------
  // get_lawyer_clients: grouping the lawyer's cases by client

  /** One entry of clients_data. */
  datatype ClientInfo = ClientInfo(
    userEmail: Value,
    cases: seq<Document>,
    activeCases: int,
    completedCases: int,
    totalCases: int,
    lastCaseDate: Option<int>)

  /** case.get("status", "").lower(), which raises for a status that is not a
      string. */
  function CaseStatus(c: Document): Result<string, Failure> {
    if "status" !in c then Ok("")
    else match c["status"]
      case Str(st) => Ok(Lower(st))
      case _ => Err(Unhandled)
  }

  predicate IsActiveStatus(st: string) {
    st == "ongoing" || st == "pending"
  }

  /** The date of a case, and the key max() orders the cases by:
      case.get("last_updated") or case.get("creation_date"). */
  function KeyOf(c: Document): Value {
    OrValue(Get(c, "last_updated"), Get(c, "creation_date"))
  }

  /** A key this model reads: a datetime, or a falsy value (no date). A truthy
      key of any other type is taken as an error. */
  predicate IsKey(v: Value) {
    v.DateTime? || !PyTruthy(v)
  }

  /** The case's date: None when both fields are falsy. */
  function CaseDate(c: Document): Result<Option<int>, Failure> {
    var v := KeyOf(c);
    if !PyTruthy(v) then Ok(None)
    else match v
      case DateTime(t) => Ok(Some(t))
      case _ => Err(Unhandled)
  }

  /** The running maximum: replaced when there is none yet or the new date is
      later. */
  function Later(last: Option<int>, date: Option<int>): (r: Option<int>)
    ensures r == last || r == date
    ensures date.Some? ==> r.Some? && date.value <= r.value
    ensures last.Some? ==> r.Some? && last.value <= r.value
  {
    if date.None? then last
    else if last.None? || date.value > last.value then date
    else last
  }

  /** The entry after one more case of the client. */
  function Record(info: ClientInfo, c: Document, active: bool, date: Option<int>): ClientInfo {
    info.(cases := info.cases + [c],
          totalCases := info.totalCases + 1,
          activeCases := if active then info.activeCases + 1 else info.activeCases,
          completedCases := if active then info.completedCases else info.completedCases + 1,
          lastCaseDate := Later(info.lastCaseDate, date))
  }

  /** The entry the defaultdict creates for a new client. */
  function NewClient(email: Value): ClientInfo {
    ClientInfo(email, [], 0, 0, 0, None)
  }

  function ClientIs(email: Value): ClientInfo -> bool {
    (info: ClientInfo) => info.userEmail == email
  }

  /** One turn of the grouping loop; a case without a user_email is skipped.
      The status is lower-cased first; then clients_data[user_email] hashes
      the e-mail, which raises for a list or a dict; then the date is read. */
  function AddCase(clients: seq<ClientInfo>, c: Document): Result<seq<ClientInfo>, Failure> {
    var email := Get(c, "user_email");
    if !PyTruthy(email) then Ok(clients)
    else match CaseStatus(c)
      case Err(e) => Err(e)
      case Ok(st) =>
        if !Hashable(email) then Err(Unhandled)
        else match CaseDate(c)
        case Err(e) => Err(e)
        case Ok(date) =>
          match FindFirst(clients, ClientIs(email))
          case None => Ok(clients + [Record(NewClient(email), c, IsActiveStatus(st), date)])
          case Some(k) => Ok(clients[k := Record(clients[k], c, IsActiveStatus(st), date)])
  }

  /** clients_data after the grouping loop over the cases, in insertion
      order. */
  function Aggregate(cases: seq<Document>): Result<seq<ClientInfo>, Failure> {
    if cases == [] then Ok([])
    else match Aggregate(cases[..|cases| - 1])
      case Err(e) => Err(e)
      case Ok(clients) => AddCase(clients, cases[|cases| - 1])
  }

  /** Once a case raises, the whole grouping does (with the one failure
      this model has for a raised exception). */
  lemma {:induction false} AggregateFails(cases: seq<Document>, n: nat)
    requires n <= |cases| && Aggregate(cases[..n]) == Err(Unhandled)
    ensures Aggregate(cases) == Err(Unhandled)
    decreases |cases| - n
  {
    if n < |cases| {
      var m := |cases| - 1;
      assert cases[..m][..n] == cases[..n];
      if n < m {
        AggregateFails(cases[..m], n);
      }
    } else {
      assert cases[..n] == cases;
    }
  }

  // The meaning of the grouping, stated against the cases themselves.

  function CaseOf(email: Value): Document -> bool {
    (c: Document) => Get(c, "user_email") == email
  }

  predicate ActiveCase(c: Document) {
    CaseStatus(c).Ok? && IsActiveStatus(CaseStatus(c).value)
  }

  function DateOf(c: Document): Option<int> {
    if CaseDate(c).Ok? then CaseDate(c).value else None
  }

  /** The latest date among the cases, None when none has one. */
  function LatestDate(cases: seq<Document>): Option<int> {
    if cases == [] then None else Later(LatestDate(cases[..|cases| - 1]), DateOf(cases[|cases| - 1]))
  }

  /** LatestDate is the maximum: every dated case is no later, and it is some
      case's date. */
  lemma {:induction false} LatestDateSpec(cases: seq<Document>)
    ensures forall k :: 0 <= k < |cases| && DateOf(cases[k]).Some? ==>
              LatestDate(cases).Some? && DateOf(cases[k]).value <= LatestDate(cases).value
    ensures LatestDate(cases).Some? ==> exists k :: 0 <= k < |cases| && DateOf(cases[k]) == LatestDate(cases)
  {
    if cases != [] {
      var init := cases[..|cases| - 1];
      LatestDateSpec(init);
      assert forall k :: 0 <= k < |init| ==> init[k] == cases[k];
      if LatestDate(cases) != DateOf(cases[|cases| - 1]) {
        assert LatestDate(cases) == LatestDate(init);
      }
    }
  }

  function Emails(clients: seq<ClientInfo>): (r: seq<Value>)
    ensures |r| == |clients|
    ensures forall k :: 0 <= k < |clients| ==> r[k] == clients[k].userEmail
  {
    seq(|clients|, k requires 0 <= k < |clients| => clients[k].userEmail)
  }

  /** The entry of one client, read against the cases grouped so far. */
  ghost predicate EntryOf(info: ClientInfo, cases: seq<Document>) {
    PyTruthy(info.userEmail) &&
    info.cases == Filter(cases, CaseOf(info.userEmail)) && info.cases != [] &&
    info.totalCases == |info.cases| &&
    info.activeCases == |Filter(info.cases, ActiveCase)| &&
    info.completedCases == info.totalCases - info.activeCases &&
    info.lastCaseDate == LatestDate(info.cases)
  }

  /** The grouping invariant: one entry per client with a user_email, in
      first-appearance order, each holding exactly that client's cases. */
  ghost predicate Grouped(clients: seq<ClientInfo>, cases: seq<Document>) {
    (forall k :: 0 <= k < |clients| ==> EntryOf(clients[k], cases)) &&
    (forall k, m :: 0 <= k < m < |clients| ==> clients[k].userEmail != clients[m].userEmail) &&
    (forall c :: c in cases && PyTruthy(Get(c, "user_email")) ==> Get(c, "user_email") in Emails(clients))
  }

  lemma RecordEntry(info: ClientInfo, cases: seq<Document>, c: Document, st: string, date: Option<int>)
    requires info.userEmail == Get(c, "user_email") && PyTruthy(info.userEmail)
    requires info.cases == Filter(cases, CaseOf(info.userEmail))
    requires info.totalCases == |info.cases|
    requires info.activeCases == |Filter(info.cases, ActiveCase)|
    requires info.completedCases == info.totalCases - info.activeCases
    requires info.lastCaseDate == LatestDate(info.cases)
    requires CaseStatus(c) == Ok(st) && CaseDate(c) == Ok(date)
    ensures EntryOf(Record(info, c, IsActiveStatus(st), date), cases + [c])
  {
    var r := Record(info, c, IsActiveStatus(st), date);
    FilterSnoc(cases, c, CaseOf(info.userEmail));
    FilterSnoc(info.cases, c, ActiveCase);
    assert r.cases[..|r.cases| - 1] == info.cases;
  }

  /** A case of another client leaves an entry as it was. */
  lemma OtherEntry(info: ClientInfo, cases: seq<Document>, c: Document)
    requires EntryOf(info, cases) && Get(c, "user_email") != info.userEmail
    ensures EntryOf(info, cases + [c])
  {
    FilterSnoc(cases, c, CaseOf(info.userEmail));
  }

  lemma AddCaseSkipped(clients: seq<ClientInfo>, cases: seq<Document>, c: Document)
    requires Grouped(clients, cases) && !PyTruthy(Get(c, "user_email"))
    ensures Grouped(clients, cases + [c])
  {
    forall k | 0 <= k < |clients| ensures EntryOf(clients[k], cases + [c]) {
      OtherEntry(clients[k], cases, c);
    }
  }

  lemma AddCaseExisting(clients: seq<ClientInfo>, cases: seq<Document>, c: Document, k: nat, st: string, date: Option<int>)
    requires Grouped(clients, cases) && k < |clients| && clients[k].userEmail == Get(c, "user_email")
    requires CaseStatus(c) == Ok(st) && CaseDate(c) == Ok(date)
    ensures Grouped(clients[k := Record(clients[k], c, IsActiveStatus(st), date)], cases + [c])
  {
    var after := clients[k := Record(clients[k], c, IsActiveStatus(st), date)];
    RecordEntry(clients[k], cases, c, st, date);
    forall m | 0 <= m < |after| ensures EntryOf(after[m], cases + [c]) {
      if m != k {
        OtherEntry(clients[m], cases, c);
      }
    }
    assert Emails(after) == Emails(clients);
  }

  /** A new client's entry: its email is in no entry yet and none of the
      cases grouped so far is its. */
  lemma NewClientFresh(clients: seq<ClientInfo>, cases: seq<Document>, email: Value)
    requires Grouped(clients, cases) && PyTruthy(email)
    requires FindFirst(clients, ClientIs(email)).None?
    ensures email !in Emails(clients)
    ensures Filter(cases, CaseOf(email)) == []
  {
    var before := Emails(clients);
    forall k | 0 <= k < |before| ensures before[k] != email {
      assert !ClientIs(email)(clients[k]);
    }
    FilterEmpty(cases, CaseOf(email));
    forall k | 0 <= k < |cases| ensures !CaseOf(email)(cases[k]) {
      assert cases[k] in cases;
    }
  }

  lemma AddCaseNew(clients: seq<ClientInfo>, cases: seq<Document>, c: Document, st: string, date: Option<int>)
    requires Grouped(clients, cases) && PyTruthy(Get(c, "user_email"))
    requires FindFirst(clients, ClientIs(Get(c, "user_email"))).None?
    requires CaseStatus(c) == Ok(st) && CaseDate(c) == Ok(date)
    ensures Grouped(clients + [Record(NewClient(Get(c, "user_email")), c, IsActiveStatus(st), date)], cases + [c])
  {
    var email := Get(c, "user_email");
    var entry := Record(NewClient(email), c, IsActiveStatus(st), date);
    var after := clients + [entry];
    NewClientFresh(clients, cases, email);
    RecordEntry(NewClient(email), cases, c, st, date);
    NewEntries(clients, cases, c, entry);
    NewDistinct(clients, entry);
    NewCovers(clients, cases, c, entry);
  }

  lemma NewEntries(clients: seq<ClientInfo>, cases: seq<Document>, c: Document, entry: ClientInfo)
    requires Grouped(clients, cases) && EntryOf(entry, cases + [c]) && entry.userEmail == Get(c, "user_email")
    requires entry.userEmail !in Emails(clients)
    ensures forall m :: 0 <= m < |clients + [entry]| ==> EntryOf((clients + [entry])[m], cases + [c])
  {
    var after := clients + [entry];
    forall m | 0 <= m < |after| ensures EntryOf(after[m], cases + [c]) {
      if m < |clients| {
        assert Emails(clients)[m] == clients[m].userEmail;
        OtherEntry(clients[m], cases, c);
      }
    }
  }

  lemma NewDistinct(clients: seq<ClientInfo>, entry: ClientInfo)
    requires forall k, m :: 0 <= k < m < |clients| ==> clients[k].userEmail != clients[m].userEmail
    requires entry.userEmail !in Emails(clients)
    ensures var after := clients + [entry];
            forall k, m :: 0 <= k < m < |after| ==> after[k].userEmail != after[m].userEmail
  {
    var after := clients + [entry];
    forall k, m | 0 <= k < m < |after| ensures after[k].userEmail != after[m].userEmail {
      if m == |clients| {
        assert Emails(clients)[k] == after[k].userEmail;
      }
    }
  }

  lemma NewCovers(clients: seq<ClientInfo>, cases: seq<Document>, c: Document, entry: ClientInfo)
    requires Grouped(clients, cases) && entry.userEmail == Get(c, "user_email")
    ensures forall d :: d in cases + [c] && PyTruthy(Get(d, "user_email")) ==> Get(d, "user_email") in Emails(clients + [entry])
  {
    var after := clients + [entry];
    assert Emails(after) == Emails(clients) + [entry.userEmail];
    forall d | d in cases + [c] && PyTruthy(Get(d, "user_email")) ensures Get(d, "user_email") in Emails(after) {
      if d != c {
        assert d in cases;
      }
    }
  }

  lemma AddCaseGrouped(clients: seq<ClientInfo>, cases: seq<Document>, c: Document)
    requires Grouped(clients, cases) && AddCase(clients, c).Ok?
    ensures Grouped(AddCase(clients, c).value, cases + [c])
  {
    var email := Get(c, "user_email");
    if !PyTruthy(email) {
      AddCaseSkipped(clients, cases, c);
    } else {
      var st := CaseStatus(c).value;
      var date := CaseDate(c).value;
      match FindFirst(clients, ClientIs(email))
      case None => AddCaseNew(clients, cases, c, st, date);
      case Some(k) => AddCaseExisting(clients, cases, c, k, st, date);
    }
  }

  /** The grouping loop establishes the invariant over all the cases. */
  lemma {:induction false} AggregateGrouped(cases: seq<Document>)
    requires Aggregate(cases).Ok?
    ensures Grouped(Aggregate(cases).value, cases)
  {
    if cases != [] {
      var init := cases[..|cases| - 1];
      AggregateGrouped(init);
      AddCaseGrouped(Aggregate(init).value, init, cases[|cases| - 1]);
      assert init + [cases[|cases| - 1]] == cases;
    }
  }

  // ---------------------------------------------------------------------------
  // get_lawyer_clients: one row per client that has a user record

  /** The kinds of key Python's `>` compares with each other: datetimes;
      bools, ints and floats; strings; lists. None and dicts (0) support no
      ordering at all. */
  function KeyClass(v: Value): nat {
    match v
    case DateTime(_) => 1
    case Bool(_) => 2
    case Int(_) => 2
    case Float(_) => 2
    case Str(_) => 3
    case List(_) => 4
    case _ => 0
  }

  /** Python `a > b` on two keys; None where it raises TypeError. The falsy
      keys of one kind are all equal (False, 0 and 0.0; ""; []), so none is
      greater than another. */
  function KeyGt(a: Value, b: Value): Option<bool>
    requires IsKey(a) && IsKey(b)
  {
    if KeyClass(a) == 0 || KeyClass(a) != KeyClass(b) then None
    else Some(a.DateTime? && b.DateTime? && a.t > b.t)
  }

  /** Every case has a key this model reads. */
  predicate AllKeys(cases: seq<Document>) {
    forall k :: 0 <= k < |cases| ==> IsKey(KeyOf(cases[k]))
  }

  /** Every key is of the first one's kind, and that kind is ordered. */
  predicate OneClass(cases: seq<Document>) {
    cases != [] && KeyClass(KeyOf(cases[0])) != 0 &&
    forall k :: 0 <= k < |cases| ==> KeyClass(KeyOf(cases[k])) == KeyClass(KeyOf(cases[0]))
  }

  /** The index max(cases, key=KeyOf) returns. It walks the cases and
      replaces the one it keeps only when a later key compares greater, so
      it keeps the first of the latest dates; a comparison that raises makes
      the whole call raise. */
  function MaxBy(cases: seq<Document>): (r: Result<nat, Failure>)
    requires cases != []
    ensures r.Err? ==> r == Err(Unhandled)
    ensures r.Ok? ==> r.value < |cases| && IsKey(KeyOf(cases[r.value]))
    ensures r.Ok? ==> KeyClass(KeyOf(cases[r.value])) == KeyClass(KeyOf(cases[0]))
    ensures r.Ok? && KeyOf(cases[r.value]).DateTime? ==>
              forall k :: 0 <= k < |cases| ==> DateOf(cases[k]).Some? && DateOf(cases[k]).value <= DateOf(cases[r.value]).value
    ensures r.Ok? && KeyOf(cases[r.value]).DateTime? ==>
              forall k :: 0 <= k < r.value ==> DateOf(cases[k]).value < DateOf(cases[r.value]).value
    ensures r.Ok? && !KeyOf(cases[r.value]).DateTime? ==>
              r.value == 0 && forall k :: 0 <= k < |cases| ==> DateOf(cases[k]).None?
  {
    if |cases| == 1 then (if IsKey(KeyOf(cases[0])) then Ok(0) else Err(Unhandled))
    else
      var init := cases[..|cases| - 1];
      match MaxBy(init)
      case Err(e) => Err(e)
      case Ok(m) =>
        assert forall k :: 0 <= k < |init| ==> init[k] == cases[k];
        var key := KeyOf(cases[|cases| - 1]);
        if !IsKey(key) then Err(Unhandled)
        else match KeyGt(key, KeyOf(cases[m]))
          case None => Err(Unhandled)
          case Some(gt) => if gt then Ok(|cases| - 1) else Ok(m)
  }

  /** max() gets through exactly when every key is read and, for two cases
      or more, all keys are of one ordered kind. */
  lemma {:induction false} MaxByOk(cases: seq<Document>)
    requires cases != []
    ensures MaxBy(cases).Ok? <==> AllKeys(cases) && (|cases| == 1 || OneClass(cases))
  {
    if |cases| > 1 {
      var init := cases[..|cases| - 1];
      var last := cases[|cases| - 1];
      MaxByOk(init);
      assert forall k :: 0 <= k < |init| ==> init[k] == cases[k];
      assert AllKeys(cases) <==> AllKeys(init) && IsKey(KeyOf(last));
      assert OneClass(cases) <==>
               (KeyClass(KeyOf(cases[0])) != 0 && (|init| == 1 || OneClass(init)) &&
                KeyClass(KeyOf(last)) == KeyClass(KeyOf(cases[0])));
    }
  }

  /** max(cases, key=...): raises on an empty list, and when two keys must be
      compared that Python cannot order. */
  function RecentCase(cases: seq<Document>): (r: Result<Document, Failure>)
    ensures r.Ok? ==> r.value in cases
    ensures r.Err? ==> r == Err(Unhandled)
    ensures r.Err? <==> cases == [] || !AllKeys(cases) || (|cases| >= 2 && !OneClass(cases))
  {
    if cases == [] then Err(Unhandled)
    else
      MaxByOk(cases);
      match MaxBy(cases)
      case Err(e) => Err(e)
      case Ok(m) => Ok(cases[m])
  }

  /** The case shown as the most recent carries the client's last_case_date. */
  lemma RecentCaseIsLatest(cases: seq<Document>)
    requires RecentCase(cases).Ok?
    ensures DateOf(RecentCase(cases).value) == LatestDate(cases)
  {
    LatestDateSpec(cases);
    var m := MaxBy(cases).value;
    if KeyOf(cases[m]).DateTime? {
      assert DateOf(cases[m]).Some?;
    }
  }

  /** A row of the response. last_case_date is kept as the datetime; the
      response spells it with isoformat(). */
  datatype ClientRow = ClientRow(
    userEmail: Value,
    fullName: Value,
    phone: Value,
    location: Value,
    profileImageUrl: Value,
    isActive: bool,
    activeCases: int,
    completedCases: int,
    totalCases: int,
    recentCaseTitle: Value,
    recentCaseType: Value,
    recentCaseStatus: Value,
    lastCaseDate: Option<int>)

  /** dict.get(key, default). */
  function GetDefault(d: Document, key: string, default: Value): Value {
    if key in d then d[key] else default
  }

  function RowOf(info: ClientInfo, user: Document, recent: Document): ClientRow {
    ClientRow(info.userEmail, GetDefault(user, "full_name", Str("Unknown")),
              Get(user, "phone"), Get(user, "location"), Get(user, "profile_image_url"),
              info.activeCases > 0, info.activeCases, info.completedCases, info.totalCases,
              GetDefault(recent, "case_title", Str("")), GetDefault(recent, "case_type", Str("")),
              GetDefault(recent, "status", Str("")), info.lastCaseDate)
  }

  function UserWith(email: Value): Document -> bool {
    (u: Document) => Get(u, "email") == email
  }

  /** The status filter on clients: "active" keeps the clients with an active
      case, "past" those without one, anything else keeps all. */
  predicate Wanted(filter: Option<string>, isActive: bool) {
    (filter == Some("active") ==> isActive) && (filter == Some("past") ==> !isActive)
  }

  /** Whether the row loop emits a row for the client. */
  predicate Listed(info: ClientInfo, users: seq<Document>, filter: Option<string>) {
    FindOne(users, UserWith(info.userEmail)).Some? && Wanted(filter, info.activeCases > 0)
  }

  /** One client of the row loop over clients_data: a client without a
      user record, or outside the filter, is skipped, a listed one gets its
      row appended, and an exception ends the loop. */
  function AddRow(acc: Result<seq<ClientRow>, Failure>, info: ClientInfo, users: seq<Document>, filter: Option<string>)
    : Result<seq<ClientRow>, Failure>
  {
    match acc
    case Err(e) => Err(e)
    case Ok(rows) =>
      if !Listed(info, users, filter) then Ok(rows)
      else match RecentCase(info.cases)
        case Err(e) => Err(e)
        case Ok(recent) => Ok(rows + [RowOf(info, FindOne(users, UserWith(info.userEmail)).value, recent)])
  }

  function Rows(clients: seq<ClientInfo>, users: seq<Document>, filter: Option<string>): Result<seq<ClientRow>, Failure> {
    if clients == [] then Ok([])
    else AddRow(Rows(clients[..|clients| - 1], users, filter), clients[|clients| - 1], users, filter)
  }

  lemma RowsPrefix(clients: seq<ClientInfo>, users: seq<Document>, filter: Option<string>, j: nat)
    requires j < |clients|
    ensures Rows(clients[..j + 1], users, filter) == AddRow(Rows(clients[..j], users, filter), clients[j], users, filter)
  {
    assert clients[..j + 1][..j] == clients[..j];
  }

  lemma {:induction false} RowsFail(clients: seq<ClientInfo>, users: seq<Document>, filter: Option<string>, n: nat)
    requires n <= |clients| && Rows(clients[..n], users, filter) == Err(Unhandled)
    ensures Rows(clients, users, filter) == Err(Unhandled)
    decreases |clients| - n
  {
    if n < |clients| {
      var m := |clients| - 1;
      assert clients[..m][..n] == clients[..n];
      if n < m {
        RowsFail(clients[..m], users, filter, n);
      }
    } else {
      assert clients[..n] == clients;
    }
  }

  function RowDate(row: ClientRow): Option<int> {
    row.lastCaseDate
  }

  function LawyerIs(email: string): Document -> bool {
    (c: Document) => Get(c, "lawyer_email") == Str(email)
  }

  /** get_lawyer_clients: every exception becomes 500. */
  function LawyerClients(cases: seq<Document>, users: seq<Document>, lawyerEmail: string, status: Option<string>)
    : Result<seq<ClientRow>, Failure>
  {
    match Aggregate(Filter(cases, LawyerIs(lawyerEmail)))
    case Err(_) => Err(Http(500))
    case Ok(clients) =>
      match Rows(clients, users, StatusFilter(status))
      case Err(_) => Err(Http(500))
      case Ok(rows) => Ok(SortDesc(rows, RowDate))
  }

  /** The row a client gets when it has a user record and a most recent
      case. */
  ghost predicate RowFor(row: ClientRow, info: ClientInfo, users: seq<Document>) {
    FindOne(users, UserWith(info.userEmail)).Some? && RecentCase(info.cases).Ok? &&
    row == RowOf(info, FindOne(users, UserWith(info.userEmail)).value, RecentCase(info.cases).value)
  }

  ghost predicate FromListed(rows: seq<ClientRow>, clients: seq<ClientInfo>, users: seq<Document>, filter: Option<string>) {
    forall j :: 0 <= j < |rows| ==>
      exists k :: 0 <= k < |clients| && Listed(clients[k], users, filter) && RowFor(rows[j], clients[k], users)
  }

  /** Every row is the row of a listed client. */
  lemma {:induction false} RowsFromListed(clients: seq<ClientInfo>, users: seq<Document>, filter: Option<string>)
    requires Rows(clients, users, filter).Ok?
    ensures FromListed(Rows(clients, users, filter).value, clients, users, filter)
  {
    if clients != [] {
      var n := |clients| - 1;
      var init := clients[..n];
      RowsFromListed(init, users, filter);
      var before := Rows(init, users, filter).value;
      var rows := Rows(clients, users, filter).value;
      var info := clients[n];
      if Listed(info, users, filter) {
        assert RecentCase(info.cases).Ok?;
        assert rows == before + [RowOf(info, FindOne(users, UserWith(info.userEmail)).value, RecentCase(info.cases).value)];
      } else {
        assert rows == before;
      }
      forall j | 0 <= j < |rows|
        ensures exists k :: 0 <= k < |clients| && Listed(clients[k], users, filter) && RowFor(rows[j], clients[k], users)
      {
        if j < |before| {
          assert rows[j] == before[j];
          var k :| 0 <= k < |init| && Listed(init[k], users, filter) && RowFor(before[j], init[k], users);
          assert clients[k] == init[k];
        } else {
          assert RowFor(rows[j], clients[n], users);
        }
      }
      assert FromListed(rows, clients, users, filter);
    }
  }

  ghost predicate HasRowFor(rows: seq<ClientRow>, info: ClientInfo, users: seq<Document>) {
    exists j :: 0 <= j < |rows| && RowFor(rows[j], info, users)
  }

  /** Every listed client has a row. */
  lemma {:induction false} RowsComplete(clients: seq<ClientInfo>, users: seq<Document>, filter: Option<string>, k: nat)
    requires Rows(clients, users, filter).Ok?
    requires k < |clients| && Listed(clients[k], users, filter)
    ensures HasRowFor(Rows(clients, users, filter).value, clients[k], users)
  {
    var n := |clients| - 1;
    var init := clients[..n];
    RowsStep(clients, users, filter);
    var rows := Rows(clients, users, filter).value;
    var before := Rows(init, users, filter).value;
    var info := clients[k];
    if k < n {
      assert init[k] == info;
      RowsComplete(init, users, filter, k);
      var j :| 0 <= j < |before| && RowFor(before[j], info, users);
      assert rows[j] == rows[..|before|][j];
      assert RowFor(rows[j], info, users);
    } else {
      assert RowFor(rows[|before|], info, users);
    }
  }

  /** The last client adds at most one row, after the others, with its
      email. */
  lemma RowsStep(clients: seq<ClientInfo>, users: seq<Document>, filter: Option<string>)
    requires clients != [] && Rows(clients, users, filter).Ok?
    ensures Rows(clients[..|clients| - 1], users, filter).Ok?
    ensures var before := Rows(clients[..|clients| - 1], users, filter).value;
            var rows := Rows(clients, users, filter).value;
            |before| <= |rows| <= |before| + 1 && rows[..|before|] == before &&
            (|rows| > |before| ==> rows[|before|].userEmail == clients[|clients| - 1].userEmail) &&
            (Listed(clients[|clients| - 1], users, filter) <==> |rows| > |before|) &&
            (|rows| > |before| ==> RowFor(rows[|before|], clients[|clients| - 1], users))
  {
  }

  /** Every row carries the email of one of the clients. */
  lemma {:induction false} RowEmails(clients: seq<ClientInfo>, users: seq<Document>, filter: Option<string>)
    requires Rows(clients, users, filter).Ok?
    ensures var rows := Rows(clients, users, filter).value;
            forall j :: 0 <= j < |rows| ==> exists k :: 0 <= k < |clients| && rows[j].userEmail == clients[k].userEmail
  {
    if clients != [] {
      var n := |clients| - 1;
      var init := clients[..n];
      RowsStep(clients, users, filter);
      RowEmails(init, users, filter);
      var before := Rows(init, users, filter).value;
      var rows := Rows(clients, users, filter).value;
      forall j | 0 <= j < |rows| ensures exists k :: 0 <= k < |clients| && rows[j].userEmail == clients[k].userEmail {
        if j < |before| {
          assert rows[j] == rows[..|before|][j];
          var k :| 0 <= k < |init| && before[j].userEmail == init[k].userEmail;
          assert clients[k] == init[k];
        } else {
          assert rows[j].userEmail == clients[n].userEmail;
        }
      }
    }
  }

  /** No two rows are for the same client when no two entries are. */
  lemma {:induction false} RowsDistinct(clients: seq<ClientInfo>, users: seq<Document>, filter: Option<string>)
    requires Rows(clients, users, filter).Ok?
    requires forall k, m :: 0 <= k < m < |clients| ==> clients[k].userEmail != clients[m].userEmail
    ensures var rows := Rows(clients, users, filter).value;
            forall j, j' :: 0 <= j < j' < |rows| ==> rows[j].userEmail != rows[j'].userEmail
  {
    if clients != [] {
      var n := |clients| - 1;
      var init := clients[..n];
      RowsStep(clients, users, filter);
      RowsDistinct(init, users, filter);
      RowEmails(init, users, filter);
      var before := Rows(init, users, filter).value;
      var rows := Rows(clients, users, filter).value;
      forall j, j' | 0 <= j < j' < |rows| ensures rows[j].userEmail != rows[j'].userEmail {
        assert rows[j] == rows[..|before|][j];
        if j' >= |before| {
          var k :| 0 <= k < |init| && before[j].userEmail == init[k].userEmail;
          assert clients[k] == init[k];
        } else {
          assert rows[j'] == rows[..|before|][j'];
        }
      }
    }
  }

  /** What a row of get_lawyer_clients says about a client, read against the
      lawyer's cases: its counts are those of the client's cases (total =
      active + completed, active meaning status "ongoing" or "pending"), its
      last_case_date is the latest of their dates, and it has a user record
      and passes the filter. */
  ghost predicate Summarises(row: ClientRow, mine: seq<Document>, users: seq<Document>, filter: Option<string>) {
    var cs := Filter(mine, CaseOf(row.userEmail));
    PyTruthy(row.userEmail) && FindOne(users, UserWith(row.userEmail)).Some? &&
    row.totalCases == |cs| >= 1 &&
    row.activeCases == |Filter(cs, ActiveCase)| &&
    row.totalCases == row.activeCases + row.completedCases &&
    row.isActive == (row.activeCases > 0) && Wanted(filter, row.isActive) &&
    row.lastCaseDate == LatestDate(cs)
  }

  /** The rows are the client rows newest first, undated rows last, and each
      summarises one client's cases with the lawyer. */
  lemma LawyerClientsRows(cases: seq<Document>, users: seq<Document>, lawyerEmail: string, status: Option<string>)
    requires LawyerClients(cases, users, lawyerEmail, status).Ok?
    ensures var out := LawyerClients(cases, users, lawyerEmail, status).value;
            var mine := Filter(cases, LawyerIs(lawyerEmail));
            SortedDesc(out, RowDate) &&
            (forall j, j' :: 0 <= j < j' < |out| ==> out[j].userEmail != out[j'].userEmail) &&
            forall row :: row in out ==> Summarises(row, mine, users, StatusFilter(status))
  {
    var mine := Filter(cases, LawyerIs(lawyerEmail));
    var filter := StatusFilter(status);
    var clients := Aggregate(mine).value;
    AggregateGrouped(mine);
    RowsFromListed(clients, users, filter);
    RowsDistinct(clients, users, filter);
    var rows := Rows(clients, users, filter).value;
    var out := SortDesc(rows, RowDate);
    SortDescSorted(rows, RowDate);
    forall row | row in out ensures Summarises(row, mine, users, filter) {
      assert row in multiset(rows);
      RowSummarises(clients, mine, users, filter, row);
    }
    DistinctPermutation(rows, out);
  }

  lemma RowSummarises(clients: seq<ClientInfo>, mine: seq<Document>, users: seq<Document>, filter: Option<string>, row: ClientRow)
    requires Grouped(clients, mine)
    requires Rows(clients, users, filter).Ok? && FromListed(Rows(clients, users, filter).value, clients, users, filter)
    requires row in Rows(clients, users, filter).value
    ensures Summarises(row, mine, users, filter)
  {
    var rows := Rows(clients, users, filter).value;
    var j :| 0 <= j < |rows| && rows[j] == row;
    var k :| 0 <= k < |clients| && Listed(clients[k], users, filter) && RowFor(rows[j], clients[k], users);
    assert EntryOf(clients[k], mine);
  }

  /** Rows for distinct clients hold no row twice. */
  lemma {:induction false} DistinctOnce(rows: seq<ClientRow>, x: ClientRow)
    requires forall j, j' :: 0 <= j < j' < |rows| ==> rows[j].userEmail != rows[j'].userEmail
    ensures multiset(rows)[x] <= 1
  {
    if rows != [] {
      var init := rows[..|rows| - 1];
      DistinctOnce(init, x);
      assert rows == init + [rows[|rows| - 1]];
      if rows[|rows| - 1] == x {
        assert x !in init by {
          forall a | 0 <= a < |init| ensures init[a] != x {
            assert rows[a].userEmail != rows[|rows| - 1].userEmail;
          }
        }
      }
    }
  }

  /** A permutation of rows for distinct clients is for distinct clients. */
  lemma DistinctPermutation(rows: seq<ClientRow>, out: seq<ClientRow>)
    requires multiset(out) == multiset(rows)
    requires forall j, j' :: 0 <= j < j' < |rows| ==> rows[j].userEmail != rows[j'].userEmail
    ensures forall j, j' :: 0 <= j < j' < |out| ==> out[j].userEmail != out[j'].userEmail
  {
    forall j, j' | 0 <= j < j' < |out| ensures out[j].userEmail != out[j'].userEmail {
      var x, y := out[j], out[j'];
      DistinctOnce(rows, x);
      var front := out[..j'];
      assert out == front + [y] + out[j' + 1..];
      assert front[j] == x;
      assert multiset(out)[x] == multiset(front)[x] + multiset([y])[x] + multiset(out[j' + 1..])[x];
      assert x != y;
      assert x in multiset(rows) && y in multiset(rows);
      var a :| 0 <= a < |rows| && rows[a] == x;
      var b :| 0 <= b < |rows| && rows[b] == y;
      if a < b {
        assert rows[a].userEmail != rows[b].userEmail;
      } else {
        assert rows[b].userEmail != rows[a].userEmail;
      }
    }
  }

  /** Every client of the lawyer that has a user record and passes the filter
      gets a row. */
  lemma LawyerClientsComplete(cases: seq<Document>, users: seq<Document>, lawyerEmail: string, status: Option<string>, c: Document)
    requires LawyerClients(cases, users, lawyerEmail, status).Ok?
    requires var mine := Filter(cases, LawyerIs(lawyerEmail));
             var e := Get(c, "user_email");
             c in mine && PyTruthy(e) && FindOne(users, UserWith(e)).Some? &&
             Wanted(StatusFilter(status), |Filter(Filter(mine, CaseOf(e)), ActiveCase)| > 0)
    ensures exists row :: row in LawyerClients(cases, users, lawyerEmail, status).value && row.userEmail == Get(c, "user_email")
  {
    var mine := Filter(cases, LawyerIs(lawyerEmail));
    var filter := StatusFilter(status);
    var clients := Aggregate(mine).value;
    AggregateGrouped(mine);
    var rows := Rows(clients, users, filter).value;
    var out := SortDesc(rows, RowDate);
    SortDescSorted(rows, RowDate);
    var e := Get(c, "user_email");
    assert e in Emails(clients);
    var k :| 0 <= k < |clients| && Emails(clients)[k] == e;
    assert EntryOf(clients[k], mine);
    assert Listed(clients[k], users, filter);
    RowsComplete(clients, users, filter, k);
    var j :| 0 <= j < |rows| && RowFor(rows[j], clients[k], users);
    assert rows[j] in multiset(out);
  }

  // When get_lawyer_clients answers at all.

  /** A case the grouping loop gets through: it is skipped for want of a
      user_email, or its status is absent or a string, its user_email
      hashable and its date a datetime or falsy. */
  predicate Groupable(c: Document) {
    var email := Get(c, "user_email");
    !PyTruthy(email) || (CaseStatus(c).Ok? && Hashable(email) && CaseDate(c).Ok?)
  }

  /** The grouping raises exactly when one of the cases is not groupable. */
  lemma {:induction false} AggregateOk(cases: seq<Document>)
    ensures Aggregate(cases).Ok? <==> forall k :: 0 <= k < |cases| ==> Groupable(cases[k])
    ensures Aggregate(cases).Err? ==> Aggregate(cases) == Err(Unhandled)
  {
    if cases != [] {
      var init := cases[..|cases| - 1];
      AggregateOk(init);
      assert forall k :: 0 <= k < |init| ==> init[k] == cases[k];
    }
  }

  /** Every client the row loop lists has a most recent case. */
  predicate AllRecent(clients: seq<ClientInfo>, users: seq<Document>, filter: Option<string>) {
    forall k :: 0 <= k < |clients| && Listed(clients[k], users, filter) ==> RecentCase(clients[k].cases).Ok?
  }

  /** The row loop raises exactly when a listed client has no most recent
      case. */
  lemma {:induction false} RowsOk(clients: seq<ClientInfo>, users: seq<Document>, filter: Option<string>)
    ensures Rows(clients, users, filter).Ok? <==> AllRecent(clients, users, filter)
  {
    if clients != [] {
      var init := clients[..|clients| - 1];
      var last := clients[|clients| - 1];
      RowsOk(init, users, filter);
      assert clients == init + [last];
      assert AllRecent(clients, users, filter) <==>
             AllRecent(init, users, filter) && (Listed(last, users, filter) ==> RecentCase(last.cases).Ok?);
    }
  }

  /** max() over a client's cases has an answer: every key is read, and
      there is one case or the keys are of one ordered kind. */
  predicate MaxDefined(cs: seq<Document>) {
    AllKeys(cs) && (|cs| == 1 || OneClass(cs))
  }

  /** The client of case c gets a row: it has a user_email, a user record,
      and passes the status filter. */
  predicate ClientListed(c: Document, mine: seq<Document>, users: seq<Document>, filter: Option<string>) {
    var e := Get(c, "user_email");
    PyTruthy(e) && FindOne(users, UserWith(e)).Some? &&
    Wanted(filter, |Filter(Filter(mine, CaseOf(e)), ActiveCase)| > 0)
  }

  /** The entry of a listed client is read off its first case. */
  lemma ListedEntry(clients: seq<ClientInfo>, mine: seq<Document>, users: seq<Document>, filter: Option<string>, k: nat)
    requires Grouped(clients, mine) && k < |clients| && Listed(clients[k], users, filter)
    ensures clients[k].cases[0] in mine && ClientListed(clients[k].cases[0], mine, users, filter)
    ensures Filter(mine, CaseOf(Get(clients[k].cases[0], "user_email"))) == clients[k].cases
  {
    var info := clients[k];
    assert EntryOf(info, mine);
    FilterMembership(mine, CaseOf(info.userEmail), info.cases[0]);
  }

  /** The client of a listed case has an entry that the row loop lists. */
  lemma CaseEntry(clients: seq<ClientInfo>, mine: seq<Document>, users: seq<Document>, filter: Option<string>, c: Document)
    returns (k: nat)
    requires Grouped(clients, mine) && c in mine && ClientListed(c, mine, users, filter)
    ensures k < |clients| && Listed(clients[k], users, filter)
    ensures clients[k].cases == Filter(mine, CaseOf(Get(c, "user_email")))
  {
    var e := Get(c, "user_email");
    assert e in Emails(clients);
    k :| 0 <= k < |clients| && Emails(clients)[k] == e;
    assert EntryOf(clients[k], mine);
  }

  /** The same, read against the lawyer's cases. */
  predicate AllMaxDefined(mine: seq<Document>, users: seq<Document>, filter: Option<string>) {
    forall c :: c in mine && ClientListed(c, mine, users, filter) ==> MaxDefined(Filter(mine, CaseOf(Get(c, "user_email"))))
  }

  lemma MaxDefinedRecent(clients: seq<ClientInfo>, mine: seq<Document>, users: seq<Document>, filter: Option<string>)
    requires Grouped(clients, mine) && AllMaxDefined(mine, users, filter)
    ensures AllRecent(clients, users, filter)
  {
    forall k | 0 <= k < |clients| && Listed(clients[k], users, filter)
      ensures RecentCase(clients[k].cases).Ok?
    {
      ListedEntry(clients, mine, users, filter, k);
    }
  }

  lemma RecentMaxDefined(clients: seq<ClientInfo>, mine: seq<Document>, users: seq<Document>, filter: Option<string>)
    requires Grouped(clients, mine) && AllRecent(clients, users, filter)
    ensures AllMaxDefined(mine, users, filter)
  {
    forall c | c in mine && ClientListed(c, mine, users, filter)
      ensures MaxDefined(Filter(mine, CaseOf(Get(c, "user_email"))))
    {
      var k := CaseEntry(clients, mine, users, filter, c);
      assert RecentCase(clients[k].cases).Ok?;
    }
  }

  /** get_lawyer_clients answers exactly when every case of the lawyer is
      groupable and every listed client's cases have a most recent one;
      otherwise it answers 500. */
  lemma LawyerClientsOk(cases: seq<Document>, users: seq<Document>, lawyerEmail: string, status: Option<string>)
    ensures var mine := Filter(cases, LawyerIs(lawyerEmail));
            var filter := StatusFilter(status);
            LawyerClients(cases, users, lawyerEmail, status).Ok? <==>
              (forall c :: c in mine ==> Groupable(c)) && AllMaxDefined(mine, users, filter)
    ensures LawyerClients(cases, users, lawyerEmail, status).Err? ==>
            LawyerClients(cases, users, lawyerEmail, status) == Err(Http(500))
  {
    var mine := Filter(cases, LawyerIs(lawyerEmail));
    var filter := StatusFilter(status);
    AggregateOk(mine);
    assert (forall c :: c in mine ==> Groupable(c)) <==> forall k :: 0 <= k < |mine| ==> Groupable(mine[k]);
    if Aggregate(mine).Ok? {
      var clients := Aggregate(mine).value;
      AggregateGrouped(mine);
      RowsOk(clients, users, filter);
      if AllRecent(clients, users, filter) {
        RecentMaxDefined(clients, mine, users, filter);
      } else if AllMaxDefined(mine, users, filter) {
        MaxDefinedRecent(clients, mine, users, filter);
      }
    }
  }

  /** A client e-mail that is a list cannot key clients_data: the endpoint
      answers 500 even though a user record has that e-mail. */
  lemma UnhashableClientIs500()
    ensures LawyerClients([map["lawyer_email" := Str("l"), "user_email" := List([Str("a")])]],
                          [map["email" := List([Str("a")])]], "l", None) == Err(Http(500))
  {
    var c: Document := map["lawyer_email" := Str("l"), "user_email" := List([Str("a")])];
    assert Filter([c], LawyerIs("l")) == [c];
    assert Aggregate([c]) == AddCase([], c);
  }

  /** Two cases whose keys are both "" compare equal, so max() keeps the
      first; two cases with no date at all have the key None, which has no
      ordering, so max() raises. */
  lemma FalsyKeysCompare()
    ensures var c1: Document := map["creation_date" := Str(""), "case_title" := Str("a")];
            var c2: Document := map["creation_date" := Str(""), "case_title" := Str("b")];
            RecentCase([c1, c2]) == Ok(c1)
    ensures var d1: Document := map["case_title" := Str("a")];
            var d2: Document := map["case_title" := Str("b")];
            RecentCase([d1, d2]).Err?
  {
    var c1: Document := map["creation_date" := Str(""), "case_title" := Str("a")];
    var c2: Document := map["creation_date" := Str(""), "case_title" := Str("b")];
    assert [c1, c2][..1] == [c1];
    assert KeyOf(c1) == Str("") && KeyOf(c2) == Str("");
    assert MaxBy([c1, c2]) == Ok(0);
    var d1: Document := map["case_title" := Str("a")];
    var d2: Document := map["case_title" := Str("b")];
    assert [d1, d2][..1] == [d1];
    assert KeyOf(d1) == Null && KeyOf(d2) == Null;
  }

  /** One turn of the grouping loop: the defaultdict entry of the case's
      client gets its counters updated in place. */
  method GroupCase(clients: seq<ClientInfo>, c: Document) returns (r: Result<seq<ClientInfo>, Failure>)
    ensures r == AddCase(clients, c)
  {
    var email := Get(c, "user_email");
    if !PyTruthy(email) {
      return Ok(clients);
    }
    var st := CaseStatus(c);
    if st.Err? {
      return Err(st.error);
    }
    if !Hashable(email) {
      return Err(Unhandled);
    }
    var date := CaseDate(c);
    if date.Err? {
      return Err(date.error);
    }
    var k := FindFirst(clients, ClientIs(email));
    var entry := if k.None? then NewClient(email) else clients[k.value];
    var info := entry.(cases := entry.cases + [c], totalCases := entry.totalCases + 1);
    if IsActiveStatus(st.value) {
      info := info.(activeCases := info.activeCases + 1);
    } else {
      info := info.(completedCases := info.completedCases + 1);
    }
    if date.value.Some? && (info.lastCaseDate.None? || date.value.value > info.lastCaseDate.value) {
      info := info.(lastCaseDate := date.value);
    }
    assert info == Record(entry, c, IsActiveStatus(st.value), date.value);
    if k.None? {
      r := Ok(clients + [info]);
    } else {
      r := Ok(clients[k.value := info]);
    }
  }

  /** The grouping loop. */
  method GroupCases(mine: seq<Document>) returns (r: Result<seq<ClientInfo>, Failure>)
    ensures r == Aggregate(mine)
  {
    var clients: seq<ClientInfo> := [];
    var i := 0;
    while i < |mine|
      invariant 0 <= i <= |mine|
      invariant Aggregate(mine[..i]) == Ok(clients)
    {
      assert mine[..i + 1][..i] == mine[..i];
      var next := GroupCase(clients, mine[i]);
      if next.Err? {
        assert Aggregate(mine[..i + 1]) == next;
        assert next.error == Unhandled;
        AggregateFails(mine, i + 1);
        return Err(Unhandled);
      }
      clients := next.value;
      i := i + 1;
    }
    assert mine[..|mine|] == mine;
    r := Ok(clients);
  }

  /** The row loop. */
  method BuildRows(clients: seq<ClientInfo>, users: seq<Document>, filter: Option<string>)
    returns (r: Result<seq<ClientRow>, Failure>)
    ensures r == Rows(clients, users, filter)
  {
    var rows: seq<ClientRow> := [];
    var j := 0;
    while j < |clients|
      invariant 0 <= j <= |clients|
      invariant Rows(clients[..j], users, filter) == Ok(rows)
    {
      var info := clients[j];
      RowsPrefix(clients, users, filter, j);
      var user := FindOne(users, UserWith(info.userEmail));
      if user.Some? && Wanted(filter, info.activeCases > 0) {
        var recent := RecentCase(info.cases);
        if recent.Err? {
          RowsFail(clients, users, filter, j + 1);
          return Err(Unhandled);
        }
        rows := rows + [RowOf(info, user.value, recent.value)];
      }
      j := j + 1;
    }
    assert clients[..|clients|] == clients;
    r := Ok(rows);
  }

  method GetLawyerClients(cases: seq<Document>, users: seq<Document>, lawyerEmail: string, status: Option<string>)
    returns (r: Result<seq<ClientRow>, Failure>)
    ensures r == LawyerClients(cases, users, lawyerEmail, status)
  {
    var grouped := GroupCases(Filter(cases, LawyerIs(lawyerEmail)));
    if grouped.Err? {
      return Err(Http(500));
    }
    var rows := BuildRows(grouped.value, users, StatusFilter(status));
    if rows.Err? {
      return Err(Http(500));
    }
    r := Ok(SortDesc(rows.value, RowDate));
  }
}
