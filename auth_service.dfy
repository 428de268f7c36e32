/** AuthService: registration, login, token refresh, password change and the
    password-reset-code lifecycle over the "users", "lawyers" and
    "password_reset_codes" collections.

    Each operation is a method that changes the database step by step as the
    service does, proved equal to a function of the old tables; the lemmas
    about those functions carry the service's promises. The argon2 hash of a
    new password, a fresh ObjectId, the random reset code and the clock are
    parameters. */
module AuthService {
  import opened Wrappers
  import opened Strings
  import opened Collections
  import opened Values
  import opened Store
  import opened Security
  import opened Dependencies
  import opened UserSchema

  /** Minutes a reset code stays valid, in seconds. */
  const ResetCodeLifetime: int := 15 * 60

  datatype AuthTables = AuthTables(users: seq<Account>, lawyers: seq<Account>, resetCodes: seq<ResetCode>)

  function TablesOf(db: Database): AuthTables
    reads db`users, db`lawyers, db`resetCodes
  {
    AuthTables(db.users, db.lawyers, db.resetCodes)
  }

  /** find_one({"email": email}) on one collection. */
  function FindAccountByEmail(s: seq<Account>, email: string): Option<Account> {
    FindOne(s, (a: Account) => a.email == email)
  }

  /** The account with that email: the users' one if there is one, else the lawyers'. */
  function LookupByEmail(users: seq<Account>, lawyers: seq<Account>, email: string): (r: Option<Account>)
    ensures r.Some? ==> r.value.email == email && (r.value in users || r.value in lawyers)
    ensures r.None? <==> (forall a :: a in users ==> a.email != email) && (forall a :: a in lawyers ==> a.email != email)
  {
    var inUsers := FindAccountByEmail(users, email);
    if inUsers.Some? then inUsers else FindAccountByEmail(lawyers, email)
  }

  /** No email belongs to two accounts, across both collections. */
  ghost predicate UniqueEmails(t: AuthTables) {
    var all := t.users + t.lawyers;
    forall i, j :: 0 <= i < |all| && 0 <= j < |all| && i != j ==> all[i].email != all[j].email
  }

  // ---------------------------------------------------------------------------
  // register_user

  /** The document register_user stores. */
  function NewAccount(data: UserRegister, hashed: string, now: int, id: string): Account {
    var lawyer :=
      if data.role == "lawyer" then
        Some(LawyerFields(OrEmpty(data.licenseId), OrEmpty(data.specialization),
                          data.yearsOfExperience.GetOr(0), OrEmpty(data.bio), 0.0, 0))
      else None;
    Account(id, data.email, hashed, data.fullName, data.role, true, true, true, now, now,
            data.phone, data.location, data.education, data.achievements, lawyer)
  }

  predicate MissingLawyerFields(data: UserRegister) {
    data.role == "lawyer" && (!Truthy(data.licenseId) || !Truthy(data.specialization))
  }

  function Register(t: AuthTables, data: UserRegister, hashed: string, now: int, id: string): (AuthTables, Result<Account, Failure>) {
    if LookupByEmail(t.users, t.lawyers, data.email).Some? then (t, Err(Http(400)))
    else if MissingLawyerFields(data) then (t, Err(Http(400)))
    else
      var a := NewAccount(data, hashed, now, id);
      if data.role == "lawyer" then (t.(lawyers := t.lawyers + [a]), Ok(a))
      else (t.(users := t.users + [a]), Ok(a))
  }

  method RegisterUser(db: Database, data: UserRegister, hashed: string, now: int, newId: string)
    returns (r: Result<Account, Failure>)
    modifies db`users, db`lawyers
    ensures (TablesOf(db), r) == Register(old(TablesOf(db)), data, hashed, now, newId)
  {
    var existing := FindAccountByEmail(db.users, data.email);
    if existing.None? {
      existing := FindAccountByEmail(db.lawyers, data.email);
    }
    if existing.Some? {
      return Err(Http(400));
    }
    if data.role == "lawyer" {
      if !Truthy(data.licenseId) || !Truthy(data.specialization) {
        return Err(Http(400));
      }
    }
    var account := NewAccount(data, hashed, now, newId);
    if data.role == "lawyer" {
      db.lawyers := db.lawyers + [account];
    } else {
      db.users := db.users + [account];
    }
    return Ok(account);
  }

  /** A taken email (in either collection) and a lawyer without a non-empty
      license id and specialization are refused with 400 and store nothing. */
  lemma RegisterRefusals(t: AuthTables, data: UserRegister, hashed: string, now: int, id: string)
    ensures var (t2, r) := Register(t, data, hashed, now, id);
            (r.Err? <==> LookupByEmail(t.users, t.lawyers, data.email).Some? || MissingLawyerFields(data)) &&
            (r.Err? ==> r == Err(Http(400)) && t2 == t)
    ensures (exists a :: a in t.users + t.lawyers && a.email == data.email) ==> Register(t, data, hashed, now, id).1.Err?
  {
    if exists a :: a in t.users + t.lawyers && a.email == data.email {
      var a :| a in t.users + t.lawyers && a.email == data.email;
      assert a in t.users || a in t.lawyers;
    }
  }

  /** A registration appends exactly one account, to "lawyers" exactly when
      the role is "lawyer"; it is active, verified and approved, and a lawyer
      starts with rating 0.0, no cases, the given experience or 0 and the
      given bio or "". The reset codes are never touched. */
  lemma RegisterStores(t: AuthTables, data: UserRegister, hashed: string, now: int, id: string)
    requires Register(t, data, hashed, now, id).1.Ok?
    ensures var (t2, r) := Register(t, data, hashed, now, id);
            var a := r.value;
            a.email == data.email && a.id == id && a.role == data.role && a.hashedPassword == hashed &&
            a.isActive && a.isVerified && a.isApproved &&
            (data.role == "lawyer" ==>
               (t2.lawyers == t.lawyers + [a] && t2.users == t.users &&
                a.lawyer == Some(LawyerFields(data.licenseId.value, data.specialization.value,
                                              data.yearsOfExperience.GetOr(0), OrEmpty(data.bio), 0.0, 0)))) &&
            (data.role != "lawyer" ==> t2.users == t.users + [a] && t2.lawyers == t.lawyers && a.lawyer.None?) &&
            t2.resetCodes == t.resetCodes
  {
  }

  ghost predicate DistinctEmails(all: seq<Account>) {
    forall i, j :: 0 <= i < |all| && 0 <= j < |all| && i != j ==> all[i].email != all[j].email
  }

  /** Putting an account with a new email anywhere keeps the emails distinct. */
  lemma InsertFresh(xs: seq<Account>, ys: seq<Account>, a: Account)
    requires DistinctEmails(xs + ys)
    requires forall k :: 0 <= k < |xs + ys| ==> (xs + ys)[k].email != a.email
    ensures DistinctEmails(xs + [a] + ys)
  {
    var all, all2 := xs + ys, xs + [a] + ys;
    var u := |xs|;
    forall i, j | 0 <= i < |all2| && 0 <= j < |all2| && i != j
      ensures all2[i].email != all2[j].email
    {
      assert forall k :: 0 <= k < u ==> all2[k] == all[k];
      assert forall k :: u < k < |all2| ==> all2[k] == all[k - 1];
      assert all2[u] == a;
    }
  }

  /** Registration keeps every email unique across both collections. */
  lemma RegisterKeepsEmailsUnique(t: AuthTables, data: UserRegister, hashed: string, now: int, id: string)
    requires UniqueEmails(t)
    ensures UniqueEmails(Register(t, data, hashed, now, id).0)
  {
    var (t2, r) := Register(t, data, hashed, now, id);
    if r.Ok? {
      var a := r.value;
      var all := t.users + t.lawyers;
      assert DistinctEmails(all);
      forall k | 0 <= k < |all| ensures all[k].email != a.email {
        assert all[k] in t.users || all[k] in t.lawyers;
      }
      if data.role == "lawyer" {
        InsertFresh(all, [], a);
        assert t2.users + t2.lawyers == all + [a] + [];
      } else {
        InsertFresh(t.users, t.lawyers, a);
        assert t2.users + t2.lawyers == t.users + [a] + t.lawyers;
      }
      assert DistinctEmails(t2.users + t2.lawyers);
    }
  }

  // ---------------------------------------------------------------------------
  // authenticate_user and refresh_access_token (they change nothing)

  function Authenticate(t: AuthTables, email: string, password: string, check: (string, string) -> HashCheck): Option<Account> {
    match LookupByEmail(t.users, t.lawyers, email)
    case None => None
    case Some(user) => if VerifyPassword(check, password, user.hashedPassword) then Some(user) else None
  }

  /** authenticate_user: None for an unknown email and for a password that
      does not check against the stored hash; otherwise the account with that
      email, the users' one first. */
  lemma AuthenticateSpec(t: AuthTables, email: string, password: string, check: (string, string) -> HashCheck)
    ensures var r := Authenticate(t, email, password, check);
            (r.Some? <==> LookupByEmail(t.users, t.lawyers, email).Some? &&
                          check(LookupByEmail(t.users, t.lawyers, email).value.hashedPassword, password) == Matched) &&
            (r.Some? ==> r.value.email == email && (r.value in t.users || r.value in t.lawyers) &&
                         ((exists a :: a in t.users && a.email == email) ==> r.value in t.users))
  {
  }

  /** refresh_access_token: 401 unless the token verifies as a refresh token
      and names an active account; a malformed id is an InvalidId error (500).
      The new token is an access token for the same subject. */
  function RefreshAccessToken(t: AuthTables, token: Token, now: int): Result<Token, Failure> {
    match VerifyToken(token, "refresh", now)
    case None => Err(Http(401))
    case Some(sub) =>
      match ParseObjectId(sub)
      case None => Err(Unhandled)
      case Some(oid) =>
        match LookupById(t.users, t.lawyers, oid)
        case None => Err(Http(401))
        case Some(user) =>
          if !user.isActive then Err(Http(401))
          else Ok(CreateAccessToken(map["sub" := Str(sub)], None, now))
  }

  /** A token that does not verify as a refresh token is 401; a verified
      subject that is not an ObjectId raises InvalidId; a verified id is 401
      unless it names an active account, and then the answer is a new access
      token for the same subject. */
  lemma RefreshSpec(t: AuthTables, token: Token, now: int)
    ensures var r := RefreshAccessToken(t, token, now);
            var sub := VerifyToken(token, "refresh", now);
            (sub.None? ==> r == Err(Http(401))) &&
            (sub.Some? && ParseObjectId(sub.value).None? ==> r == Err(Unhandled)) &&
            (sub.Some? && ParseObjectId(sub.value).Some? ==>
               var user := LookupById(t.users, t.lawyers, ParseObjectId(sub.value).value);
               (r.Ok? <==> user.Some? && user.value.isActive) &&
               (r.Err? ==> r == Err(Http(401)))) &&
            (r.Ok? ==> var sub := VerifyToken(token, "refresh", now).value;
                       VerifyToken(r.value, "access", now) == Some(sub) &&
                       VerifyToken(r.value, "refresh", now) == None &&
                       LookupById(t.users, t.lawyers, ParseObjectId(sub).value).value.isActive)
  {
    var r := RefreshAccessToken(t, token, now);
    if r.Ok? {
      var sub := VerifyToken(token, "refresh", now).value;
      AccessTokenRoundTrip(sub, None, now, now, "refresh");
    }
  }

  /** An access token is refused where a refresh token is required. */
  lemma RefreshRefusesAccessToken(t: AuthTables, id: string, issued: int, now: int)
    ensures RefreshAccessToken(t, CreateAccessToken(map["sub" := Str(id)], None, issued), now) == Err(Http(401))
  {
    AccessTokenRoundTrip(id, None, issued, now, "refresh");
  }

  // ---------------------------------------------------------------------------
  // change_password

  function NewPassword(hashed: string, now: int): Account -> Account {
    (a: Account) => a.(hashedPassword := hashed, updatedAt := now)
  }

  /** The $set of a new password hash and updated_at on the account with that id. */
  function SetPassword(s: seq<Account>, id: string, hashed: string, now: int): seq<Account> {
    UpdateFirst(s, HasId(id), NewPassword(hashed, now))
  }

  /** The first account with the id gets the new hash and updated_at and
      keeps every other field; every other account is left as it was, and
      without such an account nothing changes. */
  lemma SetPasswordSpec(s: seq<Account>, id: string, hashed: string, now: int)
    ensures var r := SetPassword(s, id, hashed, now);
            var first := FindFirst(s, HasId(id));
            |r| == |s| &&
            (first.None? ==> r == s && forall a :: a in s ==> a.id != id) &&
            (first.Some? ==>
               var i := first.value;
               s[i].id == id && (forall j :: 0 <= j < i ==> s[j].id != id) &&
               r[i] == s[i].(hashedPassword := hashed, updatedAt := now) &&
               forall j :: 0 <= j < |s| && j != i ==> r[j] == s[j])
  {
    var first := FindFirst(s, HasId(id));
    if first.None? {
      forall a | a in s ensures a.id != id {
        var j :| 0 <= j < |s| && s[j] == a;
        assert !HasId(id)(s[j]);
      }
    } else {
      var i := first.value;
      assert HasId(id)(s[i]);
      forall j | 0 <= j < i ensures s[j].id != id {
        assert !HasId(id)(s[j]);
      }
    }
  }

  /** The first account with the id in one collection is the account
      find_one returns for that id. */
  lemma FirstWithId(s: seq<Account>, id: string)
    ensures FindAccountById(s, id).Some? <==> FindFirst(s, HasId(id)).Some?
    ensures FindAccountById(s, id).Some? ==> FindAccountById(s, id).value == s[FindFirst(s, HasId(id)).value]
  {
  }

  function ChangePassword(t: AuthTables, userId: string, oldPassword: string, check: (string, string) -> HashCheck,
                          hashed: string, now: int): (AuthTables, Result<bool, Failure>) {
    match ParseObjectId(userId)
    case None => (t, Err(Unhandled))
    case Some(oid) =>
      var inUsers := FindAccountById(t.users, oid);
      var found := if inUsers.Some? then inUsers else FindAccountById(t.lawyers, oid);
      if found.None? then (t, Err(Http(404)))
      else if !VerifyPassword(check, oldPassword, found.value.hashedPassword) then (t, Err(Http(400)))
      else if inUsers.Some? then (t.(users := SetPassword(t.users, found.value.id, hashed, now)), Ok(true))
      else (t.(lawyers := SetPassword(t.lawyers, found.value.id, hashed, now)), Ok(true))
  }

  method ChangePasswordIn(db: Database, userId: string, oldPassword: string, check: (string, string) -> HashCheck,
                          hashed: string, now: int) returns (r: Result<bool, Failure>)
    modifies db`users, db`lawyers
    ensures (TablesOf(db), r) == ChangePassword(old(TablesOf(db)), userId, oldPassword, check, hashed, now)
  {
    var oid := ParseObjectId(userId);
    if oid.None? {
      return Err(Unhandled);
    }
    var user := FindAccountById(db.users, oid.value);
    var inUsers := true;
    if user.None? {
      user := FindAccountById(db.lawyers, oid.value);
      inUsers := false;
    }
    if user.None? {
      return Err(Http(404));
    }
    if !VerifyPassword(check, oldPassword, user.value.hashedPassword) {
      return Err(Http(400));
    }
    if inUsers {
      db.users := SetPassword(db.users, user.value.id, hashed, now);
    } else {
      db.lawyers := SetPassword(db.lawyers, user.value.id, hashed, now);
    }
    return Ok(true);
  }

  /** change_password: a malformed id raises InvalidId, an id in neither
      collection is 404, an old password that does not check against the
      stored hash is 400, and each failure changes nothing. Otherwise the
      answer is True and the account with that id gets the new hash, in the
      collection it was found in ("users" first); everything else stays. */
  lemma ChangePasswordSpec(t: AuthTables, userId: string, oldPassword: string, check: (string, string) -> HashCheck,
                           hashed: string, now: int)
    ensures var (t2, r) := ChangePassword(t, userId, oldPassword, check, hashed, now);
            var oid := ParseObjectId(userId);
            var found := if oid.Some? then LookupById(t.users, t.lawyers, oid.value) else None;
            (r.Err? ==> t2 == t) &&
            (r == Err(Unhandled) <==> oid.None?) &&
            (r == Err(Http(404)) <==> oid.Some? && found.None?) &&
            (r == Err(Http(400)) <==> found.Some? && !VerifyPassword(check, oldPassword, found.value.hashedPassword)) &&
            (r.Ok? <==> found.Some? && check(found.value.hashedPassword, oldPassword) == Matched) &&
            (r.Ok? ==>
               r.value && t2.resetCodes == t.resetCodes &&
               (FindAccountById(t.users, oid.value).Some? ==>
                  t2.users == SetPassword(t.users, oid.value, hashed, now) && t2.lawyers == t.lawyers) &&
               (FindAccountById(t.users, oid.value).None? ==>
                  t2.users == t.users && t2.lawyers == SetPassword(t.lawyers, oid.value, hashed, now)) &&
               (exists a :: a in t2.users + t2.lawyers && a == found.value.(hashedPassword := hashed, updatedAt := now)))
  {
    var (t2, r) := ChangePassword(t, userId, oldPassword, check, hashed, now);
    if r.Ok? {
      var oid := ParseObjectId(userId).value;
      var user := LookupById(t.users, t.lawyers, oid).value;
      FirstWithId(t.users, oid);
      FirstWithId(t.lawyers, oid);
      if FindAccountById(t.users, oid).Some? {
        SetPasswordSpec(t.users, oid, hashed, now);
        var i := FindFirst(t.users, HasId(oid)).value;
        assert t2.users[i] in t2.users + t2.lawyers;
      } else {
        SetPasswordSpec(t.lawyers, oid, hashed, now);
        var i := FindFirst(t.lawyers, HasId(oid)).value;
        assert t2.lawyers[i] in t2.users + t2.lawyers;
      }
    }
  }

  // ---------------------------------------------------------------------------
  // request_password_reset and verify_and_reset_password

  /** At most one unused reset code per email. */
  ghost predicate AtMostOneUnused(codes: seq<ResetCode>) {
    forall i, j :: 0 <= i < |codes| && 0 <= j < |codes| && i != j && !codes[i].used && !codes[j].used ==>
      codes[i].email != codes[j].email
  }

  ghost predicate UniqueCodeIds(codes: seq<ResetCode>) {
    forall i, j :: 0 <= i < |codes| && 0 <= j < |codes| && i != j ==> codes[i].id != codes[j].id
  }

  function UnusedFor(email: string): ResetCode -> bool {
    (c: ResetCode) => c.email == email && !c.used
  }

  /** The stored codes after a request for a known email: the email's unused
      codes deleted, then the new code appended. */
  function ReissueCode(codes: seq<ResetCode>, email: string, code: string, now: int, id: string): seq<ResetCode> {
    DeleteWhere(codes, UnusedFor(email)) + [ResetCode(id, email, code, now, now + ResetCodeLifetime, false)]
  }

  /** As the service is written, the send happens after the insert; `sent`
      says whether email_service's send call returns. */
  function RequestReset(t: AuthTables, email: string, code: string, now: int, id: string, sent: bool)
    : (AuthTables, Result<bool, Failure>) {
    if LookupByEmail(t.users, t.lawyers, email).None? then (t, Ok(true))
    else (t.(resetCodes := ReissueCode(t.resetCodes, email, code, now, id)), if sent then Ok(true) else Err(Http(500)))
  }

  method RequestPasswordReset(db: Database, email: string, code: string, now: int, newId: string, sent: bool)
    returns (r: Result<bool, Failure>)
    modifies db`resetCodes
    ensures (TablesOf(db), r) == RequestReset(old(TablesOf(db)), email, code, now, newId, sent)
  {
    var user := FindAccountByEmail(db.users, email);
    if user.None? {
      user := FindAccountByEmail(db.lawyers, email);
    }
    if user.None? {
      return Ok(true);
    }
    var resetData := ResetCode(newId, email, code, now, now + ResetCodeLifetime, false);
    db.resetCodes := DeleteWhere(db.resetCodes, UnusedFor(email));
    db.resetCodes := db.resetCodes + [resetData];
    if !sent {
      return Err(Http(500));
    }
    return Ok(true);
  }

  /** An unknown email answers True and changes no table; a known one gets
      exactly one new unused code valid for 15 minutes, and a failed send is
      a 500 that leaves that code stored. */
  lemma RequestResetSpec(t: AuthTables, email: string, code: string, now: int, id: string, sent: bool)
    ensures var (t2, r) := RequestReset(t, email, code, now, id, sent);
            t2.users == t.users && t2.lawyers == t.lawyers &&
            (LookupByEmail(t.users, t.lawyers, email).None? ==> t2 == t && r == Ok(true)) &&
            (LookupByEmail(t.users, t.lawyers, email).Some? ==>
               |t2.resetCodes| > 0 && t2.resetCodes[|t2.resetCodes| - 1] == ResetCode(id, email, code, now, now + 900, false) &&
               (r == Ok(true) <==> sent) && (!sent ==> r == Err(Http(500))) &&
               forall c :: c in t2.resetCodes && c.email == email && !c.used ==> c.id == id && c.code == code)
  {
    if LookupByEmail(t.users, t.lawyers, email).Some? {
      var kept := DeleteWhere(t.resetCodes, UnusedFor(email));
      var issued := ResetCode(id, email, code, now, now + ResetCodeLifetime, false);
      assert ReissueCode(t.resetCodes, email, code, now, id) == kept + [issued];
      forall c | c in kept + [issued] && c.email == email && !c.used
        ensures c.id == id && c.code == code
      {
        if c in kept {
          DeleteWhereMembership(t.resetCodes, UnusedFor(email), c);
        }
      }
    }
  }

  /** Issuing a code keeps at most one unused code per email. */
  lemma ReissueKeepsOneUnused(codes: seq<ResetCode>, email: string, code: string, now: int, id: string)
    requires AtMostOneUnused(codes)
    ensures AtMostOneUnused(ReissueCode(codes, email, code, now, id))
  {
    var kept := DeleteWhere(codes, UnusedFor(email));
    var all := ReissueCode(codes, email, code, now, id);
    forall i, j | 0 <= i < |all| && 0 <= j < |all| && i != j && !all[i].used && !all[j].used
      ensures all[i].email != all[j].email
    {
      if i < |kept| && j < |kept| {
        KeptPairDistinct(codes, email, i, j);
      } else if i < |kept| {
        assert !UnusedFor(email)(kept[i]);
      } else {
        assert !UnusedFor(email)(kept[j]);
      }
    }
  }

  /** Issuing a code under an id no stored code has keeps the ids distinct. */
  lemma ReissueKeepsIdsUnique(codes: seq<ResetCode>, email: string, code: string, now: int, id: string)
    requires UniqueCodeIds(codes)
    requires forall c :: c in codes ==> c.id != id
    ensures UniqueCodeIds(ReissueCode(codes, email, code, now, id))
  {
    var kept := DeleteWhere(codes, UnusedFor(email));
    var all := ReissueCode(codes, email, code, now, id);
    forall i, j | 0 <= i < |all| && 0 <= j < |all| && i != j
      ensures all[i].id != all[j].id
    {
      if i < |kept| && j < |kept| {
        SubsequenceOfFilter(codes, Not(UnusedFor(email)), i, j);
      } else if i < |kept| {
        FilterMembership(codes, Not(UnusedFor(email)), kept[i]);
      } else {
        FilterMembership(codes, Not(UnusedFor(email)), kept[j]);
      }
    }
  }

  /** Two unused codes left after the deletion came from two positions of the
      original list, so their emails differ. */
  lemma KeptPairDistinct(codes: seq<ResetCode>, email: string, i: nat, j: nat)
    requires AtMostOneUnused(codes)
    requires var kept := DeleteWhere(codes, UnusedFor(email));
             i < |kept| && j < |kept| && i != j && !kept[i].used && !kept[j].used
    ensures var kept := DeleteWhere(codes, UnusedFor(email));
            kept[i].email != kept[j].email
  {
    var kept := DeleteWhere(codes, UnusedFor(email));
    SubsequenceOfFilter(codes, Not(UnusedFor(email)), i, j);
  }

  /** The code a reset accepts: that email and code, unused and not expired. */
  function Redeemable(email: string, code: string, now: int): ResetCode -> bool {
    (c: ResetCode) => c.email == email && c.code == code && !c.used && c.expiresAt > now
  }

  function MarkUsed(codes: seq<ResetCode>, id: string): seq<ResetCode> {
    UpdateFirst(codes, (c: ResetCode) => c.id == id, (c: ResetCode) => c.(used := true))
  }

  function VerifyAndReset(t: AuthTables, email: string, code: string, hashed: string, now: int)
    : (AuthTables, Result<bool, Failure>) {
    match FindOne(t.resetCodes, Redeemable(email, code, now))
    case None => (t, Err(Http(400)))
    case Some(rc) =>
      var inUsers := FindAccountByEmail(t.users, email);
      var found := if inUsers.Some? then inUsers else FindAccountByEmail(t.lawyers, email);
      if found.None? then (t, Err(Http(404)))
      else
        var t1 := if inUsers.Some? then t.(users := SetPassword(t.users, found.value.id, hashed, now))
                  else t.(lawyers := SetPassword(t.lawyers, found.value.id, hashed, now));
        (t1.(resetCodes := MarkUsed(t.resetCodes, rc.id)), Ok(true))
  }

  method VerifyAndResetPassword(db: Database, email: string, code: string, hashed: string, now: int)
    returns (r: Result<bool, Failure>)
    modifies db`users, db`lawyers, db`resetCodes
    ensures (TablesOf(db), r) == VerifyAndReset(old(TablesOf(db)), email, code, hashed, now)
  {
    var resetCode := FindOne(db.resetCodes, Redeemable(email, code, now));
    if resetCode.None? {
      return Err(Http(400));
    }
    var user := FindAccountByEmail(db.users, email);
    var inUsers := true;
    if user.None? {
      user := FindAccountByEmail(db.lawyers, email);
      inUsers := false;
    }
    if user.None? {
      return Err(Http(404));
    }
    if inUsers {
      db.users := SetPassword(db.users, user.value.id, hashed, now);
    } else {
      db.lawyers := SetPassword(db.lawyers, user.value.id, hashed, now);
    }
    db.resetCodes := MarkUsed(db.resetCodes, resetCode.value.id);
    return Ok(true);
  }

  /** verify_and_reset_password: 400 with nothing changed when no stored
      code for that email and code is unused and unexpired; 404 with nothing
      changed when there is one but the email has no account; otherwise True,
      the account's collection ("users" first) gets the new hash on the
      first account with that account's id, the first redeemable code is
      marked used, and nothing else changes. */
  lemma VerifyAndResetSpec(t: AuthTables, email: string, code: string, hashed: string, now: int)
    ensures var (t2, r) := VerifyAndReset(t, email, code, hashed, now);
            var redeemable := exists c :: c in t.resetCodes && Redeemable(email, code, now)(c);
            var user := LookupByEmail(t.users, t.lawyers, email);
            (r.Err? ==> t2 == t && (r.error == Http(400) || r.error == Http(404))) &&
            (r == Err(Http(400)) <==> !redeemable) &&
            (r == Err(Http(404)) <==> redeemable && user.None?) &&
            (r.Ok? <==> redeemable && user.Some?) &&
            (r.Ok? ==>
               var rc := FindOne(t.resetCodes, Redeemable(email, code, now)).value;
               r.value && rc.email == email && rc.code == code && !rc.used && rc.expiresAt > now &&
               t2.resetCodes == MarkUsed(t.resetCodes, rc.id) &&
               (FindAccountByEmail(t.users, email).Some? ==>
                  t2.users == SetPassword(t.users, user.value.id, hashed, now) && t2.lawyers == t.lawyers) &&
               (FindAccountByEmail(t.users, email).None? ==>
                  t2.users == t.users && t2.lawyers == SetPassword(t.lawyers, user.value.id, hashed, now)))
  {
    var (t2, r) := VerifyAndReset(t, email, code, hashed, now);
    var found := FindOne(t.resetCodes, Redeemable(email, code, now));
    if found.Some? {
      assert found.value in t.resetCodes && Redeemable(email, code, now)(found.value);
    } else {
      forall c | c in t.resetCodes ensures !Redeemable(email, code, now)(c) {
        var j :| 0 <= j < |t.resetCodes| && t.resetCodes[j] == c;
      }
    }
  }

  ghost predicate DistinctIds(s: seq<Account>) {
    forall i, j :: 0 <= i < |s| && 0 <= j < |s| && i != j ==> s[i].id != s[j].id
  }

  /** With _id unique in each collection, as MongoDB's _id index keeps it, a
      successful reset stores the new hash on exactly the account the email
      names, keeps its other fields and changes no other account. */
  lemma VerifyAndResetStoresHash(t: AuthTables, email: string, code: string, hashed: string, now: int)
    requires DistinctIds(t.users) && DistinctIds(t.lawyers)
    requires VerifyAndReset(t, email, code, hashed, now).1.Ok?
    ensures var t2 := VerifyAndReset(t, email, code, hashed, now).0;
            var user := LookupByEmail(t.users, t.lawyers, email).value;
            var updated := user.(hashedPassword := hashed, updatedAt := now);
            updated in t2.users + t2.lawyers &&
            |t2.users| == |t.users| && |t2.lawyers| == |t.lawyers| &&
            (forall k :: 0 <= k < |t.users| && t.users[k] != user ==> t2.users[k] == t.users[k]) &&
            (forall k :: 0 <= k < |t.lawyers| && t.lawyers[k] != user ==> t2.lawyers[k] == t.lawyers[k])
  {
    var t2 := VerifyAndReset(t, email, code, hashed, now).0;
    var user := LookupByEmail(t.users, t.lawyers, email).value;
    if FindAccountByEmail(t.users, email).Some? {
      StoresOn(t.users, user, hashed, now);
      assert t2.users == SetPassword(t.users, user.id, hashed, now);
      assert t2.lawyers == t.lawyers;
    } else {
      StoresOn(t.lawyers, user, hashed, now);
      assert t2.lawyers == SetPassword(t.lawyers, user.id, hashed, now);
      assert t2.users == t.users;
    }
  }

  /** In a collection with unique ids, setting the password by an account's
      id updates that account and no other. */
  lemma StoresOn(s: seq<Account>, user: Account, hashed: string, now: int)
    requires DistinctIds(s) && user in s
    ensures var r := SetPassword(s, user.id, hashed, now);
            user.(hashedPassword := hashed, updatedAt := now) in r && |r| == |s| &&
            forall k :: 0 <= k < |s| && s[k] != user ==> r[k] == s[k]
  {
    SetPasswordSpec(s, user.id, hashed, now);
    var m :| 0 <= m < |s| && s[m] == user;
    assert HasId(user.id)(s[m]);
    var i := FindFirst(s, HasId(user.id)).value;
    assert i == m;
  }

  /** A code works at most once: with at most one unused code per email and
      distinct code ids, after a successful reset no code of that email is
      redeemable, so a second attempt is refused with 400 whatever code it
      gives. */
  lemma ResetCodeSingleUse(t: AuthTables, email: string, code: string, hashed: string, now: int,
                           code2: string, hashed2: string, later: int)
    requires AtMostOneUnused(t.resetCodes) && UniqueCodeIds(t.resetCodes)
    requires VerifyAndReset(t, email, code, hashed, now).1.Ok?
    ensures var t2 := VerifyAndReset(t, email, code, hashed, now).0;
            VerifyAndReset(t2, email, code2, hashed2, later) == (t2, Err(Http(400)))
  {
    var codes := t.resetCodes;
    var t2 := VerifyAndReset(t, email, code, hashed, now).0;
    var i := FindFirst(codes, Redeemable(email, code, now)).value;
    var rc := codes[i];
    var idp := (c: ResetCode) => c.id == rc.id;
    assert FindFirst(codes, idp).Some?;
    var k := FindFirst(codes, idp).value;
    assert k == i;
    assert t2.resetCodes == codes[i := rc.(used := true)];
    forall c | c in t2.resetCodes
      ensures !Redeemable(email, code2, later)(c)
    {
      var m :| 0 <= m < |t2.resetCodes| && t2.resetCodes[m] == c;
      if m == i {
        assert c.used;
      } else {
        assert codes[m] == c;
      }
    }
    assert FindOne(t2.resetCodes, Redeemable(email, code2, later)).None?;
  }

  /** The reset keeps at most one unused code per email. */
  lemma VerifyAndResetKeepsOneUnused(t: AuthTables, email: string, code: string, hashed: string, now: int)
    requires AtMostOneUnused(t.resetCodes)
    ensures AtMostOneUnused(VerifyAndReset(t, email, code, hashed, now).0.resetCodes)
  {
    var (t2, r) := VerifyAndReset(t, email, code, hashed, now);
    if r.Ok? {
      var rc := FindOne(t.resetCodes, Redeemable(email, code, now)).value;
      var idp := (c: ResetCode) => c.id == rc.id;
      if FindFirst(t.resetCodes, idp).Some? {
        var k := FindFirst(t.resetCodes, idp).value;
        assert t2.resetCodes == t.resetCodes[k := t.resetCodes[k].(used := true)];
      }
    }
  }
}
