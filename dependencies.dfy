/** The authorisation chain the protected routes depend on: the bearer token
    must verify as an access token, its subject must name an account ("users"
    searched before "lawyers"), the account must be active, and for lawyer
    routes it must be an approved lawyer. */
module Dependencies {
  import opened Wrappers
  import opened Strings
  import opened Collections
  import opened Store
  import opened Security

  function HasId(id: string): Account -> bool {
    (a: Account) => a.id == id
  }

  /** find_one({"_id": id}) on one collection. */
  function FindAccountById(s: seq<Account>, id: string): Option<Account> {
    FindOne(s, HasId(id))
  }

  /** The account with that _id: the users' one if there is one, else the lawyers'. */
  function LookupById(users: seq<Account>, lawyers: seq<Account>, id: string): (r: Option<Account>)
    ensures r.Some? ==> r.value.id == id && (r.value in users || r.value in lawyers)
    ensures r.None? <==> (forall a :: a in users ==> a.id != id) && (forall a :: a in lawyers ==> a.id != id)
  {
    var inUsers := FindAccountById(users, id);
    if inUsers.Some? then inUsers else FindAccountById(lawyers, id)
  }

  /** get_current_user: 401 when the token does not verify as an access token,
      an InvalidId error (500) when its subject is not an ObjectId, 404 when no
      account has that id. */
  function GetCurrentUser(users: seq<Account>, lawyers: seq<Account>, token: Token, now: int): Result<Account, Failure> {
    match VerifyToken(token, "access", now)
    case None => Err(Http(401))
    case Some(sub) =>
      match ParseObjectId(sub)
      case None => Err(Unhandled)
      case Some(oid) =>
        match LookupById(users, lawyers, oid)
        case None => Err(Http(404))
        case Some(user) => Ok(user)
  }

  /** get_current_active_user: 400 for an inactive account. Exactly the
      inactive accounts give 400 (the first step never does), the active ones
      pass unchanged, and every failure of the first step passes through. */
  function GetCurrentActiveUser(users: seq<Account>, lawyers: seq<Account>, token: Token, now: int): (r: Result<Account, Failure>)
    ensures r == Err(Http(400)) <==>
              GetCurrentUser(users, lawyers, token, now).Ok? && !GetCurrentUser(users, lawyers, token, now).value.isActive
    ensures r.Ok? <==> GetCurrentUser(users, lawyers, token, now).Ok? && GetCurrentUser(users, lawyers, token, now).value.isActive
    ensures r.Ok? || GetCurrentUser(users, lawyers, token, now).Err? ==> r == GetCurrentUser(users, lawyers, token, now)
  {
    match GetCurrentUser(users, lawyers, token, now)
    case Err(e) => Err(e)
    case Ok(user) => if !user.isActive then Err(Http(400)) else Ok(user)
  }

  /** get_current_lawyer: 403 for a role other than "lawyer", 403 for a lawyer
      not yet approved. */
  function GetCurrentLawyer(users: seq<Account>, lawyers: seq<Account>, token: Token, now: int): Result<Account, Failure> {
    match GetCurrentActiveUser(users, lawyers, token, now)
    case Err(e) => Err(e)
    case Ok(user) =>
      if user.role != "lawyer" then Err(Http(403))
      else if !user.isApproved then Err(Http(403))
      else Ok(user)
  }

  /** The first step: 401 exactly when the token is not a valid access token
      (a refresh or reset token included); a found account is the one whose
      _id the subject names, taken from "users" whenever "users" has it. */
  lemma GetCurrentUserSpec(users: seq<Account>, lawyers: seq<Account>, token: Token, now: int)
    ensures GetCurrentUser(users, lawyers, token, now) == Err(Http(401)) <==> VerifyToken(token, "access", now).None?
    ensures GetCurrentUser(users, lawyers, token, now).Ok? ==>
              var sub := VerifyToken(token, "access", now).value;
              var user := GetCurrentUser(users, lawyers, token, now).value;
              ParseObjectId(sub).Some? && user.id == ParseObjectId(sub).value &&
              (user in users || user in lawyers) &&
              ((exists a :: a in users && a.id == user.id) ==> user in users)
    ensures GetCurrentUser(users, lawyers, token, now) == Err(Http(404)) <==>
              VerifyToken(token, "access", now).Some? && ParseObjectId(VerifyToken(token, "access", now).value).Some? &&
              LookupById(users, lawyers, ParseObjectId(VerifyToken(token, "access", now).value).value).None?
  {
  }

  /** Every failure of the chain is 401, 404, 400, 403 or a malformed id, and
      a lawyer that passes is the very account get_current_user found, active,
      with role "lawyer" and approved. */
  lemma GetCurrentLawyerSpec(users: seq<Account>, lawyers: seq<Account>, token: Token, now: int)
    ensures var r := GetCurrentLawyer(users, lawyers, token, now);
            r.Err? ==> r.error in {Http(401), Http(404), Http(400), Http(403), Unhandled}
    ensures var r := GetCurrentLawyer(users, lawyers, token, now);
            r.Ok? ==> GetCurrentUser(users, lawyers, token, now) == r &&
                      r.value.isActive && r.value.role == "lawyer" && r.value.isApproved
    ensures var u := GetCurrentUser(users, lawyers, token, now);
            u.Ok? ==> (GetCurrentLawyer(users, lawyers, token, now).Ok? <==>
                         u.value.isActive && u.value.role == "lawyer" && u.value.isApproved)
    ensures var u := GetCurrentUser(users, lawyers, token, now);
            u.Ok? && !u.value.isActive ==> GetCurrentLawyer(users, lawyers, token, now) == Err(Http(400))
  {
  }

  /** A refresh token never passes the chain. */
  lemma RefreshTokenRejected(users: seq<Account>, lawyers: seq<Account>, id: string, issued: int, now: int)
    ensures GetCurrentUser(users, lawyers, CreateRefreshToken(map["sub" := Values.Str(id)], issued), now) == Err(Http(401))
  {
    RefreshTokenRoundTrip(id, issued, now, "access");
  }
}
