/** WalletService: wallets created on first use and withdrawal requests, over
    the "wallets" and "withdrawals" collections. The clock and the ObjectId
    MongoDB gives an inserted withdrawal are parameters. */
module WalletService {
  import opened Wrappers
  import opened Collections
  import opened Store

  const DefaultRole: string := "lawyer"
  const Pending: string := "pending"

  /** The body of POST /wallet/withdraw (WithdrawalRequestIn); the amount is
      positive by the schema. */
  datatype WithdrawalRequest = WithdrawalRequest(
    email: string,
    amount: int,
    bankAccount: string,
    bankName: string,
    accountHolderName: string,
    notes: Option<string>)

  datatype WalletTables = WalletTables(wallets: seq<Wallet>, withdrawals: seq<Withdrawal>)

  function TablesOf(db: Database): WalletTables
    reads db`wallets, db`withdrawals
  {
    WalletTables(db.wallets, db.withdrawals)
  }

  function OwnedBy(email: string): Wallet -> bool {
    (w: Wallet) => w.email == email
  }

  /** find_one({"email": email}) on "wallets": the wallet, or None when the
      email has none (get_wallet). */
  function FindWallet(wallets: seq<Wallet>, email: string): (r: Option<Wallet>)
    ensures r.None? <==> forall w :: w in wallets ==> w.email != email
    ensures r.Some? ==> r.value in wallets && r.value.email == email
  {
    FindOne(wallets, OwnedBy(email))
  }

  /** The empty wallet get_or_create_wallet inserts. */
  function NewWallet(email: string, role: string, now: int): Wallet {
    Wallet(email, role, 0, 0, 0, now, now)
  }

  /** get_or_create_wallet: the wallets afterwards and the wallet returned. */
  function GetOrCreate(wallets: seq<Wallet>, email: string, role: string, now: int): (seq<Wallet>, Wallet) {
    match FindWallet(wallets, email)
    case Some(w) => (wallets, w)
    case None => (wallets + [NewWallet(email, role, now)], NewWallet(email, role, now))
  }

  method GetOrCreateWallet(db: Database, email: string, role: string, now: int) returns (w: Wallet)
    modifies db`wallets
    ensures (db.wallets, w) == GetOrCreate(old(db.wallets), email, role, now)
  {
    var found := FindWallet(db.wallets, email);
    if found.None? {
      w := NewWallet(email, role, now);
      db.wallets := db.wallets + [w];
    } else {
      w := found.value;
    }
  }

  /** An existing wallet is returned and nothing is inserted; a missing one is
      inserted with zero balance, earnings and withdrawals and the given role. */
  lemma GetOrCreateSpec(wallets: seq<Wallet>, email: string, role: string, now: int)
    ensures var (ws, w) := GetOrCreate(wallets, email, role, now);
            w.email == email &&
            (FindWallet(wallets, email).Some? ==> ws == wallets && w == FindWallet(wallets, email).value) &&
            (FindWallet(wallets, email).None? ==>
               ws == wallets + [w] && w.role == role &&
               w.currentBalance == 0 && w.totalEarned == 0 && w.totalWithdrawn == 0)
  {
  }

  /** A second call inserts nothing and returns the same wallet, whatever role
      and time it is given. */
  lemma GetOrCreateIdempotent(wallets: seq<Wallet>, email: string, role: string, now: int, role2: string, now2: int)
    ensures var (ws, w) := GetOrCreate(wallets, email, role, now);
            GetOrCreate(ws, email, role2, now2) == (ws, w)
  {
    if FindWallet(wallets, email).None? {
      FindOneAppend(wallets, NewWallet(email, role, now), OwnedBy(email));
    }
  }

  // ---------------------------------------------------------------------------
  // request_withdrawal

  function PendingFor(email: string): Withdrawal -> bool {
    (w: Withdrawal) => w.email == email && w.status == Pending
  }

  function HasWithdrawalId(id: string): Withdrawal -> bool {
    (w: Withdrawal) => w.id == id
  }

  /** The withdrawal document request_withdrawal inserts. */
  function NewWithdrawal(req: WithdrawalRequest, now: int, id: string): Withdrawal {
    Withdrawal(id, req.email, req.amount, Pending, req.bankAccount, req.bankName,
               req.accountHolderName, req.notes, now, None, None)
  }

  /** request_withdrawal: the wallet is fetched or created first, then the
      balance and the pending requests are checked. */
  function RequestWithdrawal(t: WalletTables, req: WithdrawalRequest, now: int, id: string)
    : (WalletTables, Result<Withdrawal, Failure>)
  {
    var (ws, wallet) := GetOrCreate(t.wallets, req.email, DefaultRole, now);
    if wallet.currentBalance < req.amount then (t.(wallets := ws), Err(ValueError))
    else if FindOne(t.withdrawals, PendingFor(req.email)).Some? then (t.(wallets := ws), Err(ValueError))
    else
      var w := NewWithdrawal(req, now, id);
      (WalletTables(ws, t.withdrawals + [w]), Ok(w))
  }

  method RequestWithdrawalIn(db: Database, req: WithdrawalRequest, now: int, newId: string)
    returns (r: Result<Withdrawal, Failure>)
    requires forall w :: w in db.withdrawals ==> w.id != newId
    modifies db`wallets, db`withdrawals
    ensures (TablesOf(db), r) == RequestWithdrawal(old(TablesOf(db)), req, now, newId)
  {
    var wallet := GetOrCreateWallet(db, req.email, DefaultRole, now);
    if wallet.currentBalance < req.amount {
      return Err(ValueError);
    }
    var pending := FindOne(db.withdrawals, PendingFor(req.email));
    if pending.Some? {
      return Err(ValueError);
    }
    var before := db.withdrawals;
    db.withdrawals := db.withdrawals + [NewWithdrawal(req, now, newId)];
    FindOneAppend(before, NewWithdrawal(req, now, newId), HasWithdrawalId(newId));
    var created := FindOne(db.withdrawals, HasWithdrawalId(newId));
    return Ok(created.value);
  }

  /** Refused with ValueError exactly when the balance is below the amount
      (so the whole balance may be withdrawn) or a withdrawal is already
      pending for the email; the wallet is created even then. On success one
      pending, unprocessed withdrawal is added and no wallet balance changes. */
  lemma RequestWithdrawalSpec(t: WalletTables, req: WithdrawalRequest, now: int, id: string)
    ensures var (t2, r) := RequestWithdrawal(t, req, now, id);
            var (ws, wallet) := GetOrCreate(t.wallets, req.email, DefaultRole, now);
            t2.wallets == ws &&
            (r.Err? <==> wallet.currentBalance < req.amount ||
                         exists w :: w in t.withdrawals && w.email == req.email && w.status == Pending) &&
            (r.Err? ==> r.error == ValueError && t2.withdrawals == t.withdrawals) &&
            (r.Ok? ==> t2.withdrawals == t.withdrawals + [r.value] &&
                       r.value.email == req.email && r.value.amount == req.amount &&
                       r.value.status == Pending && r.value.processedAt.None? &&
                       r.value.processedBy.None? && r.value.requestedAt == now)
  {
    var p := PendingFor(req.email);
    if exists w :: w in t.withdrawals && w.email == req.email && w.status == Pending {
      var w :| w in t.withdrawals && w.email == req.email && w.status == Pending;
      assert p(w);
    }
  }

  /** A first withdrawal from an email without a wallet is refused (its new
      wallet holds nothing), but leaves that empty wallet behind. */
  lemma WithdrawalWithoutWallet(t: WalletTables, req: WithdrawalRequest, now: int, id: string)
    requires req.amount > 0
    requires forall w :: w in t.wallets ==> w.email != req.email
    ensures RequestWithdrawal(t, req, now, id) ==
            (t.(wallets := t.wallets + [NewWallet(req.email, DefaultRole, now)]), Err(ValueError))
  {
  }

  /** No two pending withdrawals share an email. */
  ghost predicate AtMostOnePending(ws: seq<Withdrawal>) {
    forall i, j :: 0 <= i < |ws| && 0 <= j < |ws| && i != j && ws[i].status == Pending && ws[j].status == Pending
      ==> ws[i].email != ws[j].email
  }

  /** request_withdrawal keeps at most one pending withdrawal per email. */
  lemma RequestKeepsOnePending(t: WalletTables, req: WithdrawalRequest, now: int, id: string)
    requires AtMostOnePending(t.withdrawals)
    ensures AtMostOnePending(RequestWithdrawal(t, req, now, id).0.withdrawals)
  {
    var (t2, r) := RequestWithdrawal(t, req, now, id);
    if r.Ok? {
      var ws := t2.withdrawals;
      var n := |t.withdrawals|;
      forall i, j | 0 <= i < |ws| && 0 <= j < |ws| && i != j && ws[i].status == Pending && ws[j].status == Pending
        ensures ws[i].email != ws[j].email
      {
        if i < n && j < n {
          assert ws[i] == t.withdrawals[i] && ws[j] == t.withdrawals[j];
        } else if i < n {
          assert ws[j].email == req.email;
          assert !PendingFor(req.email)(t.withdrawals[i]);
        } else {
          assert ws[i].email == req.email;
          assert !PendingFor(req.email)(t.withdrawals[j]);
        }
      }
    }
  }

  // ---------------------------------------------------------------------------
  // get_user_withdrawals

  function WithdrawalsOf(email: string): Withdrawal -> bool {
    (w: Withdrawal) => w.email == email
  }

  function RequestedAt(w: Withdrawal): Option<int> {
    Some(w.requestedAt)
  }

  /** find({"email": email}).sort("requested_at", -1). */
  function UserWithdrawals(ws: seq<Withdrawal>, email: string): seq<Withdrawal> {
    SortDesc(Filter(ws, WithdrawalsOf(email)), RequestedAt)
  }

  /** Exactly that email's withdrawals, each once, newest request first. */
  lemma UserWithdrawalsSpec(ws: seq<Withdrawal>, email: string)
    ensures var r := UserWithdrawals(ws, email);
            SortedDesc(r, RequestedAt) &&
            multiset(r) == multiset(Filter(ws, WithdrawalsOf(email))) &&
            (forall w :: w in r <==> w in ws && w.email == email)
  {
    var f := Filter(ws, WithdrawalsOf(email));
    SortDescSorted(f, RequestedAt);
    forall w
      ensures w in UserWithdrawals(ws, email) <==> w in ws && w.email == email
    {
      FilterMembership(ws, WithdrawalsOf(email), w);
      assert w in UserWithdrawals(ws, email) <==> w in multiset(f);
    }
  }
}
