/** TransactionService: recording a payment for an appointment, crediting the
    lawyer's and the platform's wallets, and the transaction queries, over the
    "appointments", "transactions" and "wallets" collections. The clock and
    the ObjectId MongoDB gives an inserted transaction are parameters. */
module TransactionService {
  import opened Wrappers
  import opened Strings
  import opened Collections
  import opened Values
  import opened Store
  import opened TransactionModel
  import WalletService

  const PlatformEmail: string := "platform@system"
  const LawyerRole: string := "lawyer"
  const PlatformRole: string := "platform"

  /** The body of POST /transactions/ (TransactionIn); the amount is positive
      by the schema. */
  datatype TransactionIn = TransactionIn(
    appointmentId: string,
    userPaidAmount: int,
    transactionId: Option<string>,
    paymentMethod: Option<string>)

  datatype Breakdown = Breakdown(userPaidAmount: int, platformFee: int, platformFeePercentage: int, lawyerReceivedAmount: int)

  /** calculate_transaction_breakdown. */
  function CalculateBreakdown(paid: int): Breakdown {
    Breakdown(paid, PlatformFee(paid), PlatformFeePercent, LawyerShare(paid))
  }

  /** The breakdown shows the same split a recorded transaction gets: the
      nearest cent to 20% as fee and the rest for the lawyer. */
  lemma BreakdownSpec(paid: int, now: int)
    ensures var b := CalculateBreakdown(paid);
            b.platformFee + b.lawyerReceivedAmount == paid &&
            b.platformFeePercentage == 20 &&
            5 * b.platformFee - 2 <= paid <= 5 * b.platformFee + 2 &&
            (paid > 0 ==> 0 <= b.platformFee && 0 <= b.lawyerReceivedAmount) &&
            var s := Init(Str(""), paid, Null, Null, Null, Null, Null, now);
            b.platformFee == s.platformFee && b.lawyerReceivedAmount == s.lawyerReceivedAmount
  {
    FeeSplit(paid);
  }

  datatype LedgerTables = LedgerTables(appointments: seq<Appointment>, transactions: seq<TransactionDoc>, wallets: seq<Wallet>)

  function TablesOf(db: Database): LedgerTables
    reads db`appointments, db`transactions, db`wallets
  {
    LedgerTables(db.appointments, db.transactions, db.wallets)
  }

  // ---------------------------------------------------------------------------
  // Crediting wallets

  /** The $inc of a credit, with updated_at set. */
  function Increment(amount: int, now: int): Wallet -> Wallet {
    (w: Wallet) => w.(currentBalance := w.currentBalance + amount, totalEarned := w.totalEarned + amount, updatedAt := now)
  }

  /** _credit_lawyer_wallet (role "lawyer") and _credit_platform_wallet (email
      platform@system, role "platform"). */
  function Credit(wallets: seq<Wallet>, email: string, role: string, amount: int, now: int): seq<Wallet> {
    if WalletService.FindWallet(wallets, email).None? then
      wallets + [Wallet(email, role, amount, amount, 0, now, now)]
    else
      UpdateFirst(wallets, WalletService.OwnedBy(email), Increment(amount, now))
  }

  method CreditWallet(db: Database, email: string, role: string, amount: int, now: int)
    modifies db`wallets
    ensures db.wallets == Credit(old(db.wallets), email, role, amount, now)
  {
    var wallet := WalletService.FindWallet(db.wallets, email);
    if wallet.None? {
      db.wallets := db.wallets + [Wallet(email, role, amount, amount, 0, now, now)];
    } else {
      db.wallets := UpdateFirst(db.wallets, WalletService.OwnedBy(email), Increment(amount, now));
    }
  }

  function Balance(w: Wallet): int { w.currentBalance }
  function Earned(w: Wallet): int { w.totalEarned }
  function Withdrawn(w: Wallet): int { w.totalWithdrawn }

  /** A missing wallet is created holding the amount as balance and as
      earnings with nothing withdrawn; an existing one (the first with the
      email) has balance and earnings raised by the amount and keeps its
      withdrawals. Either way the balances and the earnings over all wallets
      grow by exactly the amount. */
  lemma CreditSpec(wallets: seq<Wallet>, email: string, role: string, amount: int, now: int)
    ensures var ws := Credit(wallets, email, role, amount, now);
            (WalletService.FindWallet(wallets, email).None? ==>
               ws == wallets + [Wallet(email, role, amount, amount, 0, now, now)]) &&
            (WalletService.FindWallet(wallets, email).Some? ==>
               |ws| == |wallets| &&
               var i := FindFirst(wallets, WalletService.OwnedBy(email)).value;
               ws[i].email == email &&
               ws[i].currentBalance == wallets[i].currentBalance + amount &&
               ws[i].totalEarned == wallets[i].totalEarned + amount &&
               ws[i].totalWithdrawn == wallets[i].totalWithdrawn &&
               ws[i].role == wallets[i].role &&
               (forall j :: 0 <= j < |ws| && j != i ==> ws[j] == wallets[j])) &&
            Sum(ws, Balance) == Sum(wallets, Balance) + amount &&
            Sum(ws, Earned) == Sum(wallets, Earned) + amount &&
            Sum(ws, Withdrawn) == Sum(wallets, Withdrawn)
  {
    var p := WalletService.OwnedBy(email);
    if WalletService.FindWallet(wallets, email).None? {
      var w := Wallet(email, role, amount, amount, 0, now, now);
      SumAppend(wallets, w, Balance);
      SumAppend(wallets, w, Earned);
      SumAppend(wallets, w, Withdrawn);
    } else {
      var i := FindFirst(wallets, p).value;
      var w := Increment(amount, now)(wallets[i]);
      SumUpdate(wallets, i, w, Balance);
      SumUpdate(wallets, i, w, Earned);
      SumUpdate(wallets, i, w, Withdrawn);
    }
  }

  // ---------------------------------------------------------------------------
  // create_transaction

  function ForAppointment(aid: string): Appointment -> bool {
    (a: Appointment) => a.appointmentId == aid
  }

  function TransactionFor(aid: string): TransactionDoc -> bool {
    (d: TransactionDoc) => d.appointmentId == aid
  }

  /** An optional string as an argument: None or the string. */
  function OptStr(o: Option<string>): Value {
    if o.Some? then Str(o.value) else Null
  }

  /** An optional string as it reads back from to_dict's document: itself
      when truthy, else None. */
  function Kept(o: Option<string>): Option<string> {
    if Truthy(o) then o else None
  }

  /** The Transaction create_transaction builds: the payment method is also
      the transaction type, and the gateway's id is the SSL transaction id. */
  function NewTransaction(data: TransactionIn, now: int): TransactionState {
    Init(Str(data.appointmentId), data.userPaidAmount, OptStr(data.paymentMethod), OptStr(data.paymentMethod),
         OptStr(data.transactionId), Null, Null, now)
  }

  /** The stored document of that Transaction, as it reads back: to_dict's
      keys with the _id MongoDB assigned. */
  function StoredDoc(data: TransactionIn, now: int, id: string): TransactionDoc {
    TransactionDoc(id, data.appointmentId, data.userPaidAmount, PlatformFee(data.userPaidAmount),
                   LawyerShare(data.userPaidAmount), now, None, Kept(data.paymentMethod),
                   Kept(data.paymentMethod), Kept(data.transactionId))
  }

  /** The stored record holds exactly what to_dict wrote for the new
      Transaction: each required key's value and each optional key's value
      or None. */
  lemma StoredDocIsToDict(data: TransactionIn, now: int, id: string)
    ensures var d := DictOf(NewTransaction(data, now));
            var doc := StoredDoc(data, now, id);
            Get(d, "appointment_id") == Str(doc.appointmentId) &&
            Get(d, "user_paid_amount") == Int(doc.userPaidAmount) &&
            Get(d, "platform_fee") == Int(doc.platformFee) &&
            Get(d, "lawyer_received_amount") == Int(doc.lawyerReceivedAmount) &&
            Get(d, "transaction_date") == DateTime(doc.transactionDate) &&
            Get(d, "transaction_id") == OptStr(doc.transactionId) &&
            Get(d, "transaction_type") == OptStr(doc.transactionType) &&
            Get(d, "payment_method") == OptStr(doc.paymentMethod) &&
            Get(d, "ssl_transaction_id") == OptStr(doc.sslTransactionId)
  {
    DictKeys(NewTransaction(data, now));
  }

  function CreateTransaction(t: LedgerTables, data: TransactionIn, now: int, id: string)
    : (LedgerTables, Result<TransactionDoc, Failure>)
  {
    match FindOne(t.appointments, ForAppointment(data.appointmentId))
    case None => (t, Err(ValueError))
    case Some(appointment) =>
      if FindOne(t.transactions, TransactionFor(data.appointmentId)).Some? then (t, Err(ValueError))
      else
        var s := NewTransaction(data, now);
        var doc := StoredDoc(data, now, id);
        var ws := if appointment.lawyerEmail != "" then Credit(t.wallets, appointment.lawyerEmail, LawyerRole, s.lawyerReceivedAmount, now)
                  else t.wallets;
        var ws := Credit(ws, PlatformEmail, PlatformRole, s.platformFee, now);
        (t.(transactions := t.transactions + [doc], wallets := ws), Ok(doc))
  }

  function HasTransactionId(id: string): TransactionDoc -> bool {
    (d: TransactionDoc) => d.id == id
  }

  method CreateTransactionIn(db: Database, data: TransactionIn, now: int, newId: string)
    returns (r: Result<TransactionDoc, Failure>)
    requires forall d :: d in db.transactions ==> d.id != newId
    modifies db`transactions, db`wallets
    ensures (TablesOf(db), r) == CreateTransaction(old(TablesOf(db)), data, now, newId)
  {
    var appointment := FindOne(db.appointments, ForAppointment(data.appointmentId));
    if appointment.None? {
      return Err(ValueError);
    }
    var existing := FindOne(db.transactions, TransactionFor(data.appointmentId));
    if existing.Some? {
      return Err(ValueError);
    }
    var transaction := new Transaction(Str(data.appointmentId), data.userPaidAmount, OptStr(data.paymentMethod),
                                       OptStr(data.paymentMethod), OptStr(data.transactionId), Null, Null, now);
    var share, fee := transaction.lawyerReceivedAmount, transaction.platformFee;
    assert share == LawyerShare(data.userPaidAmount) && fee == PlatformFee(data.userPaidAmount);
    var before := db.transactions;
    var doc := StoredDoc(data, now, newId);
    db.transactions := db.transactions + [doc];
    var lawyerEmail := appointment.value.lawyerEmail;
    if lawyerEmail != "" {
      CreditWallet(db, lawyerEmail, LawyerRole, share, now);
    }
    CreditWallet(db, PlatformEmail, PlatformRole, fee, now);
    FindOneAppend(before, doc, HasTransactionId(newId));
    var created := FindOne(db.transactions, HasTransactionId(newId));
    return Ok(created.value);
  }

  /** Refused with ValueError, changing nothing, exactly when the appointment
      does not exist or already has a transaction. Otherwise one transaction
      is added with the derived split; the lawyer is credited the share only
      when the appointment names a lawyer, the platform is credited the fee
      every time, and the wallets' total balance grows by exactly what was
      credited. */
  lemma CreateTransactionSpec(t: LedgerTables, data: TransactionIn, now: int, id: string)
    ensures var (t2, r) := CreateTransaction(t, data, now, id);
            var appointment := FindOne(t.appointments, ForAppointment(data.appointmentId));
            (r.Err? <==> appointment.None? || exists d :: d in t.transactions && d.appointmentId == data.appointmentId) &&
            (r.Err? ==> r.error == ValueError && t2 == t) &&
            (r.Ok? ==>
               t2.appointments == t.appointments &&
               t2.transactions == t.transactions + [r.value] &&
               r.value.appointmentId == data.appointmentId &&
               r.value.userPaidAmount == data.userPaidAmount &&
               r.value.platformFee == PlatformFee(data.userPaidAmount) &&
               r.value.lawyerReceivedAmount == LawyerShare(data.userPaidAmount) &&
               r.value.transactionDate == now &&
               var lawyerEmail := appointment.value.lawyerEmail;
               var lawyerCredit := if lawyerEmail != "" then r.value.lawyerReceivedAmount else 0;
               Sum(t2.wallets, Balance) == Sum(t.wallets, Balance) + lawyerCredit + r.value.platformFee &&
               Sum(t2.wallets, Earned) == Sum(t.wallets, Earned) + lawyerCredit + r.value.platformFee &&
               Sum(t2.wallets, Withdrawn) == Sum(t.wallets, Withdrawn))
  {
    var aid := data.appointmentId;
    if exists d :: d in t.transactions && d.appointmentId == aid {
      var d :| d in t.transactions && d.appointmentId == aid;
      assert TransactionFor(aid)(d);
    }
    var appointment := FindOne(t.appointments, ForAppointment(aid));
    if appointment.Some? && FindOne(t.transactions, TransactionFor(aid)).None? {
      var s := NewTransaction(data, now);
      var lawyerEmail := appointment.value.lawyerEmail;
      var ws := if lawyerEmail != "" then Credit(t.wallets, lawyerEmail, LawyerRole, s.lawyerReceivedAmount, now)
                else t.wallets;
      if lawyerEmail != "" {
        CreditSpec(t.wallets, lawyerEmail, LawyerRole, s.lawyerReceivedAmount, now);
      }
      CreditSpec(ws, PlatformEmail, PlatformRole, s.platformFee, now);
    }
  }

  /** A paid appointment whose lawyer is named credits payer's whole amount:
      the wallets' total balance grows by exactly the amount paid. */
  lemma CreateTransactionCreditsAll(t: LedgerTables, data: TransactionIn, now: int, id: string)
    requires CreateTransaction(t, data, now, id).1.Ok?
    requires FindOne(t.appointments, ForAppointment(data.appointmentId)).value.lawyerEmail != ""
    ensures Sum(CreateTransaction(t, data, now, id).0.wallets, Balance) == Sum(t.wallets, Balance) + data.userPaidAmount
  {
    CreateTransactionSpec(t, data, now, id);
    FeeSplit(data.userPaidAmount);
  }

  /** No two transactions are for the same appointment. */
  ghost predicate OnePerAppointment(ts: seq<TransactionDoc>) {
    forall i, j :: 0 <= i < |ts| && 0 <= j < |ts| && i != j ==> ts[i].appointmentId != ts[j].appointmentId
  }

  /** create_transaction keeps at most one transaction per appointment. */
  lemma CreateKeepsOnePerAppointment(t: LedgerTables, data: TransactionIn, now: int, id: string)
    requires OnePerAppointment(t.transactions)
    ensures OnePerAppointment(CreateTransaction(t, data, now, id).0.transactions)
  {
    var (t2, r) := CreateTransaction(t, data, now, id);
    if r.Ok? {
      var ts := t2.transactions;
      var n := |t.transactions|;
      forall i, j | 0 <= i < |ts| && 0 <= j < |ts| && i != j
        ensures ts[i].appointmentId != ts[j].appointmentId
      {
        if i < n && j < n {
          assert ts[i] == t.transactions[i] && ts[j] == t.transactions[j];
        } else if i < n {
          assert !TransactionFor(data.appointmentId)(t.transactions[i]);
        } else {
          assert !TransactionFor(data.appointmentId)(t.transactions[j]);
        }
      }
    }
  }

  /** The fee fields of every stored transaction add up to its amount. */
  ghost predicate AllSplit(ts: seq<TransactionDoc>) {
    forall d :: d in ts ==> d.platformFee + d.lawyerReceivedAmount == d.userPaidAmount
  }

  lemma CreateKeepsSplit(t: LedgerTables, data: TransactionIn, now: int, id: string)
    requires AllSplit(t.transactions)
    ensures AllSplit(CreateTransaction(t, data, now, id).0.transactions)
  {
    FeeSplit(data.userPaidAmount);
  }

  // ---------------------------------------------------------------------------
  // Queries

  /** get_transaction_by_id: None for an id that is not an ObjectId (the
      service catches the error) as well as for an unknown one. */
  function GetTransactionById(ts: seq<TransactionDoc>, id: string): (r: Option<TransactionDoc>)
    ensures ParseObjectId(id).None? ==> r.None?
    ensures r.Some? ==> r.value in ts && r.value.id == ParseObjectId(id).value
    ensures ParseObjectId(id).Some? && r.None? ==> forall d :: d in ts ==> d.id != ParseObjectId(id).value
  {
    match ParseObjectId(id)
    case None => None
    case Some(oid) => FindOne(ts, HasTransactionId(oid))
  }

  /** get_transaction_by_appointment. */
  function GetTransactionByAppointment(ts: seq<TransactionDoc>, aid: string): (r: Option<TransactionDoc>)
    ensures r.Some? ==> r.value in ts && r.value.appointmentId == aid
    ensures r.None? <==> forall d :: d in ts ==> d.appointmentId != aid
  {
    FindOne(ts, TransactionFor(aid))
  }

  function AppointmentIds(appointments: seq<Appointment>): (r: seq<string>)
    ensures |r| == |appointments|
    ensures forall i :: 0 <= i < |r| ==> r[i] == appointments[i].appointmentId
  {
    if appointments == [] then []
    else AppointmentIds(appointments[..|appointments| - 1]) + [appointments[|appointments| - 1].appointmentId]
  }

  function InAppointments(ids: seq<string>): TransactionDoc -> bool {
    (d: TransactionDoc) => d.appointmentId in ids
  }

  function TransactionDate(d: TransactionDoc): Option<int> {
    Some(d.transactionDate)
  }

  /** The transactions of the given appointments, newest first; none at all
      when there are no appointments. */
  function TransactionsOf(ts: seq<TransactionDoc>, appointments: seq<Appointment>): seq<TransactionDoc> {
    var ids := AppointmentIds(appointments);
    if ids == [] then [] else SortDesc(Filter(ts, InAppointments(ids)), TransactionDate)
  }

  function LawyerIs(email: string): Appointment -> bool {
    (a: Appointment) => a.lawyerEmail == email
  }

  function UserIs(email: string): Appointment -> bool {
    (a: Appointment) => a.userEmail == email
  }

  /** get_transactions_by_lawyer: the limit caps the appointments read, not the
      transactions returned. */
  function TransactionsByLawyer(t: LedgerTables, email: string, limit: int): seq<TransactionDoc> {
    TransactionsOf(t.transactions, Limit(Filter(t.appointments, LawyerIs(email)), limit))
  }

  /** get_transactions_by_user. */
  function TransactionsByUser(t: LedgerTables, email: string, limit: int): seq<TransactionDoc> {
    TransactionsOf(t.transactions, Limit(Filter(t.appointments, UserIs(email)), limit))
  }

  /** A transaction is listed exactly when it belongs to one of the given
      appointments; the list is newest first and lists each stored
      transaction as often as it is stored. */
  lemma TransactionsOfSpec(ts: seq<TransactionDoc>, appointments: seq<Appointment>)
    ensures var r := TransactionsOf(ts, appointments);
            SortedDesc(r, TransactionDate) &&
            (appointments == [] ==> r == []) &&
            (appointments != [] ==> multiset(r) == multiset(Filter(ts, InAppointments(AppointmentIds(appointments))))) &&
            (forall d :: d in r <==> d in ts && exists a :: a in appointments && a.appointmentId == d.appointmentId)
  {
    var ids := AppointmentIds(appointments);
    if ids != [] {
      var f := Filter(ts, InAppointments(ids));
      SortDescSorted(f, TransactionDate);
      forall d
        ensures d in TransactionsOf(ts, appointments) <==>
                d in ts && exists a :: a in appointments && a.appointmentId == d.appointmentId
      {
        FilterMembership(ts, InAppointments(ids), d);
        assert d in TransactionsOf(ts, appointments) <==> d in multiset(f);
        if d.appointmentId in ids {
          var k :| 0 <= k < |ids| && ids[k] == d.appointmentId;
          assert appointments[k] in appointments;
        }
        if exists a :: a in appointments && a.appointmentId == d.appointmentId {
          var a :| a in appointments && a.appointmentId == d.appointmentId;
          var k :| 0 <= k < |appointments| && appointments[k] == a;
          assert ids[k] == d.appointmentId;
        }
      }
    }
  }

  /** get_transactions_by_lawyer lists exactly the transactions of the first
      `limit` appointments of that lawyer, newest first, and nothing when
      the lawyer has no appointment. */
  lemma TransactionsByLawyerSpec(t: LedgerTables, email: string, limit: int)
    ensures var apts := Limit(Filter(t.appointments, LawyerIs(email)), limit);
            var r := TransactionsByLawyer(t, email, limit);
            SortedDesc(r, TransactionDate) &&
            ((forall a :: a in t.appointments ==> a.lawyerEmail != email) ==> r == []) &&
            (forall d :: d in r <==> d in t.transactions && exists a :: a in apts && a.appointmentId == d.appointmentId) &&
            (forall a :: a in apts ==> a in t.appointments && a.lawyerEmail == email)
  {
    var apts := Limit(Filter(t.appointments, LawyerIs(email)), limit);
    TransactionsOfSpec(t.transactions, apts);
    forall a | a in apts
      ensures a in t.appointments && a.lawyerEmail == email
    {
      FilterMembership(t.appointments, LawyerIs(email), a);
    }
    if forall a :: a in t.appointments ==> a.lawyerEmail != email {
      FilterEmpty(t.appointments, LawyerIs(email));
    }
  }

  /** get_transactions_by_user, the same for the client's appointments. */
  lemma TransactionsByUserSpec(t: LedgerTables, email: string, limit: int)
    ensures var apts := Limit(Filter(t.appointments, UserIs(email)), limit);
            var r := TransactionsByUser(t, email, limit);
            SortedDesc(r, TransactionDate) &&
            ((forall a :: a in t.appointments ==> a.userEmail != email) ==> r == []) &&
            (forall d :: d in r <==> d in t.transactions && exists a :: a in apts && a.appointmentId == d.appointmentId) &&
            (forall a :: a in apts ==> a in t.appointments && a.userEmail == email)
  {
    var apts := Limit(Filter(t.appointments, UserIs(email)), limit);
    TransactionsOfSpec(t.transactions, apts);
    forall a | a in apts
      ensures a in t.appointments && a.userEmail == email
    {
      FilterMembership(t.appointments, UserIs(email), a);
    }
    if forall a :: a in t.appointments ==> a.userEmail != email {
      FilterEmpty(t.appointments, UserIs(email));
    }
  }

  datatype EarningsSummary = EarningsSummary(lawyerEmail: string, totalEarned: int, totalTransactions: int, platformFeePaid: int)

  function Share(d: TransactionDoc): int { d.lawyerReceivedAmount }
  function Fee(d: TransactionDoc): int { d.platformFee }
  function Paid(d: TransactionDoc): int { d.userPaidAmount }

  const SummaryLimit: int := 1000

  /** get_lawyer_earnings_summary, over the lawyer's first 1000 appointments. */
  function LawyerEarningsSummary(t: LedgerTables, email: string): EarningsSummary {
    var ts := TransactionsByLawyer(t, email, SummaryLimit);
    EarningsSummary(email, Sum(ts, Share), |ts|, Sum(ts, Fee))
  }

  lemma {:induction false} SumOfSplit(ts: seq<TransactionDoc>)
    requires AllSplit(ts)
    ensures Sum(ts, Share) + Sum(ts, Fee) == Sum(ts, Paid)
  {
    if ts != [] {
      var init := ts[..|ts| - 1];
      assert forall d :: d in init ==> d in ts;
      SumOfSplit(init);
      assert ts[|ts| - 1] in ts;
    }
  }

  /** The summary counts the listed transactions and adds up their shares
      and fees; when every stored transaction is split as create_transaction
      splits it, earnings and fees together are what the clients paid. */
  lemma EarningsSummarySpec(t: LedgerTables, email: string)
    requires AllSplit(t.transactions)
    ensures var ts := TransactionsByLawyer(t, email, SummaryLimit);
            var s := LawyerEarningsSummary(t, email);
            s.lawyerEmail == email &&
            s.totalTransactions == |ts| &&
            s.totalEarned == Sum(ts, Share) &&
            s.platformFeePaid == Sum(ts, Fee) &&
            s.totalEarned + s.platformFeePaid == Sum(ts, Paid)
  {
    var ts := TransactionsByLawyer(t, email, SummaryLimit);
    TransactionsByLawyerSpec(t, email, SummaryLimit);
    SumOfSplit(ts);
  }
}
