/** The Transaction record of models/transaction.py: its constructor derives
    the platform fee and the lawyer's share from the amount paid, to_dict
    builds the document stored in "transactions", and from_dict rebuilds a
    Transaction from a stored document.

    Money is integer cents, so Python's round(x, 2) is exact: the fee is the
    nearest cent to 20% of the amount (a fifth of a whole number of cents is
    never exactly half-way between two cents) and the share is the rest. The
    current time is a parameter. */
module TransactionModel {
  import opened Wrappers
  import opened Strings
  import opened Values

  /** PLATFORM_FEE_PERCENTAGE, as a percentage. */
  const PlatformFeePercent: int := 20

  /** round(paid * 0.20, 2) in cents. */
  function PlatformFee(paid: int): (fee: int)
    ensures 5 * fee - 2 <= paid <= 5 * fee + 2
    ensures 0 <= paid ==> 0 <= fee <= paid
  {
    (paid + 2) / 5
  }

  /** round(paid - fee, 2) in cents. */
  function LawyerShare(paid: int): int {
    paid - PlatformFee(paid)
  }

  /** The fee is the nearest cent to 20% of the amount, and fee and share
      add up to the amount. */
  lemma FeeSplit(paid: int)
    ensures PlatformFee(paid) + LawyerShare(paid) == paid
    ensures forall c :: c != PlatformFee(paid) ==> Distance(c, paid) > Distance(PlatformFee(paid), paid)
    ensures 0 <= paid ==> 0 <= LawyerShare(paid) <= paid
  {
    var fee := PlatformFee(paid);
    forall c: int | c != fee
      ensures Distance(c, paid) > Distance(fee, paid)
    {
      if c < fee {
        assert 5 * c <= 5 * fee - 5;
      } else {
        assert 5 * c >= 5 * fee + 5;
      }
    }
  }

  /** How far `c` cents is from 20% of `paid`, in fifths of a cent. */
  function Distance(c: int, paid: int): nat {
    if 5 * c < paid then paid - 5 * c else 5 * c - paid
  }

  /** The attributes of a Transaction object. Python does not check the
      argument types, so every attribute but the amounts holds whatever value
      it was given. */
  datatype TransactionState = TransactionState(
    transactionId: Value,
    appointmentId: Value,
    userPaidAmount: int,
    platformFee: int,
    lawyerReceivedAmount: int,
    transactionDate: Value,
    transactionType: Value,
    paymentMethod: Value,
    sslTransactionId: Value)

  /** The fee fields are the ones the constructor derives from the amount. */
  predicate Derived(s: TransactionState) {
    s.platformFee == PlatformFee(s.userPaidAmount) &&
    s.lawyerReceivedAmount == LawyerShare(s.userPaidAmount)
  }

  /** What every constructed Transaction satisfies: the split is derived and
      the date is truthy (`transaction_date or utcnow()`). */
  predicate Constructed(s: TransactionState) {
    Derived(s) && PyTruthy(s.transactionDate)
  }

  /** The attributes Transaction(...) sets; an argument that was not given
      is Null, and `now` stands for datetime.utcnow(). */
  function Init(appointmentId: Value, userPaidAmount: int, transactionType: Value,
                paymentMethod: Value, sslTransactionId: Value,
                transactionDate: Value, transactionId: Value, now: int): TransactionState
  {
    var fee := PlatformFee(userPaidAmount);
    TransactionState(transactionId, appointmentId, userPaidAmount, fee, userPaidAmount - fee,
                     OrValue(transactionDate, DateTime(now)), transactionType, paymentMethod, sslTransactionId)
  }

  /** The constructor takes the fee fields from no argument: they are derived
      from the amount, the date is the given one when truthy and otherwise
      now, and the other attributes are the arguments as given. */
  lemma InitDerives(appointmentId: Value, userPaidAmount: int, transactionType: Value,
                    paymentMethod: Value, sslTransactionId: Value,
                    transactionDate: Value, transactionId: Value, now: int)
    ensures var s := Init(appointmentId, userPaidAmount, transactionType, paymentMethod,
                          sslTransactionId, transactionDate, transactionId, now);
            Constructed(s) && s.platformFee + s.lawyerReceivedAmount == userPaidAmount &&
            s.transactionDate == (if PyTruthy(transactionDate) then transactionDate else DateTime(now)) &&
            s.appointmentId == appointmentId && s.transactionId == transactionId &&
            s.transactionType == transactionType && s.paymentMethod == paymentMethod &&
            s.sslTransactionId == sslTransactionId
  {
    FeeSplit(userPaidAmount);
  }

  /** Adds `key` when the attribute is truthy. */
  function PutIfTruthy(d: Document, key: string, v: Value): Document {
    if PyTruthy(v) then d[key := v] else d
  }

  /** The five keys to_dict always writes. */
  function RequiredPart(s: TransactionState): Document {
    map["appointment_id" := s.appointmentId,
        "user_paid_amount" := Int(s.userPaidAmount),
        "platform_fee" := Int(s.platformFee),
        "lawyer_received_amount" := Int(s.lawyerReceivedAmount),
        "transaction_date" := s.transactionDate]
  }

  /** The document to_dict returns. */
  function DictOf(s: TransactionState): Document {
    var d := PutIfTruthy(RequiredPart(s), "transaction_id", s.transactionId);
    var d := PutIfTruthy(d, "transaction_type", s.transactionType);
    var d := PutIfTruthy(d, "payment_method", s.paymentMethod);
    PutIfTruthy(d, "ssl_transaction_id", s.sslTransactionId)
  }

  const OptionalKeys: set<string> := {"transaction_id", "transaction_type", "payment_method", "ssl_transaction_id"}

  /** What an optional key of to_dict's document reads as with data.get(key):
      the attribute when it is truthy, else None. */
  function Written(v: Value): Value {
    if PyTruthy(v) then v else Null
  }

  /** The five required keys are always there; each optional key is there
      exactly when its attribute is truthy (so "" and None are both left
      out), and no other key is written. */
  lemma DictKeys(s: TransactionState)
    ensures var d := DictOf(s);
            Get(d, "appointment_id") == s.appointmentId &&
            Get(d, "user_paid_amount") == Int(s.userPaidAmount) &&
            Get(d, "platform_fee") == Int(s.platformFee) &&
            Get(d, "lawyer_received_amount") == Int(s.lawyerReceivedAmount) &&
            Get(d, "transaction_date") == s.transactionDate &&
            !("_id" in d) &&
            (forall k :: k in d ==> k in RequiredPart(s) || k in OptionalKeys)
    ensures var d := DictOf(s);
            ("transaction_id" in d <==> PyTruthy(s.transactionId)) &&
            ("transaction_type" in d <==> PyTruthy(s.transactionType)) &&
            ("payment_method" in d <==> PyTruthy(s.paymentMethod)) &&
            ("ssl_transaction_id" in d <==> PyTruthy(s.sslTransactionId)) &&
            Get(d, "transaction_id") == Written(s.transactionId) &&
            Get(d, "transaction_type") == Written(s.transactionType) &&
            Get(d, "payment_method") == Written(s.paymentMethod) &&
            Get(d, "ssl_transaction_id") == Written(s.sslTransactionId)
  {
    DictRequired(s);
    DictOnly(s);
    DictOptional(s);
  }

  /** The required keys read as the attributes in to_dict's document. */
  lemma DictRequired(s: TransactionState)
    ensures var d := DictOf(s);
            Get(d, "appointment_id") == s.appointmentId &&
            Get(d, "user_paid_amount") == Int(s.userPaidAmount) &&
            Get(d, "platform_fee") == Int(s.platformFee) &&
            Get(d, "lawyer_received_amount") == Int(s.lawyerReceivedAmount) &&
            Get(d, "transaction_date") == s.transactionDate
  {
    RequiredGet(s, "appointment_id");
    RequiredGet(s, "user_paid_amount");
    RequiredGet(s, "platform_fee");
    RequiredGet(s, "lawyer_received_amount");
    RequiredGet(s, "transaction_date");
  }

  /** to_dict writes no key but the required and the optional ones. */
  lemma DictOnly(s: TransactionState)
    ensures !("_id" in DictOf(s))
    ensures forall k :: k in DictOf(s) ==> k in RequiredPart(s) || k in OptionalKeys
  {
    var d0 := RequiredPart(s);
    var d1 := PutIfTruthy(d0, "transaction_id", s.transactionId);
    var d2 := PutIfTruthy(d1, "transaction_type", s.transactionType);
    var d3 := PutIfTruthy(d2, "payment_method", s.paymentMethod);
    PutOthers(d0, "transaction_id", s.transactionId);
    PutOthers(d1, "transaction_type", s.transactionType);
    PutOthers(d2, "payment_method", s.paymentMethod);
    PutOthers(d3, "ssl_transaction_id", s.sslTransactionId);
    assert "_id" !in OptionalKeys && "_id" !in d0;
  }

  /** A required key reads the same in to_dict's document. */
  lemma RequiredGet(s: TransactionState, k: string)
    requires k in RequiredPart(s)
    ensures Get(DictOf(s), k) == RequiredPart(s)[k]
  {
    var d0 := RequiredPart(s);
    var d1 := PutIfTruthy(d0, "transaction_id", s.transactionId);
    var d2 := PutIfTruthy(d1, "transaction_type", s.transactionType);
    var d3 := PutIfTruthy(d2, "payment_method", s.paymentMethod);
    Required(s, k);
    PutOthers(d0, "transaction_id", s.transactionId);
    PutOthers(d1, "transaction_type", s.transactionType);
    PutOthers(d2, "payment_method", s.paymentMethod);
    PutOthers(d3, "ssl_transaction_id", s.sslTransactionId);
  }

  /** Each optional key reads as its attribute when that is truthy and is
      absent otherwise. */
  lemma DictOptional(s: TransactionState)
    ensures var d := DictOf(s);
            ("transaction_id" in d <==> PyTruthy(s.transactionId)) &&
            ("transaction_type" in d <==> PyTruthy(s.transactionType)) &&
            ("payment_method" in d <==> PyTruthy(s.paymentMethod)) &&
            ("ssl_transaction_id" in d <==> PyTruthy(s.sslTransactionId)) &&
            Get(d, "transaction_id") == Written(s.transactionId) &&
            Get(d, "transaction_type") == Written(s.transactionType) &&
            Get(d, "payment_method") == Written(s.paymentMethod) &&
            Get(d, "ssl_transaction_id") == Written(s.sslTransactionId)
  {
    var d0 := RequiredPart(s);
    var d1 := PutIfTruthy(d0, "transaction_id", s.transactionId);
    var d2 := PutIfTruthy(d1, "transaction_type", s.transactionType);
    var d3 := PutIfTruthy(d2, "payment_method", s.paymentMethod);
    OptionalAbsent(s);
    PutOthers(d0, "transaction_id", s.transactionId);
    PutOthers(d1, "transaction_type", s.transactionType);
    PutOthers(d2, "payment_method", s.paymentMethod);
    PutOthers(d3, "ssl_transaction_id", s.sslTransactionId);
  }

  /** A required key is not optional. */
  lemma Required(s: TransactionState, k: string)
    requires k in RequiredPart(s)
    ensures k !in OptionalKeys
  {
    assert k in RequiredPart(s).Keys;
  }

  /** No optional key is among the required ones. */
  lemma OptionalAbsent(s: TransactionState)
    ensures forall k :: k in OptionalKeys ==> k !in RequiredPart(s)
  {
    forall k | k in OptionalKeys ensures k !in RequiredPart(s) {
      if k in RequiredPart(s) {
        Required(s, k);
      }
    }
  }

  /** PutIfTruthy touches its own key only. */
  lemma PutOthers(d: Document, key: string, v: Value)
    ensures var e := PutIfTruthy(d, key, v);
            (key in e <==> PyTruthy(v) || key in d) &&
            (PyTruthy(v) ==> e[key] == v) &&
            (!PyTruthy(v) ==> e == d) &&
            (forall k :: k != key ==> (k in e <==> k in d)) &&
            (forall k :: k != key ==> Get(e, k) == Get(d, k))
  {
  }

  // ---------------------------------------------------------------------------
  // from_dict

  /** str(data.get("_id", "")); `str` gives the text of the values whose str()
      this model does not spell out. */
  function IdOf(data: Document, str: Value -> string): Value {
    Str(if "_id" in data then StrOf(data["_id"], str) else "")
  }

  /** The attributes from_dict(data) gives its Transaction: each key's value
      as data.get reads it, the id as str(data.get("_id", "")), the fee fields
      derived again from the amount, and the date or, when that is falsy, now.
      The one raise is round()'s TypeError for an amount that is not a
      number (absent, None, a string, ...). */
  function FromDictState(data: Document, now: int, str: Value -> string): (r: Result<TransactionState, Failure>)
    ensures r.Err? <==> !Get(data, "user_paid_amount").Int?
    ensures r.Err? ==> r.error == Unhandled
    ensures r.Ok? ==>
              Constructed(r.value) &&
              r.value.userPaidAmount == Get(data, "user_paid_amount").i &&
              r.value.transactionId == IdOf(data, str) &&
              r.value.appointmentId == Get(data, "appointment_id") &&
              r.value.transactionType == Get(data, "transaction_type") &&
              r.value.paymentMethod == Get(data, "payment_method") &&
              r.value.sslTransactionId == Get(data, "ssl_transaction_id") &&
              r.value.transactionDate == OrValue(Get(data, "transaction_date"), DateTime(now))
  {
    var amount := Get(data, "user_paid_amount");
    if !amount.Int? then Err(Unhandled)
    else
      Ok(Init(Get(data, "appointment_id"), amount.i, Get(data, "transaction_type"), Get(data, "payment_method"),
              Get(data, "ssl_transaction_id"), Get(data, "transaction_date"), IdOf(data, str), now))
  }

  /** A document with no more than an amount still gives a Transaction: no
      appointment, the id "", and the current time as its date. */
  lemma AmountOnly(amount: int, now: int, str: Value -> string)
    ensures var r := FromDictState(map["user_paid_amount" := Int(amount)], now, str);
            r.Ok? && r.value.appointmentId == Null && r.value.transactionId == Str("") &&
            r.value.transactionDate == DateTime(now) && r.value.transactionType == Null
  {
  }

  /** from_dict(to_dict(t)) gives every constructed t back except for the id,
      which becomes "", and the optional attributes that to_dict left out,
      which become None. */
  lemma DictRoundTrip(s: TransactionState, now: int, str: Value -> string)
    requires Constructed(s)
    ensures FromDictState(DictOf(s), now, str) ==
            Ok(s.(transactionId := Str(""),
                  transactionType := Written(s.transactionType),
                  paymentMethod := Written(s.paymentMethod),
                  sslTransactionId := Written(s.sslTransactionId)))
  {
    DictKeys(s);
    var d := DictOf(s);
    assert IdOf(d, str) == Str("");
  }

  /** So the id does not round-trip: a Transaction with an id comes back with "". */
  lemma IdLost(s: TransactionState, now: int, str: Value -> string)
    requires Constructed(s) && PyTruthy(s.transactionId)
    ensures FromDictState(DictOf(s), now, str).Ok?
    ensures FromDictState(DictOf(s), now, str).value.transactionId != s.transactionId
  {
    DictRoundTrip(s, now, str);
  }

  /** Read back from the collection, the document carries the _id MongoDB
      gave it, and that is the id from_dict takes. */
  lemma StoredIdRead(s: TransactionState, hex: string, now: int, str: Value -> string)
    requires Constructed(s)
    ensures FromDictState(DictOf(s)["_id" := ObjectId(hex)], now, str).Ok?
    ensures FromDictState(DictOf(s)["_id" := ObjectId(hex)], now, str).value.transactionId == Str(hex)
  {
    DictRoundTrip(s, now, str);
    IdReplaced(DictOf(s), ObjectId(hex), now, str);
  }

  /** The _id is read for the id only: replacing it changes the id and
      nothing else. */
  lemma IdReplaced(data: Document, v: Value, now: int, str: Value -> string)
    requires FromDictState(data, now, str).Ok?
    ensures FromDictState(data["_id" := v], now, str) ==
            Ok(FromDictState(data, now, str).value.(transactionId := Str(StrOf(v, str))))
  {
    var d := data["_id" := v];
    assert IdOf(d, str) == Str(StrOf(v, str));
    assert forall k :: k != "_id" ==> Get(d, k) == Get(data, k);
  }

  class Transaction {
    var transactionId: Value
    var appointmentId: Value
    var userPaidAmount: int
    var platformFee: int
    var lawyerReceivedAmount: int
    var transactionDate: Value
    var transactionType: Value
    var paymentMethod: Value
    var sslTransactionId: Value

    function State(): TransactionState
      reads this
    {
      TransactionState(transactionId, appointmentId, userPaidAmount, platformFee,
                       lawyerReceivedAmount, transactionDate, transactionType,
                       paymentMethod, sslTransactionId)
    }

    /** Transaction(...): the fee and the share are computed, never taken. */
    constructor(appointmentId: Value, userPaidAmount: int, transactionType: Value,
                paymentMethod: Value, sslTransactionId: Value,
                transactionDate: Value, transactionId: Value, now: int)
      ensures State() == Init(appointmentId, userPaidAmount, transactionType, paymentMethod,
                              sslTransactionId, transactionDate, transactionId, now)
      ensures Constructed(State())
    {
      this.transactionId := transactionId;
      this.appointmentId := appointmentId;
      this.userPaidAmount := userPaidAmount;
      this.platformFee := PlatformFee(userPaidAmount);
      this.lawyerReceivedAmount := userPaidAmount - PlatformFee(userPaidAmount);
      this.transactionDate := if PyTruthy(transactionDate) then transactionDate else DateTime(now);
      this.transactionType := transactionType;
      this.paymentMethod := paymentMethod;
      this.sslTransactionId := sslTransactionId;
    }

    /** to_dict(): the required keys, then each optional key when truthy. */
    method ToDict() returns (d: Document)
      ensures d == DictOf(State())
    {
      d := map["appointment_id" := appointmentId,
               "user_paid_amount" := Int(userPaidAmount),
               "platform_fee" := Int(platformFee),
               "lawyer_received_amount" := Int(lawyerReceivedAmount),
               "transaction_date" := transactionDate];
      if PyTruthy(transactionId) {
        d := d["transaction_id" := transactionId];
      }
      if PyTruthy(transactionType) {
        d := d["transaction_type" := transactionType];
      }
      if PyTruthy(paymentMethod) {
        d := d["payment_method" := paymentMethod];
      }
      if PyTruthy(sslTransactionId) {
        d := d["ssl_transaction_id" := sslTransactionId];
      }
    }

    /** from_dict(data): one constructor call on the document's values; the
      call raises only where round() does. */
    static method FromDict(data: Document, now: int, str: Value -> string) returns (r: Result<Transaction, Failure>)
      ensures r.Err? <==> FromDictState(data, now, str).Err?
      ensures r.Err? ==> r.error == Unhandled
      ensures r.Ok? ==> fresh(r.value) && r.value.State() == FromDictState(data, now, str).value
    {
      var amount := Get(data, "user_paid_amount");
      if !amount.Int? {
        return Err(Unhandled);
      }
      var t := new Transaction(Get(data, "appointment_id"), amount.i, Get(data, "transaction_type"),
                               Get(data, "payment_method"), Get(data, "ssl_transaction_id"),
                               Get(data, "transaction_date"), IdOf(data, str), now);
      return Ok(t);
    }
  }
}
