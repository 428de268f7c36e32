/** The MongoDB database as the services see it: one sequence of records per
    collection, in natural (insertion) order. Each record type lists the keys
    the services write; an Option field is a key that may be absent or null.
    Times are integers (seconds since the epoch), money is integer cents. */
module Store {
  import opened Wrappers
  import opened Values

  /** The extra keys of a lawyer account. */
  datatype LawyerFields = LawyerFields(
    licenseId: string,
    specialization: string,
    yearsOfExperience: int,
    bio: string,
    rating: real,
    totalCases: int)

  /** A document of "users" or "lawyers" (UserInDB); `lawyer` holds the keys
      only lawyer documents have. */
  datatype Account = Account(
    id: string,
    email: string,
    hashedPassword: string,
    fullName: string,
    role: string,
    isActive: bool,
    isVerified: bool,
    isApproved: bool,
    createdAt: int,
    updatedAt: int,
    phone: Option<string>,
    location: Option<string>,
    education: Option<string>,
    achievements: Option<string>,
    lawyer: Option<LawyerFields>)

  /** A document of "password_reset_codes". */
  datatype ResetCode = ResetCode(id: string, email: string, code: string, createdAt: int, expiresAt: int, used: bool)

  /** A document of "wallets". */
  datatype Wallet = Wallet(
    email: string,
    role: string,
    currentBalance: int,
    totalEarned: int,
    totalWithdrawn: int,
    createdAt: int,
    updatedAt: int)

  /** A document of "withdrawals". */
  datatype Withdrawal = Withdrawal(
    id: string,
    email: string,
    amount: int,
    status: string,
    bankAccount: string,
    bankName: string,
    accountHolderName: string,
    notes: Option<string>,
    requestedAt: int,
    processedAt: Option<int>,
    processedBy: Option<string>)

  /** A document of "transactions": Transaction.to_dict() with its _id. */
  datatype TransactionDoc = TransactionDoc(
    id: string,
    appointmentId: string,
    userPaidAmount: int,
    platformFee: int,
    lawyerReceivedAmount: int,
    transactionDate: int,
    transactionId: Option<string>,
    transactionType: Option<string>,
    paymentMethod: Option<string>,
    sslTransactionId: Option<string>)

  /** A document of "appointments". */
  datatype Appointment = Appointment(
    id: string,
    appointmentId: string,
    lawyerEmail: string,
    userEmail: string,
    date: string,
    startTime: string,
    endTime: string,
    isFinished: bool,
    caseType: string,
    description: string,
    consultationType: string,
    createdAt: int)

  /** A document of "cases". */
  datatype Case = Case(
    id: string,
    caseId: string,
    appointmentId: string,
    creationDate: int,
    lawyerEmail: string,
    userEmail: string,
    status: string,
    lastUpdated: int,
    caseType: string,
    description: string)

  datatype Participant = Participant(email: string, name: string, kind: string, joinedAt: int)

  /** A document of "meetings" (the chat messages it also stores are not modelled). */
  datatype Meeting = Meeting(
    id: string,
    roomId: string,
    appointmentId: string,
    lawyerEmail: string,
    userEmail: string,
    scheduledTime: string,
    createdAt: int,
    active: bool,
    participants: seq<Participant>,
    startedAt: Option<int>,
    endedAt: Option<int>,
    durationMinutes: Option<int>,
    notes: Option<string>)

  /** A document of "lawyer_schedules"; `other` holds any further keys. */
  datatype Schedule = Schedule(id: string, email: string, weeklySchedule: Value, other: Document)

  class Database {
    var users: seq<Account>
    var lawyers: seq<Account>
    var resetCodes: seq<ResetCode>
    var wallets: seq<Wallet>
    var withdrawals: seq<Withdrawal>
    var transactions: seq<TransactionDoc>
    var appointments: seq<Appointment>
    var cases: seq<Case>
    var meetings: seq<Meeting>
    var schedules: seq<Schedule>

    /** An empty database. */
    constructor()
      ensures users == [] && lawyers == [] && resetCodes == [] && wallets == [] && withdrawals == []
      ensures transactions == [] && appointments == [] && cases == [] && meetings == [] && schedules == []
    {
      users, lawyers, resetCodes, wallets, withdrawals := [], [], [], [], [];
      transactions, appointments, cases, meetings, schedules := [], [], [], [], [];
    }
  }
}
