# CaseMate backend core, modelled in Dafny

CaseMate is a FastAPI and MongoDB backend for booking legal consultations. This project models its core logic and proves properties of that model:

- **Retrieval and answer pipeline.** The lazy loading of the corpus, the FAISS index and the embedding model. The mapping of index rows to corpus records. The score threshold. The `[SOURCE i]` evidence block. The literal fallbacks of the generator. The `/chat` endpoint's validation and defaults.
- **Accounts.** Registration, login, token refresh, password change and the single-use reset-code lifecycle over the `users`, `lawyers` and `password_reset_codes` collections. Token creation and verification by type. The authorisation chain of the request dependencies. The field constraints of the user schemas.
- **Money ledger.** Get-or-create wallets and withdrawal requests. Transaction creation with its wallet credits and the 20% platform fee. The transaction listings and the earnings summary. The transaction record's `to_dict`/`from_dict`.
- **Booking tables.** Meeting rooms and their participant lists. Appointments created together with their cases, and their status updates. Lawyers' weekly schedules.
- **Data shaping in two route modules.** In `routes/lawyers.py`: the lawyer cards, case serialisation, the case-status update and the per-client aggregation. In `routes/appointments.py`: the date conversion `_to_epoch_ms`, the `is_finished` normalisation and the lawyer enrichment.

## How the model is built

- **Collections.** Every MongoDB collection is a `seq` field of one `Store.Database` object, in insertion order. A `find_one` is the first match. An `update_one` reports a modification exactly when the first matching document's value changes.
- **Service operations.** Each operation that writes to the database is a method with a `modifies` frame naming only the collections it touches. Its `ensures` ties the new collections and the answer to a function of the old ones. The lemmas beside the method state what that function promises.
- **Pure code.** Lookups, validators, token checks and formatting are functions with lemmas.
- **Route documents.** The two route modules work on raw documents, `Values.Document`, a map from keys to a Python/BSON value. Their point is the heterogeneous stored encodings.
- **Parameters.** Whatever the code gets from outside is a parameter:
  - the clock, as integer seconds;
  - freshly generated ids (`uuid4`, ObjectIds);
  - the outcome of argon2 verification;
  - the random reset code;
  - whether an insert or an e-mail send succeeded;
  - the FAISS search, the sentence encoder and the Groq call;
  - `json.loads` and `float()`;
  - the texts of exception messages.
- **Money.** Amounts are integer cents. `round(x * 0.20, 2)` is the nearest cent to a fifth, which is never a tie in cents.
- **Errors.** A raised exception is `Failure`: `Http(status)`, `ValueError`, or `Unhandled` for any other exception.
- **Shared modules.** The modules `Wrappers`, `Values`, `Strings`, `Collections` and `Store` hold the shared vocabulary. Examples: Python's `strip`, `lower`, `split` and `int(str)`; the ObjectId parser; the stable descending sort that Mongo's `sort(key, -1)` is modelled as.

## What the retrieval code does not do

These are facts of `chatbot_service.py` and `chatbot_routes.py`, and the model follows them:

- **No classifier or fallback modes.** There is no greeting or identity classifier, no general-knowledge fallback mode and no refusal re-check. When nothing passes the threshold, `run_inference` returns the bare string `"I do not know"`, not a result with a mode (`ChatbotService.RespondSpec`).
- **Labels start at 0.** Evidence labels count from `[SOURCE 0]`, although the prompt's wording expects `[SOURCE 1]` (`ChatbotService.BlockStartsWithTag`).
- **Hit order.** Hits keep the index's column order. The index, not the code, decides that the order is by descending score.
- **Unguarded initialisation.** `initialize` has no lock.
- **Threshold default.** The endpoint replaces a threshold of `0` or `None` by `0.18`. This overrides `run_inference`'s own default of `0.5`.

## Model

| member | source | states |
|---|---|---|
| Security.VerifyPassword | backend/app/utils/security.py:12-18 | true only when argon2 reports a match; a mismatch and any other exception both give false |
| Security.Decode | backend/app/utils/security.py:43-53 | a token decodes exactly when it is signed, its `exp` is not past and its `sub`, if any, is a string, and then its claims are returned unchanged |
| Security.VerifyTokenSound | backend/app/utils/security.py:43-51 | a verified subject comes from a signed, unexpired token whose `sub` is that subject and whose `type` is the requested one |
| Security.WithExpiryKeepsClaims | backend/app/utils/security.py:24-41 | the token builders work on a copy: the claims are the input's plus `exp` and `type`, and every other claim is unchanged |
| Security.AccessTokenRoundTrip | backend/app/utils/security.py:24-51 | an access token for a subject verifies as "access" until its expiry and never as another type or as a reset token |
| Security.RefreshTokenRoundTrip | backend/app/utils/security.py:36-51 | a refresh token verifies only as "refresh", for seven days, and never as a reset token |
| Security.ResetTokenRoundTrip | backend/app/utils/security.py:55-70 | a reset token gives its email back for one hour and is refused as an access or refresh token |
| Security.ForgedRefused | backend/app/utils/security.py:43-53 | a string that does not verify under the key gives None, never an error |
| Dependencies.LookupById | backend/app/utils/dependencies.py:23-26 | the account found has the id and is in one of the two collections; none is found exactly when neither collection has the id |
| Dependencies.GetCurrentUserSpec | backend/app/utils/dependencies.py:11-36 | 401 exactly when the token does not verify as an access token; 404 exactly when the id is in neither collection; the user found has that id and comes from "users" whenever "users" has it |
| Dependencies.GetCurrentActiveUser | backend/app/utils/dependencies.py:38-46 | 400 exactly for an inactive account that the first step found; an active one passes unchanged, and every failure of the first step passes through unchanged |
| Dependencies.GetCurrentLawyerSpec | backend/app/utils/dependencies.py:38-61 | failures are 401, 404, 400 (inactive, checked before the role), 403 or a malformed id; a lawyer that passes is the same account, active, with role "lawyer" and approved, and passes exactly then |
| Dependencies.RefreshTokenRejected | backend/app/utils/dependencies.py:14-21 | a refresh token never passes get_current_user: 401 |
| UserSchema.ValidateUserRegister | backend/app/schemas/user.py:13-15 | a registration is accepted exactly when the password has at least 6 characters and the role is "user" or "lawyer"; otherwise 422 |
| UserSchema.ValidateCode | backend/app/schemas/user.py:74-79 | validate_code accepts exactly a non-empty all-digit code, and raises ValueError otherwise |
| UserSchema.ValidatePasswordReset | backend/app/schemas/user.py:68-79 | a reset body is accepted exactly when the code has 6 characters, all digits, and the new password has at least 6 |
| UserSchema.ValidatePasswordChange | backend/app/schemas/user.py:82-84 | a password change is accepted exactly when the new password has at least 6 characters |
| UserSchema.ValidCodeIsSixDigitNumber | backend/app/schemas/user.py:71-79 | an accepted code reads with int() as its digit value, which is below 1000000 |
| UserSchema.DigitsValueBound | backend/app/schemas/user.py:71 | n digits denote a number below 10^n |
| ChatbotRoutes.EffectiveTopK | backend/app/routes/chatbot_routes.py:13-33 | `top_k or 6`: a missing or 0 value becomes 6, any other is kept, so the value passed on is never 0 |
| ChatbotRoutes.EffectiveThreshold | backend/app/routes/chatbot_routes.py:14-34 | `score_threshold or 0.18`: a missing or 0.0 value becomes 0.18, so a threshold of exactly 0 is never passed on |
| ChatbotRoutes.ChatResponseSpec | backend/app/routes/chatbot_routes.py:17-39 | 400 exactly for a blank message; otherwise 500 exactly when inference fails, and else the inference's own result unchanged (bare string or answer) |
| ChatbotRoutes.ChatEndpoint | backend/app/routes/chatbot_routes.py:17-39 | a blank message changes nothing; any other leaves the resources loaded, and the answer is the one ChatResponse gives |
| ChatbotService.ParseAll | backend/app/services/chatbot/chatbot_service.py:36-40 | the parses of a list of lines exist exactly when every line parses, one record per line in order |
| ChatbotService.ParseLinesSpec | backend/app/services/chatbot/chatbot_service.py:33-41 | the line-by-line load equals parsing exactly the non-blank lines, in file order, all or nothing |
| ChatbotService.ParseLinesFailsOnward | backend/app/services/chatbot/chatbot_service.py:36-40 | a parse failure on any prefix of the file is a failure of the whole load |
| ChatbotService.LoadJsonlDocs | backend/app/services/chatbot/chatbot_service.py:31-41 | a missing file gives []; otherwise the loop's result is the records of the non-blank lines in order, and a line json.loads rejects is an unhandled error |
| ChatbotService.HitsOf | backend/app/services/chatbot/chatbot_service.py:120-128 | never more hits than search columns; every hit's row id is in range, its record is docs at that row and its score and row id come from the search |
| ChatbotService.HitsOfAppend | backend/app/services/chatbot/chatbot_service.py:121-128 | the columns are handled one at a time, in order: hits of a concatenation are the concatenated hits |
| ChatbotService.HitsOfAllInRange | backend/app/services/chatbot/chatbot_service.py:121-128 | when every row id is in range nothing is dropped and hit k is column k with doc_index = row id |
| ChatbotService.HitsOfOutOfRange | backend/app/services/chatbot/chatbot_service.py:123-124 | a row id below 0 or at least len(docs) gives no hit |
| ChatbotService.CollectHits | backend/app/services/chatbot/chatbot_service.py:121-128 | the loop appending hits computes exactly the hits of the columns |
| ChatbotService.AboveThreshold | backend/app/services/chatbot/chatbot_service.py:229 | the filtered list is no longer than the input and every hit in it reaches the threshold |
| ChatbotService.AboveThresholdMembership | backend/app/services/chatbot/chatbot_service.py:229 | a hit is kept exactly when it was retrieved and its score is at least the threshold |
| ChatbotService.AboveThresholdAppend | backend/app/services/chatbot/chatbot_service.py:229 | the filter keeps retrieval order: it distributes over concatenation |
| ChatbotService.AboveThresholdEmpty | backend/app/services/chatbot/chatbot_service.py:229-234 | nothing passes exactly when every hit scores below the threshold |
| ChatbotService.HeaderParts | backend/app/services/chatbot/chatbot_service.py:153-161 | at most four header lines, only for non-empty fields, title first when present; no lines exactly when title, date, id and name are all empty |
| ChatbotService.ExcerptSource | backend/app/services/chatbot/chatbot_service.py:149-162 | the excerpt is `text` when truthy, else `_text_for_embed` when truthy, else the header fallback |
| ChatbotService.Truncate | backend/app/services/chatbot/chatbot_service.py:164-165 | a text of at most max_chars is unchanged; a longer one becomes its first max_chars characters and "..." |
| ChatbotService.LabelFallback | backend/app/services/chatbot/chatbot_service.py:166-169 | the label is "doc_index: N" exactly when title, id and date are all empty |
| ChatbotService.Blocks | backend/app/services/chatbot/chatbot_service.py:137-170 | one block per hit, block i built from hit i at position i |
| ChatbotService.BlockStartsWithTag | backend/app/services/chatbot/chatbot_service.py:170 | block i begins with "[SOURCE i]", counting from 0 |
| ChatbotService.SourceTagInjective | backend/app/services/chatbot/chatbot_service.py:170 | different positions get different tags |
| ChatbotService.SourcesBlockSnoc | backend/app/services/chatbot/chatbot_service.py:170-171 | one more hit appends "\n\n" and the next block to the joined text |
| ChatbotService.SourcesBlockFew | backend/app/services/chatbot/chatbot_service.py:137-171 | no hits give "" and a single hit gives its block alone |
| ChatbotService.BuildExcerpt | backend/app/services/chatbot/chatbot_service.py:149-162 | the excerpt built step by step is the one ExcerptSource defines |
| ChatbotService.BuildHeaderParts | backend/app/services/chatbot/chatbot_service.py:152-161 | the appended header lines are exactly HeaderParts |
| ChatbotService.BuildLabel | backend/app/services/chatbot/chatbot_service.py:166-169 | the label built by the loop body is the one Label defines |
| ChatbotService.BuildBlock | backend/app/services/chatbot/chatbot_service.py:138-170 | the loop body for hit i produces Block(i, hit) |
| ChatbotService.BuildSourcesBlock | backend/app/services/chatbot/chatbot_service.py:135-171 | the loop's joined text is the blocks of the hits in order, joined by a blank line |
| ChatbotService.AskGroq | backend/app/services/chatbot/chatbot_service.py:174-212 | never empty; "I do not know" when no client is configured, when the call raises or when the reply is empty; otherwise the reply itself |
| ChatbotService.RespondSpec | backend/app/services/chatbot/chatbot_service.py:215-248 | the bare "I do not know" comes back exactly when no hit reaches the threshold; otherwise the answer is the generator's reply to the evidence of exactly the kept hits, which are returned |
| ChatbotService.InferenceHitsValid | backend/app/services/chatbot/chatbot_service.py:215-248 | every returned hit names a corpus record by its row and reaches the threshold; an answer with hits needs top_k ≥ 1; there are never more hits than the index returned, so never more than top_k when the search gives top_k columns |
| ChatbotService.RetrievalAtMostTopK | backend/app/services/chatbot/chatbot_service.py:108-132 | when the index search gives k columns for k ≥ 1, a successful retrieval has at most top_k hits; for top_k < 1 it succeeds only when the index or the corpus is missing, with no hits |
| ChatbotService.FormatRecoversAnswer | backend/app/services/chatbot/chatbot_service.py:251-292 | the stripped answer can be read back from between the "ANSWER (sourced):\n" prefix and the final newline, and the hits do not matter |
| ChatbotService.Chatbot.constructor | backend/app/services/chatbot/chatbot_service.py:26-28 | the three module globals start as None and [] |
| ChatbotService.Chatbot.Initialize | backend/app/services/chatbot/chatbot_service.py:50-89 | afterwards the corpus, index and model are loaded; with all three present nothing changes and no load happens; otherwise one load of corpus and index happens, and the model is loaded exactly when it was missing, so a present model is never reloaded |
| ChatbotService.Chatbot.EncodeQuery | backend/app/services/chatbot/chatbot_service.py:92-105 | with a model present nothing changes and the query is encoded; otherwise it initialises, which reloads the corpus and the index once and loads the model once, and a model still missing is an error |
| ChatbotService.Chatbot.RetrieveHits | backend/app/services/chatbot/chatbot_service.py:92-132 | with everything loaded nothing changes; with index and corpus present the loads grow by one exactly when the model is missing; otherwise by the one initialisation plus one more when the model is still missing after it; [] when index or corpus are still missing, an error for top_k < 1, otherwise the hits of the search columns, never more than top_k |
| ChatbotService.Chatbot.RunInference | backend/app/services/chatbot/chatbot_service.py:215-248 | the result is the inference outcome over the retrieved hits that RespondSpec and InferenceHitsValid describe |
| AuthService.LookupByEmail | backend/app/services/auth_service.py:105-108 | the account found has the email and comes from one of the two collections; none is found exactly when neither has the email |
| AuthService.RegisterUser | backend/app/services/auth_service.py:31-100 | the two collections and the answer afterwards are the ones Register gives |
| AuthService.RegisterRefusals | backend/app/services/auth_service.py:33-48 | refused exactly when the email is taken in either collection or a lawyer lacks a non-empty license id or specialization, with 400 and nothing stored |
| AuthService.RegisterStores | backend/app/services/auth_service.py:51-88 | one account is appended, to "lawyers" exactly when the role is "lawyer"; it is active, verified and approved, and a lawyer starts with rating 0.0, 0 cases, the experience or 0 and the bio or "" |
| AuthService.RegisterKeepsEmailsUnique | backend/app/services/auth_service.py:33-88 | registration keeps every email unique across both collections |
| AuthService.AuthenticateSpec | backend/app/services/auth_service.py:103-117 | an account comes back exactly when the email is known and the password checks against its hash, and it is the users' account whenever one exists |
| AuthService.RefreshSpec | backend/app/services/auth_service.py:126-145 | a token that does not verify as a refresh token gives 401; a verified subject that is not an ObjectId raises; for a well-formed subject the answer is a token exactly when the account exists and is active, and 401 otherwise; a new access token verifies as access for the same subject, never as refresh |
| AuthService.RefreshRefusesAccessToken | backend/app/services/auth_service.py:128-130 | an access token is refused where a refresh token is required |
| AuthService.ChangePasswordIn | backend/app/services/auth_service.py:149-174 | the collections and the answer afterwards are the ones ChangePassword gives |
| AuthService.ChangePasswordSpec | backend/app/services/auth_service.py:149-174 | a malformed id raises; 404 exactly for an unknown id; 400 exactly for a wrong old password; success exactly when the old password checks; nothing changed on any failure; on success only the first account with the id, in users if there else in lawyers, gets the new hash and update time |
| AuthService.SetPasswordSpec | backend/app/services/auth_service.py:166-171 | the $set on the first account with the id changes its hash and update time and nothing else; no account with the id leaves the collection as it was |
| AuthService.RequestPasswordReset | backend/app/services/auth_service.py:182-221 | the reset codes and the answer afterwards are the ones RequestReset gives |
| AuthService.RequestResetSpec | backend/app/services/auth_service.py:182-221 | an unknown email answers True and changes nothing; a known one ends with one new unused code expiring 900 seconds later as the only unused code for the email, and a failed send is 500 with the code kept |
| AuthService.ReissueKeepsOneUnused | backend/app/services/auth_service.py:205-211 | deleting the email's unused codes and inserting one keeps at most one unused code per email |
| AuthService.ReissueKeepsIdsUnique | backend/app/services/auth_service.py:205-211 | a code inserted under a fresh id keeps the code ids distinct |
| AuthService.VerifyAndResetPassword | backend/app/services/auth_service.py:224-276 | the three tables and the answer afterwards are the ones VerifyAndReset gives |
| AuthService.VerifyAndResetSpec | backend/app/services/auth_service.py:224-276 | 400 exactly when no stored code for the email is unused, unexpired and equal to the one given; 404 exactly when there is such a code but no account; success exactly when both exist; on failure nothing changes; on success that code is marked used and the account, in users if there else in lawyers, gets the new hash and update time |
| AuthService.VerifyAndResetStoresHash | backend/app/services/auth_service.py:242-266 | with distinct ids, after a reset the account holds the new hash, the collections keep their sizes, and every other account is unchanged |
| AuthService.ResetCodeSingleUse | backend/app/services/auth_service.py:227-274 | after a successful reset every further reset of that email is refused with 400 and changes nothing, whatever code it gives |
| AuthService.VerifyAndResetKeepsOneUnused | backend/app/services/auth_service.py:257-274 | the reset keeps at most one unused code per email |
| WalletService.FindWallet | backend/app/services/wallet_service.py:39-44 | the wallet found has the email; None exactly when no wallet has it |
| WalletService.GetOrCreateWallet | backend/app/services/wallet_service.py:21-37 | the wallets and the wallet returned are the ones GetOrCreate gives |
| WalletService.GetOrCreateSpec | backend/app/services/wallet_service.py:21-37 | an existing wallet is returned and nothing is inserted; a missing one is appended with zero balance, earnings and withdrawals and the given role |
| WalletService.GetOrCreateIdempotent | backend/app/services/wallet_service.py:23-25 | a second call inserts nothing and returns the same wallet, whatever role and time it gets |
| WalletService.RequestWithdrawalIn | backend/app/services/wallet_service.py:46-82 | the wallets, the withdrawals and the answer afterwards are the ones RequestWithdrawal gives |
| WalletService.RequestWithdrawalSpec | backend/app/services/wallet_service.py:46-82 | the wallet is got or created first; ValueError exactly when its balance is below the amount or a withdrawal is pending for the email, with no withdrawal added; otherwise one pending, unprocessed withdrawal is appended and no balance changes |
| WalletService.WithdrawalWithoutWallet | backend/app/services/wallet_service.py:48-54 | a positive withdrawal from an email without a wallet is refused but leaves a new empty wallet behind |
| WalletService.RequestKeepsOnePending | backend/app/services/wallet_service.py:57-79 | at most one pending withdrawal per email is preserved |
| WalletService.UserWithdrawalsSpec | backend/app/services/wallet_service.py:84-89 | exactly that email's withdrawals, each as often as stored, newest request first |
| TransactionService.BreakdownSpec | backend/app/services/transaction_service.py:16-26 | the fee is the nearest cent to 20%, fee and share add up to the amount, the percentage is 20, and the split is the one a recorded transaction gets |
| TransactionService.CreditWallet | backend/app/services/transaction_service.py:74-130 | the wallets afterwards are the ones Credit gives |
| TransactionService.CreditSpec | backend/app/services/transaction_service.py:74-130 | a missing wallet is created holding the amount as balance and earnings with 0 withdrawn; an existing one has balance and earnings raised by the amount and keeps role and withdrawals; totals over all wallets grow by exactly the amount |
| TransactionService.CreateTransactionIn | backend/app/services/transaction_service.py:28-72 | the transactions, the wallets and the answer afterwards are the ones CreateTransaction gives |
| TransactionService.CreateTransactionSpec | backend/app/services/transaction_service.py:28-72 | ValueError, changing nothing, exactly when the appointment is missing or already has a transaction; otherwise one transaction with the derived split is appended, the lawyer is credited only when named, the platform always, and total balance grows by exactly what was credited |
| TransactionService.StoredDocIsToDict | backend/app/services/transaction_service.py:50-59 | the stored document holds, under each key, what to_dict of the new Transaction writes there |
| TransactionService.CreateTransactionCreditsAll | backend/app/services/transaction_service.py:61-67 | with a named lawyer the wallets' total balance grows by exactly the amount paid |
| TransactionService.CreateKeepsOnePerAppointment | backend/app/services/transaction_service.py:39-59 | at most one transaction per appointment is preserved |
| TransactionService.CreateKeepsSplit | backend/app/services/transaction_service.py:50-59 | every stored transaction keeps fee + share = amount paid |
| TransactionService.GetTransactionById | backend/app/services/transaction_service.py:132-140 | None for a malformed id and for an unknown one; a transaction found has that ObjectId |
| TransactionService.GetTransactionByAppointment | backend/app/services/transaction_service.py:142-147 | the transaction found belongs to the appointment; None exactly when none does |
| TransactionService.AppointmentIds | backend/app/services/transaction_service.py:162-189 | one id per appointment, in order |
| TransactionService.TransactionsOfSpec | backend/app/services/transaction_service.py:164-174 | [] for no appointments; otherwise exactly the stored transactions of those appointments, each as often as stored, newest first |
| TransactionService.TransactionsByLawyerSpec | backend/app/services/transaction_service.py:149-174 | exactly the transactions of the lawyer's first `limit` appointments, newest first, and [] when the lawyer has none |
| TransactionService.TransactionsByUserSpec | backend/app/services/transaction_service.py:176-201 | the same for the client's first `limit` appointments |
| TransactionService.SumOfSplit | backend/app/services/transaction_service.py:214-223 | over split transactions, the shares and the fees add up to what was paid |
| TransactionService.EarningsSummarySpec | backend/app/services/transaction_service.py:210-224 | the count of the lawyer's transactions, the sum of their shares and the sum of their fees, which together are what the clients paid |
| TransactionModel.PlatformFee | backend/app/models/transaction.py:25 | within half a cent of a fifth of the amount, and between 0 and the amount for a non-negative amount |
| TransactionModel.FeeSplit | backend/app/models/transaction.py:22-26 | the fee is the unique nearest cent to 20%, and fee and share add up to the amount |
| TransactionModel.InitDerives | backend/app/models/transaction.py:10-31 | the fee fields are derived from the amount, never taken as input; the date is the given one or now; the other attributes are the arguments |
| TransactionModel.DictKeys | backend/app/models/transaction.py:33-55 | the five required keys always hold their attributes; each optional key is present exactly when its attribute is truthy; no other key and no `_id` is written |
| TransactionModel.DictRequired | backend/app/models/transaction.py:35-41 | the required keys hold the attributes |
| TransactionModel.DictOnly | backend/app/models/transaction.py:35-55 | no key but the required and the optional ones |
| TransactionModel.DictOptional | backend/app/models/transaction.py:43-53 | each optional key is present exactly when truthy, with its attribute as value |
| TransactionModel.FromDictState | backend/app/models/transaction.py:57-68 | fails exactly when `user_paid_amount` is missing (or not an integer); otherwise the split is derived from the amount, every other attribute is the value under its key, the id is str(`_id`) or "", and the date is the stored one or now when falsy |
| TransactionModel.AmountOnly | backend/app/models/transaction.py:57-68 | a document holding only the amount reads with every other attribute None, the id "" and the date now |
| TransactionModel.DictRoundTrip | backend/app/models/transaction.py:33-68 | from_dict(to_dict(t)) gives t back except that the id becomes "" and the falsy optional attributes become None |
| TransactionModel.IdLost | backend/app/models/transaction.py:43-61 | a transaction with an id does not get it back through to_dict and from_dict |
| TransactionModel.StoredIdRead | backend/app/models/transaction.py:61 | a stored document carries MongoDB's _id, and that is the id from_dict reads |
| TransactionModel.IdReplaced | backend/app/models/transaction.py:61 | `_id` feeds the id, as str(`_id`), and nothing else |
| TransactionModel.Transaction.constructor | backend/app/models/transaction.py:10-31 | the attributes are those Init gives, so the split is derived |
| TransactionModel.Transaction.ToDict | backend/app/models/transaction.py:33-55 | the dict built step by step is the one DictOf defines from the attributes |
| TransactionModel.Transaction.FromDict | backend/app/models/transaction.py:57-68 | fails exactly when FromDictState does, and otherwise gives a new transaction whose attributes are those FromDictState reads |
| MeetingService.CreateMeetingRoomIn | backend/app/services/meeting_service.py:22-83 | the meetings and the answer afterwards are the ones CreateMeetingRoom gives |
| MeetingService.CreateMeetingRoomSpec | backend/app/services/meeting_service.py:37-83 | created exactly when the appointment has no room; an existing room is returned with nothing inserted; otherwise one inactive room without participants, named casemate_{appointment}_{time}, is appended |
| MeetingService.RoomNameInjective | backend/app/services/meeting_service.py:51 | rooms of one appointment made at different seconds get different names |
| MeetingService.CreateKeepsOneRoom | backend/app/services/meeting_service.py:37-73 | at most one room per appointment is preserved |
| MeetingService.UpdateKeepsOneRoom | backend/app/services/meeting_service.py:110-123 | an update that keeps room and appointment ids keeps one room per appointment |
| MeetingService.RoomUpdatesKeepOneRoom | backend/app/services/meeting_service.py:107-217 | joining, leaving and closing keep one room per appointment |
| MeetingService.AddParticipantIn | backend/app/services/meeting_service.py:96-133 | the meetings and the answer afterwards are the ones AddParticipant gives |
| MeetingService.AddParticipantSpec | backend/app/services/meeting_service.py:96-133 | an unknown room is untouched and gives false; otherwise the record is present afterwards (appended unless identical), the room is active and started now, and the answer is whether anything changed |
| MeetingService.RemoveParticipantIn | backend/app/services/meeting_service.py:135-164 | the meetings and the answer afterwards are the ones RemoveParticipant gives |
| MeetingService.RemoveParticipantSpec | backend/app/services/meeting_service.py:135-164 | an unknown room gives false; otherwise exactly the entries with the email are dropped, in order, the room is active exactly when someone remains, and has an end time exactly when inactive |
| MeetingService.JoinThenLeaveAlone | backend/app/services/meeting_service.py:107-162 | joining and leaving an otherwise empty room leaves it empty, inactive and ended |
| MeetingService.GetMeetingStatus | backend/app/services/meeting_service.py:166-183 | None exactly for an unknown room; otherwise the stored room's flag, start and participants, with participants_count their number |
| MeetingService.CheckRoomHasParticipants | backend/app/services/meeting_service.py:185-195 | false for an unknown room; true exactly when the room's participant count is positive |
| MeetingService.LeaveMatchesCheck | backend/app/services/meeting_service.py:145-193 | after a leave the room has participants exactly when it is active |
| MeetingService.SaveMeetingRecordIn | backend/app/services/meeting_service.py:197-217 | the meetings and the answer afterwards are the ones SaveMeetingRecord gives |
| MeetingService.SaveMeetingRecordSpec | backend/app/services/meeting_service.py:197-217 | the room becomes inactive, ended now, with duration and notes, keeping its participants; an unknown room gives false |
| MeetingService.CleanupExpiredMeetingsIn | backend/app/services/meeting_service.py:219-232 | the meetings and the count afterwards are the ones CleanupExpiredMeetings gives |
| MeetingService.CleanupSpec | backend/app/services/meeting_service.py:219-232 | exactly the rooms created more than 24 hours ago are deleted and counted; the rest keep their order |
| MeetingService.CleanupKeepsOneRoom | backend/app/services/meeting_service.py:219-232 | cleanup keeps one room per appointment |
| AppointmentService.InsertDocument | backend/app/services/appointment_service.py:75-84 | true with the document stored when the insert succeeds, false with nothing stored when it raises |
| AppointmentService.CreateAppointmentIn | backend/app/services/appointment_service.py:17-73 | the two collections and the answer afterwards are the ones CreateAppointment gives |
| AppointmentService.CreateAppointmentSpec | backend/app/services/appointment_service.py:17-73 | success exactly when both inserts succeed, else an error with no rollback; the appointment starts unfinished and "video" by default; the case is ongoing and shares its appointment id, emails, case type and description |
| AppointmentService.GetAppointment | backend/app/services/appointment_service.py:86-101 | the appointment found has the id; None exactly when none has it |
| AppointmentService.AppointmentsByEmailSpec | backend/app/services/appointment_service.py:103-135 | exactly the appointments of that client, or of that lawyer |
| AppointmentService.GetCase | backend/app/services/appointment_service.py:164-179 | the case found has the id; None exactly when none has it |
| AppointmentService.UpdateAppointmentStatusIn | backend/app/services/appointment_service.py:137-154 | the appointments and the answer afterwards are the ones UpdateAppointmentStatus gives |
| AppointmentService.UpdateAppointmentStatusSpec | backend/app/services/appointment_service.py:143-150 | only the first matching appointment gets the flag; true exactly when it exists and its flag differed, so a repeat gives false |
| AppointmentService.UpdateCaseStatusIn | backend/app/services/appointment_service.py:215-232 | the cases and the answer afterwards are the ones UpdateCaseStatus gives |
| AppointmentService.UpdateCaseStatusSpec | backend/app/services/appointment_service.py:221-229 | the first case with the id gets status and time and the others are unchanged; false for an unknown case, otherwise true unless both already held those values |
| ScheduleService.GetSchedule | backend/app/services/schedule_service.py:9-10 | the schedule found has the email; None exactly when none has it |
| ScheduleService.UpsertScheduleIn | backend/app/services/schedule_service.py:13-29 | the schedules and the answer afterwards are the ones UpsertSchedule gives |
| ScheduleService.UpsertExisting | backend/app/services/schedule_service.py:15-22 | an existing schedule keeps its id and other keys, gets the payload's weekly schedule, and is returned |
| ScheduleService.UpsertNew | backend/app/services/schedule_service.py:23-29 | a new email gets {email, weekly_schedule} appended, and that is returned |
| ScheduleService.UpsertScheduleSpec | backend/app/services/schedule_service.py:13-29 | the returned schedule is stored, has the email and the payload's weekly schedule, [] when the payload has none |
| ScheduleService.UpsertKeepsOthers | backend/app/services/schedule_service.py:13-29 | other emails' schedules read the same afterwards |
| ScheduleService.UpsertIdempotent | backend/app/services/schedule_service.py:13-29 | repeating the upsert changes nothing more |
| LawyersRoutes.ListField | backend/app/routes/lawyers.py:49-58 | a non-empty profile string becomes comma-free pieces that join back to it; an empty or missing one becomes [] |
| LawyersRoutes.CardFee | backend/app/routes/lawyers.py:45 | the fee is the whole part of the consultation fee, truncated toward zero, and 0 when it is missing or 0 |
| LawyersRoutes.CardOf | backend/app/routes/lawyers.py:37-62 | name, email, specialization and verified flag are copied; the id is str(_id); rating, reviews, experience, location and bio are the stored values, or 0.0, 0, 0, "" and "" when missing; the fee is CardFee of the consultation fee; education and achievements as in ListField |
| LawyersRoutes.ListLawyers | backend/app/routes/lawyers.py:34-65 | one card per lawyer the search returned, in its order |
| LawyersRoutes.GetLawyer | backend/app/routes/lawyers.py:80-111 | 404 exactly when no lawyer was found, and otherwise that lawyer's card |
| LawyersRoutes.SerializedCase | backend/app/routes/lawyers.py:123-131 | the keys stay the same; `_id` becomes {"$oid": str(_id)}; each date field becomes {"$date": isoformat} exactly when it held a datetime; every other key keeps its value |
| LawyersRoutes.SerializeCase | backend/app/routes/lawyers.py:118-121 | None stays None, and a document becomes its SerializedCase |
| LawyersRoutes.StatusFilter | backend/app/routes/lawyers.py:147-148 | the query gets the lowercased status exactly when one is given and it is not "all" in any case |
| LawyersRoutes.SerializeAll | backend/app/routes/lawyers.py:156 | one serialised case per case, in order |
| LawyersRoutes.SelectCasesSpec | backend/app/routes/lawyers.py:154 | find(query).sort("creation_date", -1): exactly the matching cases, each as often as stored, newest first |
| LawyersRoutes.SelectedHaveIds | backend/app/routes/lawyers.py:154-156 | the selected cases still carry their `_id` |
| LawyersRoutes.LawyerCasesSpec | backend/app/routes/lawyers.py:134-158 | the listed cases are the serialisations of exactly the lawyer's cases whose status equals the lowercased filter (any status without one or for "all"), newest first, each once |
| LawyersRoutes.ClientCasesSpec | backend/app/routes/lawyers.py:330-348 | exactly the cases of that lawyer with that client, serialised, newest first |
| LawyersRoutes.ExceptionStatusIs500 | backend/app/routes/lawyers.py:179-182 | the text searched for contains a capital letter and the message is lowercased first, so the 400 branch is never taken: every exception there ends in 500 |
| LawyersRoutes.NotFoundNeverMatches | backend/app/routes/lawyers.py:174-180 | str() of the 404 would not contain "invalid objectid" even with the text lower-cased, so the 404 is lost to `except Exception` alone |
| LawyersRoutes.CaseDetailsAsWritten | backend/app/routes/lawyers.py:164-182 | as written: a malformed id and a well-formed id of no case are both answered 500; a case found is answered serialised |
| LawyersRoutes.CaseDetailsMissingIs500 | backend/app/routes/lawyers.py:172-182 | the well-formed id of 24 zeros, with no cases, gets 500 as written where the corrected route gives 404 |
| LawyersRoutes.MalformedIdIs500 | backend/app/routes/lawyers.py:179-182 | the malformed id "abc" gets 500 as written where the corrected route gives 400 "Invalid case ID format" |
| LawyersRoutes.CaseDetails | backend/app/routes/lawyers.py:164-182 | corrected: 400 exactly for a malformed id, 404 exactly for a well-formed id of no case, and the serialised case otherwise |
| LawyersRoutes.NewStatus | backend/app/routes/lawyers.py:189-196 | accepted exactly when the status is a non-empty string whose lowercase is pending, ongoing or closed, and then that lowercase is stored; missing, empty or other strings are 400; a non-string makes .lower() raise and ends in 500 |
| LawyersRoutes.UpdateCaseStatusRouteAsWritten | backend/app/routes/lawyers.py:185-231 | as written: a bad status is answered first and changes nothing; then a malformed id gives 500 and changes nothing; otherwise the update of UpdateStatusOf |
| LawyersRoutes.UpdateCaseStatusRoute | backend/app/routes/lawyers.py:185-231 | corrected: a bad status is answered first and changes nothing; then a malformed id gives 400 and changes nothing; otherwise the update of UpdateStatusOf |
| LawyersRoutes.UpdateRouteDiffersOnMalformedId | backend/app/routes/lawyers.py:228-231 | the written and the corrected route differ exactly for a valid status with a malformed id, and leave the same cases |
| LawyersRoutes.UpdatedCase | backend/app/routes/lawyers.py:202-222 | the updated case keeps its id, so the find_one after the update returns it |
| LawyersRoutes.UpdateCaseStatusSpec | backend/app/routes/lawyers.py:202-224 | 404 with nothing changed for an unknown case; otherwise the first such case gets status and time, and the answer is 304 exactly when it already held both, else its serialisation |
| LawyersRoutes.UpdateCaseStatusNot304 | backend/app/routes/lawyers.py:205-219 | a case whose last_updated is not the current time is never answered 304, even with its status unchanged |
| LawyersRoutes.Later | backend/app/routes/lawyers.py:277-280 | the running maximum is one of its two inputs and no earlier than either date present |
| LawyersRoutes.AggregateFails | backend/app/routes/lawyers.py:259-280 | once one case raises, the whole grouping does |
| LawyersRoutes.LatestDateSpec | backend/app/routes/lawyers.py:276-280 | last_case_date is the maximum over the dated cases, and some case's date |
| LawyersRoutes.AggregateGrouped | backend/app/routes/lawyers.py:248-280 | after the loop there is one entry per client with a truthy user_email, in first-appearance order; each holds exactly that client's cases, total = active + completed, active the "ongoing" or "pending" ones, and the latest date |
| LawyersRoutes.AddCaseGrouped | backend/app/routes/lawyers.py:259-280 | one turn of the loop keeps the grouping invariant |
| LawyersRoutes.MaxBy | backend/app/routes/lawyers.py:301 | max() walks the cases: with datetime keys it gives the first case with the latest date; with falsy keys of one kind, which compare equal, the first case; a failure is the raised exception |
| LawyersRoutes.MaxByOk | backend/app/routes/lawyers.py:301 | max() gets through exactly when every key is read and, for two cases or more, all keys are of one kind Python orders (datetimes; numbers; strings; lists) |
| LawyersRoutes.RecentCase | backend/app/routes/lawyers.py:301 | max() returns one of the cases; it raises exactly for no cases, for a key the model does not read, or for two or more cases whose keys Python cannot compare (None, a dict, or two kinds) |
| LawyersRoutes.RecentCaseIsLatest | backend/app/routes/lawyers.py:301-316 | the case shown as most recent carries the client's last_case_date |
| LawyersRoutes.FalsyKeysCompare | backend/app/routes/lawyers.py:301 | two cases whose creation_date is "" give the first case; two cases without any date make max() raise |
| LawyersRoutes.RowsFail | backend/app/routes/lawyers.py:284-319 | once a client raises, the whole row loop does |
| LawyersRoutes.RowsFromListed | backend/app/routes/lawyers.py:284-319 | every row is the row of a client that has a user record and passes the filter |
| LawyersRoutes.RowsComplete | backend/app/routes/lawyers.py:284-319 | every client with a user record that passes the filter gets its row |
| LawyersRoutes.RowEmails | backend/app/routes/lawyers.py:303-319 | every row carries the email of one of the clients |
| LawyersRoutes.RowsDistinct | backend/app/routes/lawyers.py:284-319 | no two rows are for the same client |
| LawyersRoutes.LawyerClientsRows | backend/app/routes/lawyers.py:234-327 | the rows are sorted newest last_case_date first with undated rows last, are for distinct clients, and each summarises one client's cases with the lawyer |
| LawyersRoutes.RowSummarises | backend/app/routes/lawyers.py:284-319 | a row of a grouped client holds that client's exact counts and latest date, and passes the filter |
| LawyersRoutes.LawyerClientsComplete | backend/app/routes/lawyers.py:246-322 | every client of the lawyer with a user record that the active/past filter wants appears in the answer |
| LawyersRoutes.AggregateOk | backend/app/routes/lawyers.py:259-280 | the grouping raises exactly when a case with a truthy user_email has a status that is not a string, a user_email that cannot be a dict key (a list or a dict), or a truthy date that is not a datetime |
| LawyersRoutes.RowsOk | backend/app/routes/lawyers.py:284-319 | the row loop raises exactly when a listed client has no most recent case |
| LawyersRoutes.LawyerClientsOk | backend/app/routes/lawyers.py:234-327 | an answer comes exactly when every case of the lawyer is groupable and every listed client has one case or keys of one ordered kind; otherwise 500 |
| LawyersRoutes.UnhashableClientIs500 | backend/app/routes/lawyers.py:259-267 | a case whose user_email is a list makes the endpoint answer 500, even with a user record for that e-mail |
| LawyersRoutes.GroupCase | backend/app/routes/lawyers.py:260-280 | one turn of the grouping loop, including its failure for an unhashable user_email, computes AddCase |
| LawyersRoutes.GroupCases | backend/app/routes/lawyers.py:259-280 | the grouping loop computes Aggregate |
| LawyersRoutes.BuildRows | backend/app/routes/lawyers.py:283-319 | the row loop computes Rows |
| LawyersRoutes.GetLawyerClients | backend/app/routes/lawyers.py:234-327 | the handler computes LawyerClients |
| AppointmentsRoutes.IntTextIsNotJson | backend/app/routes/appointments.py:33-74 | a text int() accepts never takes the JSON branch |
| AppointmentsRoutes.NumberLongDateText | backend/app/routes/appointments.py:45-51 | {"$date": {"$numberLong": s}} gives int(s) |
| AppointmentsRoutes.NumberLongText | backend/app/routes/appointments.py:58-62 | {"$numberLong": s} gives int(s) |
| AppointmentsRoutes.DecimalText | backend/app/routes/appointments.py:71-74 | a decimal-integer string gives its value |
| AppointmentsRoutes.NativeMs | backend/app/routes/appointments.py:27-28 | a datetime of whole seconds gives its milliseconds |
| AppointmentsRoutes.NumberLongDateMs | backend/app/routes/appointments.py:45-51 | the {"$date": {"$numberLong": …}} encoding gives back the milliseconds |
| AppointmentsRoutes.NumberDateMs | backend/app/routes/appointments.py:52-56 | the {"$date": ms} encoding gives back ms |
| AppointmentsRoutes.NumberLongMs | backend/app/routes/appointments.py:58-62 | the {"$numberLong": …} encoding gives back the milliseconds |
| AppointmentsRoutes.DecimalMs | backend/app/routes/appointments.py:71-74 | the decimal-string encoding gives back the milliseconds |
| AppointmentsRoutes.ExportedMs | backend/app/routes/appointments.py:33-40 | exported extended JSON in a string is parsed and converted recursively to the milliseconds |
| AppointmentsRoutes.EpochMsRoundTrip | backend/app/routes/appointments.py:20-81 | every encoding of an instant converts back to the milliseconds it stands for |
| AppointmentsRoutes.StrDenotes | backend/app/routes/appointments.py:45-74 | str(ms) stands for ms in every text encoding |
| AppointmentsRoutes.IsFinished | backend/app/routes/appointments.py:115-116 | false when missing; a string is true exactly when its lowercase is "true" or it is "1"; any other value is bool(v) |
| AppointmentsRoutes.IsFinishedStrings | backend/app/routes/appointments.py:116 | "TRUE" and "True" are finished; "0", "false", "yes" and "" are not |
| AppointmentsRoutes.LawyerEmails | backend/app/routes/appointments.py:84 | only truthy emails are collected |
| AppointmentsRoutes.LawyerEmailsSpec | backend/app/routes/appointments.py:84 | an email is collected exactly when it is truthy and some appointment has it |
| AppointmentsRoutes.LawyerMapKeys | backend/app/routes/appointments.py:97-105 | an email is a key of lawyer_map exactly when it can be a dict key and a fetched lawyer has it; a list or dict email is skipped by the except |
| AppointmentsRoutes.LawyerMapLast | backend/app/routes/appointments.py:97-105 | it maps to the name and phone of the last fetched lawyer with it |
| AppointmentsRoutes.MyAppointments | backend/app/routes/appointments.py:112-139 | an unhandled error exactly when an appointment's lawyer_email is a list or a dict, which lawyer_map.get cannot hash; otherwise one row per appointment, in order, each the appointment's enriched base |
| AppointmentsRoutes.UnhashableLawyerRaises | backend/app/routes/appointments.py:131-133 | an appointment whose lawyer_email is a list makes the endpoint raise, whatever the lookup found |
| AppointmentsRoutes.FetchedMapSpec | backend/app/routes/appointments.py:84-111 | an appointment's lawyer is in the map exactly when the lookup went through and a lawyer has its truthy, hashable email, and then it maps to such a lawyer's entry |
| AppointmentsRoutes.MyAppointmentsSpec | backend/app/routes/appointments.py:84-137 | when the endpoint answers, each row has the appointment's fields, its dates converted, the flag normalised, and the lawyer's name and phone, "" when missing, exactly when that lawyer was found |
| AppointmentsRoutes.CollectLawyerEmails | backend/app/routes/appointments.py:84 | the comprehension computes LawyerEmails |
| AppointmentsRoutes.BuildLawyerMap | backend/app/routes/appointments.py:97-105 | the loop, skipping a lawyer whose email cannot be a key, computes LawyerMap |
| AppointmentsRoutes.GetMyAppointments | backend/app/routes/appointments.py:83-139 | the handler computes MyAppointments, failing at the first lawyer_email that cannot be hashed |

## Left out

- **Foreign calls.** FAISS search, the SentenceTransformer encoder with its L2 normalisation, the Groq chat call, argon2 hashing, jose encoding and signature checking, `uuid4`, `random.choices` and the clock are parameters. Tokens are claims maps that are either signed or malformed. Expiry is an integer deadline.
- **Prompt texts.** The texts of the Groq prompts are not modelled; only the evidence block inside them is.
- **Floating point.**
  - Scores are `real` and are only compared.
  - Money is integer cents.
  - `int(float(s))` in `_to_epoch_ms` is truncation of the real that a `float()` parameter returns.
  - A consultation fee is a real whose whole part is taken.
- **Plain-ASCII strings.** `lower()` and `isdigit()` are modelled on ASCII only. Unicode case mapping and non-ASCII digits are not.
- **Database failures.** The driver's own failures (`DuplicateKeyError`, `PyMongoError`, a lost connection) are not modelled. An insert that can fail is a boolean parameter; this covers `_insert_document` and the reset-code e-mail send.
- **Missing e-mail function.** `email_service.send_password_reset_code` (auth_service.py:213) does not exist in email_service.py. As shipped, the send raises `AttributeError` and every reset request for a known e-mail ends in 500 after its code was stored. The `sent` parameter covers both outcomes.
- **Missing appointment lookups.** `get_appointments_for_user` (routes/appointments.py:12) and `get_current_user_email` are not defined in the services shown. `AppointmentsRoutes.MyAppointments` starts from the caller's appointments.
- **Mongo query semantics.** The `case_title` regex search of `get_lawyer_cases` (lawyers.py:150-151) and lawyer_service.py's search queries are library behaviour. The lawyer list starts from the documents the search returned.
- **Mixed-type sorts.** Mongo's ordering between values of different BSON types is not modelled. `sort("creation_date", -1)` orders by the datetime, with other values lowest. `sort("requested_at", -1)` and `sort("transaction_date", -1)` sort integer times.
- **Non-datetime client dates.** In `get_lawyer_clients`, a truthy `last_updated`/`creation_date` that is not a datetime is taken to raise. In Python it would raise only where it is compared or formatted. `LawyersRoutes.AggregateGrouped` therefore covers only runs without such dates. `LawyersRoutes.MaxBy` and `LawyersRoutes.RecentCase` take the same view of max()'s keys; falsy keys are compared as Python does. The 500 of an exception is modelled, not its message.
- **Serialising in place.** `serialize_case` mutates the document it is given. The model returns a new document. Nothing else in the route holds the old one.
- **Lawyer card constants.** The constant keys of the lawyer card (`image`, `languages`, `barAdmissions`) are omitted. List-valued `education` and `achievements` are read as text.
- **Hash-equal e-mail keys.** `defaultdict` and `lawyer_map` key on Python values. Values that are equal but of different types, such as `1` and `True`, are not merged. Unhashable keys are modelled: a list or dict e-mail raises in the grouping loop and in `lawyer_map.get`, and is skipped while lawyer_map is filled.
- **Route glue.**
  - `routes/auth.py`, `routes/meetings.py`, `routes/wallet.py`, `routes/transaction.py` and `routes/schedule_routes.py` are request glue and are not modelled.
  - One quirk: routes/transaction.py:47-52 turns its own 400 into a 500.
  - routes/auth.py:135,142 call functions that auth_service.py does not define.
- **Concurrency.** Concurrent first calls of `initialize`, and any other interleaving of requests, are not modelled.
- **`_to_epoch_ms` encodings.** The stored encodings are modelled as any text that `int()` reads. A naive `datetime` is read as whole seconds with the server's UTC offset as a parameter. The sub-second part of a datetime is not modelled.
- **Other services.** `get_cases_by_user`, `get_cases_by_lawyer`, `get_all_transactions` and `get_unique_specializations` are plain finds and are not modelled. Neither are the startup code, configuration, email_service.py and the remaining pydantic schemas.
- **TransactionModel.FromDictState**: a float or bool `user_paid_amount` is not modelled. Amounts are integer cents, so such a document reads as a failure, where Python would compute a float split.
- **`str()` of other values.** `str()` of an `_id` that is neither a string nor an ObjectId (a float, a datetime, a dict, a list) is a parameter of `FromDictState`.
- **Shape of the FAISS search.** `SearchGivesTopK` takes the search for k neighbours to give k columns. The top_k bound of `ChatbotService.Chatbot.RetrieveHits` rests on it. A search for fewer than one neighbour (a negative `top_k` survives `top_k or 6`) is taken to raise, as FAISS refuses k ≤ 0; the message of that error is not modelled.
- **Non-string corpus fields.** Every corpus field is read as a string or as absent. A truthy non-string value, such as a JSON number `section_id`, would make `.strip()` or `.replace()` raise in `build_sources_block` and the endpoint answer 500; this is not modelled.
- **ChatbotService.HeaderParts**: weaker than the code. It states the number of lines, the title line and when there are none. It does not state the texts of the date, id and name lines.
- **ChatbotService.ExcerptSource**: weaker than the code. It states the two text cases. The header fallback is given by its definition only.

## Findings

| source | as written | input that shows it | evidently intended | confidence | as-written member | corrected member |
|---|---|---|---|---|---|---|
| backend/app/routes/lawyers.py:172-182 | the 404 `HTTPException` raised for a missing case inside the `try` is caught by `except Exception` and answered 500; its text could never match the 400 test, so the `except` branch alone loses it | case id `000000000000000000000000` with no such case | 404 "Case not found", re-raised the way `update_case_status` does | not executed | LawyersRoutes.CaseDetailsMissingIs500 | LawyersRoutes.CaseDetails |
| backend/app/routes/lawyers.py:179-182 | the 400 branch is dead: "invalid ObjectId" has a capital and is searched for in a lower-cased message, and bson's message says "is not a valid ObjectId" anyway; a malformed id is answered 500 | case id `abc` | 400 "Invalid case ID format" | not executed | LawyersRoutes.MalformedIdIs500 | LawyersRoutes.CaseDetails |
| backend/app/routes/lawyers.py:228-231 | the same dead 400 branch in `update_case_status`: a malformed id with a valid status is answered 500 | case id `abc` with status "closed" | 400 "Invalid case ID format" | not executed | LawyersRoutes.UpdateCaseStatusRouteAsWritten | LawyersRoutes.UpdateCaseStatusRoute |
