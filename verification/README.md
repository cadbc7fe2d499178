# Wager engine: a verified model

The engine keeps wallets for a betting platform. Providers submit BET, WIN, LOSS, REFUND and ROLLBACK commands over HTTP
and over a queue; each command is applied in one database transaction that writes the wager, the wallet, at most one ledger
entry, the outbox events and the inbox row, or nothing. Workers retry commands that wait for a wager they refer to, and
publish outbox events to a broker. This project models that system in Dafny and proves what it keeps over every run.

The model is layered.

* **Domain.** `Money`, `MoneyText`, `Wallet`, `Wager`, `Ledger`: 64-bit money with its overflow guards, the text form of
  amounts, the wallet and wager aggregates as classes, the decision table, ledger entries and events.
* **One transaction.** `Settlement` says what one application computes from what it read. `Tables` holds the database and
  every transaction as a function on it: errors leave the tables as they were. `Store` is the adapter itself, statement by
  statement on tables updated in place, with savepoints and rollback, proved to leave exactly what `Tables` says.
  `Identifiers` and `Commands` are UUID texts and the canonical command form, `Envelopes` the decoder of queue messages,
  `Selection` the claim queries' ordering, `Consumer` the message handler. `Answers` reads the specification from the outside:
  which answer a submission or a creation gets and what it leaves in each table, in terms of rows and fields.
* **Runs.** `Accounts`, `ClosedForm`, `Emission`, `Reachable` and `Runs` state the invariants of one wallet and prove that
  every transaction keeps them: conservation, the ledger chain, frozen results, the closed form of money, single reversal,
  event counts. `Growth`, `Frozen`, `Messages`, `Retries`, `Leases` and `Accounting` say what is never taken back, that
  replayed answers are frozen, that a message is completed on the wager of its own command only, that waiting ends and when a
  waiting wager is due, and which events a run has emitted.
* **Concurrency.** `Interleaving` breaks the transactions into their statements: row locks on wallets and wagers, waits on
  unique keys and on foreign keys, a fresh snapshot per statement, a server clock, rollback at any point, commits whose answer
  is lost, redelivery. `Statements`, `Commits`, `Isolation` and `Footprints` prove that what a transaction has read stays right
  under its locks, that its commit is that of the same transaction run alone, and that it disturbs nobody. `Concurrency`
  concludes that every interleaving leaves the tables of the one-at-a-time run in commit order; `Theorems`, `Guarantees`,
  `Repetitions`, `Refusals`, `Progress` and `Timely` draw the consequences: money, exactly-once effects, answers and refusals,
  frozen results, no deadlock, that everyone can be brought to an end, retries that end within their claims.
* **Witnesses.** `Solo` turns a transaction that nobody disturbs into steps of the concurrent system. `Scenario`,
  `Stale` and `Overtaken` use it for three concrete runs in which something that one might expect of the engine fails.
* **The relay.** `Outbox` is a step system of any number of publishers with leases, tokens, crashes and lost answers;
  `Delivery` proves that marking follows acceptance, lost tokens are powerless, nothing is lost, and, under the timing rules
  that `Config` checks, one publisher works on an event at a time. `Publisher` is the table and `publishOne` as code that
  updates in place, proved to take the steps of the relay.
* **Engine and relay together.** `Projection` and `EndToEnd` are a consumer's balances, fed from the broker's log; `Joint` runs
  engine and relay as one system, in which publishers take what transactions commit, and no event is lost.
* **Views and guards.** `Pages`, `Reconciliation`, `Guards` and `Columns`: keyset pages, the reconciliation report, and the rules
  that the database enforces on its own.

Clocks, fresh identifiers, random draws and the outcome of network calls are parameters. SHA-256 is injective (a hash is
modelled by its preimage; a message may also carry 32 bytes that are no such hash), UUIDs are numbers with 0 for the all-zero one, cursors and event
payloads are the values that their encodings carry. A clock that goes back makes the wallet and the transitions refuse, as in
the source; it is an error path here, not an assumption. Ledger order is the order in which the wallet lock was granted.

Where the source's own texts differ from its code, the code is followed: `scripts/audit.sql:187-192` wants the result currency
of a wager to be the command's, but a CURRENCY_MISMATCH rejection stores the wallet's. Every result is in the wallet's
currency, so the rule holds of a wager exactly when its command was in that currency; `Scenario` has a run in which it fails.

One property that one might expect is false. A repetition of a command reads the wager and then, in a second statement, the
wallet (`internal/adapters/postgres/process.go:133-145`), as a rule without a lock on either. If the wager still waits when
it is read, and a retry or another command of that wallet commits before the second reading, or before the answer is
committed, the answer pairs a status and a balance that need not belong together. It is the answer that the command would be
given at the moment of its commit exactly when the wager was read terminal, or waits to that moment and the wallet's balance
and version are those that were read; `Stale` has a run in which the answer is one that no moment of the run would give:
PENDING_REFERENCE, with the balance and version that the wallet reached when that very wager was processed. Tables are never
affected, an answer about a terminal wager is always the frozen one, and a repetition that came upon the wager while
inserting its own row holds the wallet's lock and answers as at that moment.

The same gap between two statements shows in refusals. A command that has found its identity free is refused for its wallet,
its player or its own content although another command has taken the identity meanwhile; it is then not the refusal that the
tables would give. A refusal by a statement is that of the tables exactly when the identity is still free where the
transaction found it free; `Overtaken` has a run in which NOT_FOUND is answered where IDEMPOTENCY_KEY_REUSED is due.

## Model

| member | source | states |
|---|---|---|
| Money.Add | internal/domain/money.go:90-99 | succeeds exactly when the mathematical sum fits 64 bits and currencies agree, and is then that sum; otherwise says which failed |
| Money.Subtract | internal/domain/money.go:101-110 | the same for the difference |
| Money.Negate | internal/domain/money.go:112-120 | refuses the one value without a negation; the result added to the amount is zero |
| Money.Compare | internal/domain/money.go:122-133 | orders amounts of one currency |
| MoneyText.ParseMoney | internal/domain/money.go:33-74 | accepts exactly the texts that denote an amount in range, returns that amount, and gives overflow and scale errors exactly for amounts too large and fractions too long |
| MoneyText.Print | internal/domain/money.go:135-149 | prints the canonical text of the amount |
| MoneyText.DenotesUnique | internal/domain/money.go:33-74 | no text denotes two amounts |
| MoneyText.CanonicalUnique | internal/domain/money.go:135-149 | an amount has one canonical text |
| MoneyText.ReadPrinted | internal/domain/money.go:33-149 | reading a printed non-negative amount gives the amount back |
| MoneyText.Normalize | internal/domain/money.go:33-149 | printing what was read is canonical, whatever the spelling |
| Wallet.MoveError | internal/domain/wallet.go:46-83 | a movement is refused exactly when it is not possible |
| Wallet.MoveTable | internal/domain/wallet.go:46-83 | every refusal code of a movement, exactly when it is given |
| Wallet.Moved | internal/domain/wallet.go:46-83 | a possible movement keeps the wallet valid, adds or subtracts the amount and counts one version unless the amount is zero |
| Wallet.WalletAggregate.Move | internal/domain/wallet.go:46-83 | moves exactly when possible; a refused movement leaves the wallet as it was |
| Wallet.WalletAggregate.Credit | internal/domain/wallet.go:43 | the credit movement |
| Wallet.WalletAggregate.Debit | internal/domain/wallet.go:44 | the debit movement |
| Wager.WagerAggregate.Transition | internal/domain/wager.go:168-193 | changes exactly when the wager is consistent, open, the clock has not gone back and the result is consistent; otherwise leaves it untouched |
| Wager.TransitionTable | internal/domain/wager.go:71-215 | from a consistent wager, exactly when each of the four transitions is possible, and all that it changes |
| Wager.WagerAggregate.PendingReference | internal/domain/wager.go:195-197 | the transition to the waiting state |
| Wager.WagerAggregate.Process | internal/domain/wager.go:199-203 | the transition to PROCESSED with its result and reference |
| Wager.WagerAggregate.Reject | internal/domain/wager.go:205-209 | the transition to REJECTED with its code and result |
| Wager.WagerAggregate.Fail | internal/domain/wager.go:211-215 | the transition to FAILED with its code and result |
| Wager.DecisionTable | internal/domain/wager.go:225-300 | for every outcome, refusal code and error of the table exactly when it is given, and in which direction money moves; which wager may name which is compared field by field, kind by kind and by amount |
| Wager.AcceptedMeans | internal/domain/wager.go:225-300 | an accepted wager is of the wallet, player and currency and of an amount its kind takes; its reference is another processed one that carries the id named, of the same provider, player, wallet, currency and round, of a kind it may name, and for a reversal unreversed and of the same amount; the side and the room in the balance |
| Wager.ForeignReferenceIsStateless | internal/domain/wager.go:249-252 | a reference in another wallet gets one answer whatever its state, and is never accepted |
| Ledger.NewLedgerEntry | internal/domain/ledger.go:18-45 | an entry is accepted exactly when before, amount and after balance in one currency |
| Settlement.SettleMeans | internal/adapters/postgres/process.go:183-273 | a successful application either moves money once with a matching entry, version, result and two events, or moves none and reports the new state |
| Settlement.SettleSays | internal/adapters/postgres/process.go:183-273 | the status, code, result, reference and times that an application writes into the wager |
| Settlement.SettleMoves | internal/adapters/postgres/process.go:215-260 | the wallet and the ledger entry that it writes, field by field, or neither |
| Settlement.SettleTells | internal/adapters/postgres/events.go:11-47 | the events that it writes, with their identifiers, correlation, cause and content |
| Settlement.DecisionGoesThrough | internal/adapters/postgres/process.go:204-273 | once the table has answered, with forward clocks and a correlation, wallet, transition, entry and events all accept; only the version ceiling can stop money |
| Identifiers.ParseRendered | internal/domain/id.go:13-40 | parsing undoes rendering for every identifier but the all-zero one, which is refused |
| Identifiers.RenderParsed | internal/domain/id.go:13-40 | an accepted text is rendered as itself in lower case |
| Identifiers.ParseAccepts | internal/domain/id.go:13-24 | a text is accepted exactly if it has 36 characters, hyphens at four places and hexadecimal digits elsewhere, not all zero |
| Identifiers.SameIdentifier | internal/domain/id.go:13-40 | two texts name one identifier exactly if they differ in the case of letters only |
| Commands.Normalize | internal/application/normalize.go:10-49 | accepts exactly the commands whose identifiers, five names, reference, currency, amount and kind fit, and answers the canonical command, or the first error in order |
| Commands.NormalizationTable | internal/application/normalize.go:10-49 | which commands are normal, by the bytes and spaces of their texts, their currency, amount and kind, and exactly when each of the six refusals is given |
| Commands.NormalizedSays | internal/application/normalize.go:10-49 | a normalized command says what the texts say, field by field |
| Commands.KindIsSpelled | internal/application/normalize.go:21-42 | the five kinds are read from their names in any case, and from nothing else |
| Commands.NormalizedIsStable | internal/application/normalize.go:10-49 | normalization is idempotent, changes no meaning and fills the correlation |
| Commands.HashCovers | internal/application/contracts.go:128-144 | two commands share a financial hash exactly if their canonical forms differ only in key and transport metadata, however identifiers and kind are spelled |
| Commands.MessageHashCovers | internal/application/contracts.go:146-161 | two messages share a hash exactly if type, time and canonical commands agree, key included and transport metadata aside |
| Envelopes.Decode | internal/workers/engine.go:184-229 | decodes an envelope exactly if it, its amount and its command are in order: every field to the field of its name, identifiers to the same ones, the kind to its upper case, the message as correlation and cause, under an inbox message with that command's own hash |
| Store.Database.InsertLedger | internal/adapters/postgres/process.go:289-315 | appends the server-stamped entry exactly when it balances |
| Store.Database.PersistResult | internal/adapters/postgres/process.go:275-287 | rewrites one row, drops its claim and sets the next attempt of a waiting one |
| Store.Database.WriteEvents | internal/adapters/postgres/events.go:11-46 | appends the event of the status, then the balance event if there is an entry |
| Store.Database.ReadReferenceRow | internal/adapters/postgres/process.go:186-207 | reads the named reference, one of another wallet only if this attempt sees it, and whether it has been reversed |
| Store.Database.Apply | internal/adapters/postgres/process.go:183-273 | on success leaves the tables with exactly the settlement's wallet, wager, entry and events posted, and answers it |
| Store.Database.Reserve | internal/adapters/postgres/process.go:147-174 | reserves a free message, recognises a completed one, refuses a changed one |
| Store.Database.Complete | internal/adapters/postgres/process.go:175-181 | completes the reserved message |
| Store.Database.CommitReplay | internal/adapters/postgres/process.go:133-145 | completes the message on the wager found and answers its frozen or present result |
| Store.Database.ProcessWager | internal/adapters/postgres/process.go:14-102 | the tables and the answer are those of the specification, which the rows of Answers characterise; a failure leaves the tables as they were |
| Answers.IdentityTable | internal/adapters/postgres/process.go:109-131 | a command is a repetition, a misused key, a misused external id or new, by the wagers that carry its key and its id |
| Answers.ReferenceTable | internal/adapters/postgres/process.go:188-208 | the reference read is the wager of the provider that carries the id named, foreign ones only if seen, and is reversed exactly if a processed REFUND or ROLLBACK points at it |
| Answers.MessageTable | internal/adapters/postgres/process.go:28-50 | a message without hash or names is refused; a stored one is refused for another hash or provider and else answered as a replay that changes nothing |
| Answers.KeyTable | internal/adapters/postgres/process.go:52-56 | a command whose key is taken is refused for other content and else answered as a replay, completing its message and changing nothing else |
| Answers.ExternalTable | internal/adapters/postgres/process.go:109-131 | a command whose key is free and whose external id is taken is refused |
| Answers.RequestTable | internal/domain/wager.go:71-141 | from a normal command a wager can be built unless a BET or LOSS names a reference, a reversal names a blank one, or identifier or time is missing |
| Answers.NewTable | internal/adapters/postgres/process.go:57-87 | a new command is refused for its wallet, its player, its content or its identifier, in this order |
| Answers.FirstAnswer | internal/adapters/postgres/process.go:14-102 | any other command leaves exactly what its settlement says, in every table, with its message complete and a wait of one second if it waits; its answer is never marked as a replay |
| Store.Database.RetryReference | internal/adapters/postgres/work.go:88-170 | the tables and the answer are those of the specification, which the rows on retries characterise; a failure leaves the tables as they were |
| Store.Database.ApplyOrFail | internal/adapters/postgres/work.go:116-151 | behind the savepoint a failed application leaves only the failure record, or only the given-up claim |
| Store.Database.CreateWallet | internal/adapters/postgres/store.go:118-182 | the tables are those of the specification, which Answers.CreateTable and Answers.CreationWrites characterise; a refusal leaves them as they were |
| Answers.CreateTable | internal/adapters/postgres/store.go:118-182 | every refusal of a creation exactly when it is given, WALLET_ALREADY_EXISTS exactly if the player has a wallet in that currency, and success exactly otherwise |
| Answers.OpeningTable | internal/adapters/postgres/store.go:146-177 | the OPENING, entry and two events of a positive balance, field by field, and exactly when they can be recorded |
| Answers.CreationWrites | internal/adapters/postgres/store.go:135-182 | what a creation leaves in every table |
| Store.Database.ClaimReferences | internal/adapters/postgres/work.go:63-86 | claims the first due rows by next attempt, creation and id, up to the limit, each under its own token, and no other row |
| Store.ChosenAreDue | internal/adapters/postgres/work.go:67-72 | the rows chosen wait, are due and under no claim in force; every other such row comes after them by time of attempt, creation and id, and none is left if the limit is not reached |
| Store.ClaimsAre | internal/adapters/postgres/work.go:67-72 | the claims are set on exactly those rows, each with its token, and nothing else changes |
| Store.Database.ReleaseReferences | internal/adapters/postgres/work.go:178-182 | gives up exactly the owner's claims on waiting rows |
| Selection.Select | internal/adapters/postgres/work.go:17-23 | the first rows of the order, at most the limit, and no other row comes before them |
| Accounts.RecordKeeps | internal/adapters/postgres/process.go:218-226 | writing a wager without money keeps rows, chain, backing, frozen results, references and single reversal |
| Accounts.BookKeeps | internal/adapters/postgres/process.go:227-264 | booking a movement on a whole reference keeps them too |
| ClosedForm.Conservation | scripts/audit.sql:27-34 | the balance is credits minus debits and not negative |
| ClosedForm.PrefixConserves | internal/domain/ledger.go:18-45 | so is the balance after every prefix of the ledger |
| ClosedForm.BookKeepsClosed | internal/adapters/postgres/process.go:227-264 | booking keeps the balance equal to the opening plus standing WINs minus standing BETs, reversals of reversals included |
| ClosedForm.RecordKeepsClosed | internal/adapters/postgres/process.go:214-226 | so does recording |
| ClosedForm.WinStands | internal/domain/wager.go:249-298 | a WIN counts exactly when no processed ROLLBACK points at it |
| ClosedForm.BetStands | internal/domain/wager.go:249-298 | a BET counts exactly when it has no processed reversal or its REFUND was itself rolled back |
| ClosedForm.RollbackIsFinal | internal/domain/wager.go:253-265 | a ROLLBACK is never reversed |
| ClosedForm.GraphShape | migrations/000001_domain_schema.sql:61-62 | references lead to earlier processed wagers that carry the id named, of the same provider, player, wallet, currency and round and of a kind that may be named; reversals join equal amounts and enter a wager once; two edges end every path |
| Emission.RecordKeepsEmitted | internal/adapters/postgres/process.go:265-271 | recording keeps one terminal and one waiting event per wager as due |
| Emission.BookKeepsEmitted | internal/adapters/postgres/events.go:34-45 | booking adds one terminal and one balance event with the new version |
| Reachable.SettlementFits | internal/adapters/postgres/process.go:183-273 | a settlement on true reads is a permitted record or booking |
| Runs.ProcessKeeps | internal/adapters/postgres/process.go:14-102 | ProcessWager keeps every invariant of every wallet |
| Runs.RetryKeeps | internal/adapters/postgres/work.go:88-170 | so does RetryReference, failed applications included |
| Runs.CreateKeeps | internal/adapters/postgres/store.go:118-182 | so does CreateWallet |
| Runs.StepKeeps | internal/adapters/postgres/process.go:14-102 | so does every transaction |
| Runs.Run | internal/adapters/postgres/process.go:14-102 | every invariant holds after every run from empty tables |
| Growth.StepGrows | migrations/000003_database_guards.sql:18-27 | no transaction changes a request, a terminal row, a taken identity or a completed message |
| Growth.RunGrows | migrations/000003_database_guards.sql:18-27 | nor does any continuation of a run |
| Frozen.FrozenReplay | internal/adapters/postgres/store.go:232-238 | once a wager is terminal every repetition of its command gets the same answer, the wallet after a fixed prefix of its ledger, whatever happened since |
| Frozen.ResultStands | internal/adapters/postgres/process.go:218-249 | every terminal result is the wallet after the ledger prefix of its version, in the wallet's currency |
| Frozen.ResultCurrency | scripts/audit.sql:187-192 | a terminal result is in its command's currency exactly when that is the wallet's currency |
| Scenario.MismatchStoresWalletCurrency | internal/adapters/postgres/process.go:218-226 | a run in which a command in another currency is rejected with a result in the wallet's, against the audit's rule |
| Frozen.RunIsHashed | internal/application/contracts.go:128-144 | after every run a stored hash is that of the stored request |
| Frozen.RepeatHasContent | internal/adapters/postgres/process.go:109-131 | so a repetition that finds a wager has its very content |
| Messages.RunDelivers | internal/adapters/postgres/process.go:147-181 | after every run whose messages carry the hash of their command, a complete message is on the wager of that very command |
| Messages.SealedReplay | internal/adapters/postgres/process.go:28-56 | then a repetition of a terminal wager's command gets the frozen result under whatever message, unless the message itself is refused |
| Frozen.OneWagerPerIdentity | migrations/000001_domain_schema.sql:38-39 | a key or an external id belongs to one wager |
| Frozen.OneEntryPerWager | migrations/000001_domain_schema.sql:69 | a wager has at most one ledger entry |
| Retries.RetryProgress | internal/adapters/postgres/work.go:96-170 | a committed retry held its claim (the token on the waiting row, in time), raises the counter by one, touches no other row and is terminal when it was the last allowed |
| Retries.RetryRefusals | internal/adapters/postgres/work.go:88-106 | a retry is refused for its limits, its wallet or its claim, in this order |
| Retries.AttemptOutcome | internal/adapters/postgres/work.go:122-170 | a committed retry leaves what its application says, told whether it is the last one; a failed application leaves the wager unchanged, or FAILED if it was the last, and no money moves |
| Retries.WaitingGoesOn | internal/adapters/postgres/work.go:125-159 | while the reference is absent or open, an attempt leaves the wager waiting exactly if another one is allowed by count and age |
| Retries.RetryIsRescheduled | internal/adapters/postgres/work.go:153-161 | a wager that waits on is due again after two to the number of its attempts in seconds, at most an hour |
| Retries.FailureIsClean | internal/adapters/postgres/work.go:125-147 | FAILED leaves wallets and ledgers as before, and adds the record and its one event |
| Retries.RetriesAreBounded | internal/adapters/postgres/work.go:88-170 | under a fixed limit the counter is the number of committed retries, at most the limit in any run, and below it while the wager waits |
| Retries.LastAttemptResolves | internal/adapters/postgres/work.go:122-147 | in every reachable state an attempt that is the last one by count or age, under a claim still held, commits a terminal wager |
| Leases.RowsAreDue | internal/adapters/postgres/work.go:153-161 | after any run a waiting wager is due within an hour of the last clock reading, and its claim ends within the longest lease |
| Leases.WaitingIsClaimable | internal/adapters/postgres/work.go:67-72 | so it can be claimed once an hour and the longest lease have passed, whoever held it and crashed |
| Accounting.EventAccounting | internal/adapters/postgres/events.go:11-46 | after any run: one terminal event per terminal wager, one waiting event per wager ever committed as waiting, one balance event per entry in order |
| Accounting.CounterTellsWaiting | internal/adapters/postgres/process.go:265-271 | status and attempt counter tell whether a wager ever waited |
| Statements.StatementFits | internal/adapters/postgres/process.go:14-102 | what a statement has read is true of the committed tables |
| Statements.NeverStranded | internal/adapters/postgres/process.go:76-87 | the two UNAVAILABLE fallbacks are never reached |
| Commits.SameSettlement | internal/adapters/postgres/process.go:191-206 | a settlement depends on a foreign reference by its request only |
| Commits.SubmitIsSerial | internal/adapters/postgres/process.go:14-102 | a commit of a new command is that of the command run alone at that moment |
| Commits.ReplayIsSerial | internal/adapters/postgres/process.go:133-145 | a replay leaves the tables it would leave run alone at that moment, and answers as it would then exactly when the wager was read terminal, or still waits and the wallet is as it was read; found under the wallet lock it always does |
| Commits.RecallIsSerial | internal/adapters/postgres/process.go:28-50 | the same for the replay of a completed message |
| Commits.RetryIsSerial | internal/adapters/postgres/work.go:88-170 | so is a reference retry |
| Isolation.SparedFits | internal/adapters/postgres/process.go:191-206 | a change that leaves a transaction its locks leaves everything it has read right |
| Isolation.ReversalIsLocal | internal/domain/wager.go:249-252 | a processed reversal is in the wallet of the wager it reverses |
| Footprints.EffectsTouch | internal/adapters/postgres/process.go:183-273 | a commit changes only its own wallet, row, identities and message |
| Footprints.TouchSpares | internal/adapters/postgres/store.go:94-116 | such a change leaves every other transaction its locks |
| Concurrency.StatementApart | internal/adapters/postgres/process.go:57-87 | a statement that does not wait takes no lock that another holds |
| Concurrency.EffectsAreSerial | internal/adapters/postgres/process.go:14-102 | every commit is a step of the one-at-a-time run |
| Concurrency.NextKeeps | internal/adapters/postgres/process.go:14-102 | every step of every transaction keeps the system safe |
| Concurrency.Execute | internal/adapters/postgres/process.go:14-102 | every interleaving leaves the tables of the one-at-a-time run of its commits, with all invariants |
| Guarantees.HistoryIsCommitOrder | internal/adapters/postgres/process.go:98-101 | each step that reaches the tables appends exactly the transaction it commits, with the command, claim and clock of its job, and no other step changes the tables |
| Guarantees.AnswersAreSerial | internal/adapters/postgres/process.go:88-145 | in every interleaving a commit leaves and answers what the transaction would run alone at that moment, for a replay the answer exactly when it stands, and always if it was found under the wallet lock |
| Guarantees.RecalledAnswers | internal/adapters/postgres/process.go:28-50 | the same for the answer to a completed message |
| Stale.AnswerOfNoMoment | internal/adapters/postgres/process.go:133-145 | an interleaving in which a replay's answer is one that no moment of the run would give |
| Refusals.RefusalsAreSerial | internal/adapters/postgres/process.go:28-87 | in every interleaving a statement refuses a submission as the committed tables would at that moment, exactly if nobody has taken its identity since it was found free, and changes nothing |
| Refusals.RetryRefusalsAreSerial | internal/adapters/postgres/work.go:88-115 | a statement refuses a retry as the committed tables would |
| Refusals.CommitRefusalsAreSerial | internal/adapters/postgres/process.go:88-101 | so does a commit, and only one that has been judged |
| Overtaken.RefusedOtherwise | internal/adapters/postgres/process.go:57-60 | an interleaving in which a refusal is not the one that the tables would give |
| Solo.SubmitAlone | internal/adapters/postgres/process.go:14-102 | from every reachable state in which nobody holds a lock, the own steps of a new command, with a new message or none, reach the state that the specification names |
| Solo.RetryAlone | internal/adapters/postgres/work.go:88-170 | so do a retry's |
| Guarantees.FrozenOnce | internal/adapters/postgres/store.go:232-238 | in every interleaving, whatever is answered about a terminal wager to a transaction begun later is its frozen result |
| Guarantees.FrozenAnswers | internal/adapters/postgres/store.go:232-238 | so a submission begun later is answered with the frozen result exactly when its message, or its key if it has none, names the wager |
| Repetitions.RepeatsAreFrozen | internal/adapters/postgres/process.go:28-56 | in every interleaving a repetition of a terminal wager's command, begun later, over HTTP or under whatever new or old message, is answered with the frozen result, as long as messages carry the hash of their command |
| Guarantees.ExactlyOnce | internal/workers/engine.go:235-262 | over all interleavings an identity has one wager, a wager one entry, a deleted message a completed row, and no transaction ends in a fallback |
| Guarantees.WaitsForLater | internal/adapters/postgres/store.go:94-95 | every wait, for a wallet, a unique key, a wager row or a foreign key, is for a transaction later in one order |
| Guarantees.SomeoneCanMove | internal/adapters/postgres/store.go:94-95 | there is no deadlock: behind every transaction in progress stands one that can move |
| Guarantees.MovesDeeper | internal/adapters/postgres/process.go:14-102 | a transaction ends within eight steps of its own |
| Progress.EveryoneEnds | internal/adapters/postgres/store.go:94-95 | from every safe state all transactions in progress can be brought to their end, in at most eight steps each |
| Progress.EveryRunEnds | internal/adapters/postgres/process.go:14-102 | so every interleaved run has a continuation after which nobody is in progress |
| Timely.RetryWithinClaim | internal/platform/config/config.go:98-100 | under an accepted configuration a retry that keeps its deadline commits while its claim is still valid, and nobody else can have claimed the wager |
| Timely.WaitingComesBack | internal/adapters/postgres/work.go:67-72 | in every interleaved run a waiting wager can be claimed again once an hour and the longest lease have passed |
| Theorems.MoneyIsConserved | scripts/audit.sql:27-34 | after every interleaving: conservation, chain, version and the closed form, for every wallet |
| Theorems.ReferencesAreShaped | internal/domain/wager.go:249-274 | after every interleaving: that shape of the reversal graph, with the same equalities |
| Outbox.Backoff | internal/workers/engine.go:123-135 | half of two to the attempts (0 to 20) in seconds, capped, plus the draw, so between half and all of it |
| Outbox.StepSafe | internal/adapters/postgres/work.go:13-62 | every step of the relay keeps tokens apart, payloads as committed and published rows accepted |
| Outbox.Execute | internal/workers/engine.go:292-353 | so every run of any number of publishers does |
| Delivery.PublishedWasAccepted | internal/workers/engine.go:334-346 | a row is marked only by the holder of its token, after the broker accepted that very event |
| Delivery.LostTokenIsPowerless | internal/adapters/postgres/work.go:38-62 | a publisher whose token the row no longer carries changes no row |
| Delivery.LostStaysLost | internal/adapters/postgres/work.go:172-177 | a superseded, released or spent token never comes back |
| Delivery.RowsStay | migrations/000003_database_guards.sql:9-16 | rows keep their event, and a published row never changes |
| Delivery.ClaimableAgain | internal/adapters/postgres/work.go:17-23 | every unpublished event can be claimed again once the longest backoff and lease have passed |
| Delivery.LogIsCommitted | internal/workers/engine.go:334-337 | the broker holds committed events only, under their ids |
| Delivery.OneLivePublisher | internal/workers/engine.go:292-353 | workers that honour their deadlines never hold live work on one event twice, and end before their lease |
| Publisher.OutboxTable.ClaimOutbox | internal/adapters/postgres/work.go:13-37 | claims the first free rows, each under its own token, until the lease ends, and no other row |
| Publisher.ChosenAreDue | internal/adapters/postgres/work.go:17-23 | the rows chosen are unpublished, due and under no claim in force; every other such row comes after them by time of attempt, commit and id, and none is left if the limit is not reached |
| Publisher.OutboxTable.MarkPublished | internal/adapters/postgres/work.go:38-47 | marks and unclaims exactly the row that carries the token |
| Publisher.OutboxTable.RetryOutbox | internal/adapters/postgres/work.go:53-62 | postpones exactly the row that carries the token |
| Publisher.OutboxTable.ReleaseClaims | internal/adapters/postgres/work.go:172-177 | gives up exactly the owner's unpublished claims |
| Publisher.PublishOne | internal/workers/engine.go:334-355 | takes the relay's steps and reports progress exactly when the event was accepted and its token marked it |
| Consumer.Handle | internal/workers/engine.go:230-279 | a message is deleted only after its command is committed and its row complete, and is given back otherwise, also when the commit happened and its answer was lost: at once if the engine stops, else after half to all of two to its receive count in seconds, at most thirty |
| Consumer.CommitCompletes | internal/adapters/postgres/process.go:175-181 | a committed command has completed its message on a stored wager |
| Consumer.Redelivered | internal/adapters/postgres/process.go:28-50 | a committed message that comes back, however much later, changes nothing and is answered about the same wager |
| Config.AcceptedIsExact | internal/platform/config/config.go:98-103 | a configuration is accepted exactly if its numbers fit, counted without the wrapping of the duration sums |
| Config.WorkEndsInTime | internal/platform/config/config.go:98-100 | the durations fit: publishing ends before its lease, a reference retry before its claim, and handling before redelivery |
| Config.OnePublisher | internal/platform/config/config.go:98-100 | under an accepted configuration there is one live publisher per event |
| Pages.LedgerPage | internal/adapters/postgres/read.go:20-87 | a page shows the first entries below the cursor in descending order and has a next cursor exactly if there are more; wrong limits, wallets and cursors are refused |
| Pages.PagesAreComplete | internal/adapters/postgres/read.go:49-86 | following cursors shows every entry present at the start exactly once, newest first, whatever is appended meanwhile |
| Pages.PagesEnd | internal/adapters/postgres/read.go:73-86 | each page of a fixed ledger leaves fewer entries |
| Pages.ReadAll | internal/adapters/postgres/read.go:20-87 | reading all pages of a fixed ledger gives exactly its entries |
| Reconciliation.Reconcile | internal/adapters/postgres/read.go:89-121 | reports the unbounded sum exactly when it and the difference fit, consistent exactly when it equals the stored balance |
| Reconciliation.ReachableIsConsistent | internal/adapters/postgres/read.go:89-121 | in every reachable state the sum is the stored balance |
| Projection.VersionsContiguous | internal/adapters/postgres/events.go:34-45 | balance events carry distinct versions without a gap up to the present one |
| Projection.ProjectionIsPast | README.md:145-147 | a projection that keeps the highest version always shows a committed state |
| Projection.Converges | README.md:145-147 | delivered in any order and number, the balance events lead to the stored balance |
| EndToEnd.ReceivedIsPublished | internal/workers/engine.go:334-346 | once a wallet's events are published, the broker has accepted exactly those, up to order and repetition |
| EndToEnd.PublishedIsShown | README.md:145-147 | so a consumer that has read the broker's log shows the balance that the run committed |
| Joint.Execute | internal/workers/engine.go:292-353 | every joint run of engine and publishers keeps both safe, and the relay's rows are the committed outbox |
| Joint.NoEventIsLost | internal/workers/engine.go:292-353 | an event once committed is at every later moment accepted by the broker, or free to be taken once the longest backoff and lease have passed |
| Joint.ConsumerCatchesUp | README.md:145-147 | when a wallet's rows are all published, a consumer of the broker's log shows the committed balance |
| Guards.ValidatorNeverFires | migrations/000004_ledger_integrity.sql:5-34 | every wager of every run passes the database's own ledger check |
| Guards.ValidatorMeans | migrations/000004_ledger_integrity.sql:5-34 | what the ledger check demands: no PENDING wager, and an entry of the right amount, result and side exactly for a wager that moved money |
| Guards.DirectionsAgree | migrations/000004_ledger_integrity.sql:16-27 | the direction that an application writes, whatever it read, is the one that the validator derives from the wager it settled |
| Guards.RunAppends | migrations/000003_database_guards.sql:3-16 | ledgers and outboxes are only ever appended to |
| Columns.WagersNeverRefused | migrations/000001_domain_schema.sql:19-59 | every committed wager satisfies the checks on its state, origin and next attempt, and its foreign keys |
| Columns.WalletsNeverRefused | migrations/000001_domain_schema.sql:9-18 | every committed wallet satisfies its column checks |
| Columns.EntriesNeverRefused | migrations/000001_domain_schema.sql:63-73 | every ledger entry adds up, in the currency of its wallet and of a wager of that wallet |
| Columns.OneWalletPerPlayer | migrations/000001_domain_schema.sql:16 | a player has one wallet per currency |
| Columns.MessagesNeverRefused | migrations/000002_messaging_schema.sql:2-7 | a committed message has a name, is complete, and refers to a stored wager |
| Guards.ReversalsAreSingle | migrations/000001_domain_schema.sql:61-62 | the single-reversal index never refuses |
| Guards.OpeningsAreSingle | migrations/000001_domain_schema.sql:60 | a wallet has one OPENING |

## Left out

- Commands.Normalize: texts are Unicode; byte strings that are no UTF-8 are not modelled. Of upper-casing only what yields ASCII letters is kept, which is all that can make a kind.
- Concurrency.Next: CreateWallet, a claim of one row and a release of one row are single steps; the order among blocked transactions is not modelled; a statement reads the tables and, where it needs one, the clock, in one step.
- Store.Database.ClaimReferences: claims come back in the order of selection, where RETURNING promises none; rows locked by others are given as a set.
- Store.Database.CreateWallet: the UNAVAILABLE refusal of an identifier already in use stands for a primary-key violation, which fresh identifiers never cause.
- Publisher.OutboxTable.ClaimOutbox: as for waiting references, the order of the returned records is that of selection.
- Outbox.Execute: events arrive unconstrained here; Joint.Execute takes them from the engine's commits.
- Joint.Execute: a commit whose event ids are already in the outbox does not happen, as the primary key would have it.
- Columns.WagersNeverRefused: primary keys are map keys, and columns that the model's types already confine, such as enumerations and claim columns that are set together, need no statement; outbox rows are derived from their event, so their checks hold by construction.
- Delivery.OneLivePublisher: deadlines are assumed to be honoured, as the contexts with timeouts make the workers do.
- Repetitions.RepeatsAreFrozen: that messages carry the hash of their command is a condition. Envelopes.Decode, the one maker of messages, establishes it; the store takes any 32 bytes, and Guarantees.FrozenAnswers is the exact statement for those.
- Timely.RetryWithinClaim: the same assumption, for the claim call and the processing deadline.
- Pages.LedgerPage: entry ids are assumed unique, and the cursor text is the cursor's value.
- Config.AcceptedIsExact: reading the environment, and the checks that are not about time, concurrency or batch size, are not modelled.
- Infrastructure errors of the database inside a transaction: each is an abort that leaves nothing, at any point.
- The re-validation of rows as they are scanned (`scanWager`, `scanWallet`): stored rows are proved valid instead.
- The polling loops around `publishOne`, `RetryReference` and `handle`, their pacing, and the drain of full batches.
- The JSON text of queue messages (Envelopes.Decode starts from its fields), HTTP routing, token verification, the broker and queue clients, metrics, process lifecycle.
- Backlog, single-transaction and wallet lookups: reads with no more to prove than their result.
