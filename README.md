# Transaction simulator: the ledger-replay core

A model of the payments engine of `transaction-simulator`. The engine reads a stream of typed
operation records: deposit, withdrawal, dispute, resolve and chargeback. Each record names a client and
a transaction id. The engine routes every record to that client's account. The account is a small state
machine with available and held funds, a lock, and a history of the deposits that may still be disputed.

The model is split by source file:

- `ids.dfy` — client ids (unsigned 16-bit) and transaction ids (unsigned 32-bit) as bounded newtypes, and
  amounts as exact integers.
- `io.dfy` — the record (`InputLine`) and its amount-presence check.
- `transaction.dfy` — the stored deposit, with an amount and a disputed flag. The datatype selectors
  `amount` and `disputed` are the source's two accessors.
- `account.dfy`:
  - `AccountState`, a value that specifies each operation as a function;
  - `Account`, a class whose methods update its fields in place, each proved equal to the matching function
    on its previous state.
- `account_properties.dfy` — laws that relate several account operations:
  - dispute is idempotent;
  - resolve undoes a dispute;
  - dispute and resolve preserve the total;
  - the held funds equal the sum of the deposits under dispute, as long as no deposit reuses the id of a disputed one.
- `ledger.dfy`:
  - `Step` and `Replay` specify what one record and a whole stream do to the map of accounts;
  - `Engine`, a class owning one `Account` object per client, whose `ProcessTransaction` and `ProcessAll`
    are proved to compute `Step` and `Replay`;
  - `RunEngine` builds an engine, feeds it the records and collects the reports.
- `ledger_properties.dfy` — properties of replaying streams:
  - lock finality;
  - clients only appear through valid deposits;
  - other clients are untouched;
  - invalid records are dropped;
  - held consistency is kept while transaction ids are unique.
- `traces.dfy` — the scenarios of the engine's tests, proved as equalities on `Replay` and on the
  report. Amounts are in units of 1/10000, so `3.5` is `35000`.

## Model

| member | source | states |
|---|---|---|
| Io.InputLine.Valid | src/io.rs:27-35 | a record is valid exactly when it carries an amount if and only if it is a deposit or a withdrawal |
| Io.ValidDependsOnlyOnShape | src/io.rs:27-35 | validity depends only on the kind and on whether an amount is present, never on the client, the id or the amount's value |
| Io.ValidHasNeededAmount | src/io.rs:29-30 | every valid record has the amount that deposit and withdrawal unwrap |
| Transactions.Transaction.Deposit | src/transaction.rs:20-26 | a new stored deposit has the given amount and is not disputed |
| Transactions.Transaction.Dispute | src/transaction.rs:32-36 | afterwards the transaction is disputed with the same amount; an already disputed one is returned unchanged |
| Transactions.Transaction.Undispute | src/transaction.rs:38-42 | afterwards the transaction is not disputed with the same amount; an undisputed one is returned unchanged |
| Transactions.DisputeIdempotent | src/transaction.rs:32-36 | disputing twice equals disputing once |
| Transactions.UndisputeIdempotent | src/transaction.rs:38-42 | undisputing twice equals undisputing once |
| Transactions.UndisputeAfterDispute | src/transaction.rs:32-42 | undispute after dispute restores an undisputed transaction |
| Accounts.AccountState.Status | src/account.rs:55-63 | the report copies available, held, locked and the client verbatim and has total = available + held |
| Accounts.AccountState.Deposited | src/account.rs:65-72 | available rises by the amount; the id is stored as an undisputed deposit of that amount, overwriting an earlier one; held, locked and the other deposits are unchanged |
| Accounts.AccountState.Withdrawn | src/account.rs:74-82 | available falls by the amount when at least the amount is available; otherwise nothing changes; held, locked and deposits never change |
| Accounts.AccountState.Disputed | src/account.rs:84-98 | for a stored, undisputed deposit, its amount moves from available to held and it becomes disputed; for any other id nothing changes; other deposits are kept |
| Accounts.AccountState.Resolved | src/account.rs:100-108 | for a disputed deposit, its amount moves from held back to available and the mark is cleared; otherwise nothing changes |
| Accounts.AccountState.ChargedBack | src/account.rs:110-119 | for a disputed deposit, its amount leaves held, the mark is cleared and the account is locked, with available unchanged; otherwise nothing changes |
| Accounts.AccountState.Processed | src/account.rs:43-53 | a locked account ignores every record; the account ends locked exactly when it was locked or the record is a chargeback of a disputed deposit; stored ids are never lost and only a deposit adds one |
| Accounts.Account.constructor | src/account.rs:30-39 | a new account has nothing available or held, is unlocked and stores no deposits |
| Accounts.Account.Process | src/account.rs:43-53 | the new fields are the previous state processed with the record |
| Accounts.Account.GetStatus | src/account.rs:55-63 | the reported status is that of the current state |
| Accounts.Account.Deposit | src/account.rs:65-72 | the new fields are the previous state with the deposit applied |
| Accounts.Account.Withdrawal | src/account.rs:74-82 | the new fields are the previous state with the withdrawal applied |
| Accounts.Account.Dispute | src/account.rs:84-98 | the new fields are the previous state with the dispute applied |
| Accounts.Account.Resolve | src/account.rs:100-108 | the new fields are the previous state with the resolve applied |
| Accounts.Account.Chargeback | src/account.rs:110-119 | the new fields are the previous state with the chargeback applied |
| Accounts.Account.Total | src/account.rs:122-124 | the total is available + held of the current state |
| Accounts.Account.Lock | src/account.rs:126-128 | only the lock flag changes, and it becomes set |
| AccountProperties.DisputeIdempotent | src/account.rs:84-98 | a second dispute of the same id is a no-op |
| AccountProperties.ResolveUndoesDispute | src/account.rs:84-108 | resolving a dispute restores the account exactly as it was before the dispute |
| AccountProperties.ChargebackAfterDispute | src/account.rs:84-119 | dispute then chargeback lowers available and the total by the deposit, leaves held as before and locks |
| AccountProperties.DisputeKeepsTotal | src/account.rs:84-98 | a dispute never changes the total |
| AccountProperties.ResolveKeepsTotal | src/account.rs:100-108 | a resolve never changes the total |
| AccountProperties.TotalChanges | src/account.rs:65-119 | a deposit adds its amount to the total; a withdrawal subtracts its amount or nothing; a chargeback subtracts the disputed amount or nothing |
| AccountProperties.ProcessedKeepsTotal | src/account.rs:43-53 | processing a dispute or resolve record never changes the total |
| AccountProperties.ClaimsNeedDeposits | src/account.rs:84-119 | on an account without stored deposits, every dispute, resolve and chargeback is a no-op |
| AccountProperties.DefaultAccountStatus | src/account.rs:30-39 | a new account reports zero available, held and total, unlocked, and ignores every dispute, resolve and chargeback |
| AccountProperties.DefaultAccountConsistent | src/account.rs:30-39 | a new account's held funds equal the sum of its disputed deposits (both zero) |
| AccountProperties.ProcessedKeepsHeldGap | src/account.rs:43-119 | every record other than a deposit reusing the id of a disputed deposit keeps held minus the disputed deposits' amounts as it was |
| AccountProperties.ProcessedKeepsHeldConsistent | src/account.rs:43-119 | every record keeps held equal to the sum of the disputed deposits' amounts, unless it is a deposit reusing the id of a disputed deposit |
| AccountProperties.DepositOverDisputeStrandsHeld | src/account.rs:65-72 | on an account holding disputed deposit 1 of 5, a deposit reusing id 1 overwrites the dispute and leaves held 5 above the disputed deposits |
| Ledger.Step | src/main.rs:57-73 | an invalid record, and a record other than a deposit for an unknown client, leave every account as it was; no client is ever removed |
| LedgerProperties.EntryOfNewClient | src/main.rs:61-67 | the entry of a client with no account is a zeroed, unlocked account: it reports zero available, held and total and stores no deposits |
| Ledger.StepClients | src/main.rs:61-70 | the set of clients grows by the record's client exactly when it is a valid deposit, and is otherwise unchanged |
| Ledger.StepOthersUntouched | src/main.rs:61-72 | every other client's account is unchanged |
| Ledger.StepKnownClient | src/main.rs:61-72 | a valid record for a known client is applied to that client's account |
| Ledger.StepNewClient | src/main.rs:65-72 | a deposit for a new client creates one account with available = amount, nothing held, unlocked and holding only that deposit |
| Ledger.Replay | src/main.rs:36-38 | replaying a stream in order never removes a client |
| Ledger.Report | src/main.rs:44-52 | the report holds exactly one status per tracked client, that of its account |
| Ledger.Engine.constructor | src/main.rs:22-26 | a new engine tracks no clients |
| Ledger.Engine.AccountFor | src/main.rs:61-70 | the record is routed to the client's existing account or, for a deposit, to a new default account entered under the client; nothing is routed, and nothing changes, for other records to unknown clients |
| Ledger.Engine.ProcessAt | src/main.rs:72 | processing through the routed account object changes that client's state and no other |
| Ledger.Engine.ProcessTransaction | src/main.rs:57-73 | the accounts after the call are Step of the accounts before; existing account objects stay in place |
| Ledger.Engine.ProcessAll | src/main.rs:36-38 | processing records in order yields Replay of the stream |
| Ledger.Engine.Statuses | src/main.rs:47-48 | the statuses of the account objects are the report of the accounts |
| Ledger.RunEngine | src/main.rs:76-83 | a run reports exactly the report of replaying the stream from no accounts |
| LedgerProperties.ReplayAppend | src/main.rs:36-38 | replaying a concatenation is replaying the second stream from the result of the first |
| LedgerProperties.ReplayCons | src/main.rs:36-38 | replaying a stream is its first step followed by the rest |
| LedgerProperties.ReplayThrough | src/main.rs:36-38 | a sequence of states linked record by record by Step ends at the replay of the stream |
| LedgerProperties.ReplayClientsGrow | src/main.rs:61-70 | tracked clients only grow, and every new one is the client of a valid deposit in the stream |
| LedgerProperties.DepositClientsTracked | src/main.rs:61-70 | the client of every valid deposit of the stream is tracked after the replay |
| LedgerProperties.ReplayOthersUntouched | src/main.rs:61-72 | a client no record addresses keeps its account, or keeps having none |
| LedgerProperties.ReplayLockedFrozen | src/account.rs:43-53 | once an account is locked, no later record changes it |
| LedgerProperties.ValidOnly | src/main.rs:58-60 | the filtered stream holds exactly the valid records of the stream, and no more records than it |
| LedgerProperties.ReplayDropsInvalid | src/main.rs:58-60 | replaying a stream gives the same accounts as replaying only its valid records |
| LedgerProperties.StepStoredIds | src/account.rs:65-72 | the ids stored across all accounts grow at most by the record's id, when it is a deposit |
| LedgerProperties.StepStoredIdsPerAccount | src/account.rs:65-72 | each account gains at most the id of a deposit sent to it, so no id moves between accounts |
| LedgerProperties.ReplayStoredIds | src/account.rs:65-72 | after a replay, every stored id was stored before or is the id of a deposit in the stream |
| LedgerProperties.StepKeepsHeldConsistent | src/main.rs:57-73 | one step keeps every account's held funds equal to its disputed deposits, unless the record is a deposit overwriting a disputed one |
| LedgerProperties.ReplayKeepsHeldConsistent | src/main.rs:36-38 | with unique deposit ids, held equals the disputed deposits in every account all along the stream |
| Traces.NoRecords | src/main.rs:118-121 | no records give no accounts and an empty report |
| Traces.MissingAmounts | src/main.rs:123-132 | withdrawals and deposits without an amount are dropped and create no account |
| Traces.UnknownClientAndOverdraft | src/main.rs:134-152 | a withdrawal for an unknown client is dropped and an overdraft is ignored: client 1 ends with 1.5 available |
| Traces.TwoClients | src/main.rs:154-180 | client 1 ends with 1.5 and client 2 with 2.0, its overdraft ignored |
| Traces.DisputeUnknownId | src/main.rs:185-200 | a dispute of an unstored id is ignored |
| Traces.DisputeOtherClientsDeposit | src/main.rs:202-227 | a dispute naming another client's deposit is ignored |
| Traces.DisputeWithdrawal | src/main.rs:229-244 | a dispute naming a withdrawal is ignored |
| Traces.DisputeTwice | src/main.rs:246-261 | a second dispute of the same deposit holds nothing more |
| Traces.DisputeWithAmountDropped | src/main.rs:263-277 | a dispute carrying an amount is dropped: the result equals that of the stream without it |
| Traces.NegativeAvailable | src/main.rs:279-294 | deposit 3, withdraw 2, dispute: available -2, held 3, total 1, unlocked |
| Traces.ResolveWithAmountDropped | src/main.rs:299-315 | a resolve carrying an amount is dropped |
| Traces.ValidResolve | src/main.rs:317-333 | a valid resolve returns the held 3 to available: available 1, held 0 |
| Traces.ChargebackWithAmountDropped | src/main.rs:338-354 | a chargeback carrying an amount is dropped |
| Traces.ChargebackAfterNegative | src/main.rs:358-364 | a chargeback of the disputed deposit leaves available -2 and held 0, and locks |
| Traces.ChargebackLocks | src/main.rs:356-384 | after the chargeback, a deposit to locked client 1 is ignored while client 2's deposit of 100 creates its account |
| Traces.ChargebackLocksReport | src/main.rs:368-383 | the report is client 1 at -2 total and locked, and client 2 at 100 |
| Traces.OrderMatters | src/main.rs:36-38 | records apply in order: a dispute before its deposit is dropped, one after it holds the funds |

## Left out

- CSV reading and writing (`process_from_csv`, `write_status_to_csv`, src/main.rs:30-52) use the external
  `csv` and `serde` crates. The input is instead a sequence of already-typed records, and the output is
  the set of statuses (`Report`). A line the CSV reader fails to parse ends the source's run with an
  error; that path is not modelled.
- `main` and `run_engine`'s argument handling, file opening and panics (src/main.rs:76-93) are I/O.
  `RunEngine` keeps only the replay and the report.
- The serde derive attributes and their renames only steer parsing and header names.
- HashMap iteration order in the output is unspecified, and the tests sort it away. The report is a set.
- `rust_decimal` scale, precision and overflow panics are external. Amounts are unbounded integers,
  so addition, subtraction and comparison are exact. The traces use units of 1/10000.
- The single-variant `TransactionType` tag (src/transaction.rs:5-7, 13-14) has no behaviour and is not stored.
- Transactions.Transaction.Dispute and Transactions.Transaction.Undispute: the source mutates the stored
  transaction in place through `get_mut`. The model returns the updated value, and the account methods
  write it back into their `deposits` map. No reference to a stored transaction escapes in the source,
  so nothing observable differs.
- Ownership: the engine owns one `Account` object per client. Rust's exclusive ownership of its
  accounts is stated as the engine invariant that no account object is shared between two clients.
- AccountProperties.ProcessedKeepsHeldConsistent and LedgerProperties.ReplayKeepsHeldConsistent
  hold only while no deposit reuses the id of a deposit under dispute. The source does not check ids
  for uniqueness, and `DepositOverDisputeStrandsHeld` shows what happens when one is reused.
