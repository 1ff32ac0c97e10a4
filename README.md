# Bank transaction service — a Dafny model

This project models the ledger core of a reactive banking microservice.
The service records deposits, withdrawals, credit payments, credit charges
and transfers as `Transaction` rows. It coordinates three remote services
(Account, Credit, Commission) and a message broker that receives a
created-event per deposit.

The model is organised by source file:

- `Entity` (`entity.dfy`) is the `Transaction` entity:
  - its builder and no-argument defaults;
  - the account/credit classification;
  - its declared field constraints.
- `Mapper` (`mapper.dfy`) is the entity-to-response mapping.
- `Repository` (`repository.dfy`) is the reactive store, a class over a
  sequence of rows. Ids are handed out by a counter. The derived finders
  are filters over that sequence.
- `Clients` (`clients.dfy`) holds what a workflow can observe of each
  remote call:
  - `ReadOutcome`: found, 404, or unavailable with the fallback text;
  - `WriteOutcome`: updated, or failed with a message;
  - `CommissionQuote`: a number, a body without a number (zero), a
    failure (zero from the fallback), or no value at all;
  - `PublishOutcome`.

  An answer without a body is not an outcome of its own. Each client's
  success hook logs a field of the body it receives
  (AccountClient.java:55 and 91, CreditClient.java:55, 101-102 and
  143-144). With no body that dereference fails. A read is then turned
  into "service unavailable" by its fallback. A balance update fails
  with that error. A payment or charge is turned into its fixed fallback
  text. The commission client's hook dereferences nothing, so there an
  empty answer emits no value.
- `Service` (`service.dfy`) holds the workflows, in two forms:
  - Each workflow has a pure *plan* function (`DepositPlan`,
    `WithdrawalPlan`, `CreditPlan`, `TransferPlan`). Given what the
    remote calls return, the plan says:
    - which mutating remote calls are issued, with which arguments;
    - which rows are saved, in which order;
    - whether an event is published;
    - what error, if any, is surfaced.
  - The class `TransactionService` carries each plan out imperatively
    against the store, the call log and the event log. Each method is
    proved to perform exactly its plan. Each method also preserves the
    service invariant `Valid`, which says every stored row has the
    service's shape (`ServiceRow`):
    - never PENDING;
    - a FAILED row has an error text and no balance, commission or
      description;
    - a COMPLETED row has a resulting balance;
    - a commission only on completed deposits and withdrawals;
    - a completed withdrawal never leaves a negative balance;
    - an account id on account kinds and a credit id on credit kinds.
- `Scenarios` (`scenarios.dfy`) contains concrete instances of the plans.

Money is an `int` of minor units, since BigDecimal arithmetic is exact.
Nullable Java fields are `Option`s. Time is the parameter `now`.

Where the specification and the code disagree, the model follows the code:

- The `TransactionType` enum (src/main/java/com/bank/transaction/model/enums/TransactionType.java:7-28)
  has no TRANSFER value, but the transfer workflow uses one. The model
  includes it.
- A deposit whose created-event cannot be published is not "completed
  anyway". The COMPLETED row stays saved, a second, FAILED row is saved,
  and the response is that FAILED row.
- A transfer records nothing when it fails. Its error is returned to the
  caller.
- Every FAILED row has the customer id `"unknown"`. Every caller passes
  a null customer id, even after a successful read.
- Rows made through the builder (every row the service writes) carry no
  commission unless the workflow sets one. The zero default applies only
  to the no-argument constructor.
- A 404 from the Account service surfaces as an exception whose message is
  the bare account id. An unavailable service, or an answer without a body,
  surfaces as the client's fixed fallback text. The workflows'
  "Account not found" and "Credit not found" texts for an empty read
  (TransactionService.java:51, 116, 174, 214, 321 and 324) are never
  produced, because the clients never complete empty.
- Any failure of a credit payment or charge call surfaces as the credit
  client's fixed fallback text, not the original error.
- Deposit, withdrawal, payment and charge always record one row (two for a
  deposit whose event fails), with one exception. A commission call that
  emits no value ends a deposit with no row and no response. A withdrawal
  in that case records a FAILED row: its completion hook
  (TransactionService.java:154-155) dereferences the missing row.

## Model

| member | source | states |
|---|---|---|
| Entity.Builder | src/main/java/com/bank/transaction/model/entity/Transaction.java:60-80 | a builder-made row is PENDING, created at the given time, and has every other field unset (including the commission) |
| Entity.NoArgs | src/main/java/com/bank/transaction/model/entity/Transaction.java:24-102 | a row made by the no-argument constructor is PENDING with a zero commission |
| Entity.AllTrimmed | src/main/java/com/bank/transaction/model/entity/Transaction.java:54-55 | a string counts as blank exactly when every character is at most a space, which is what trimming removes |
| Entity.MeetsDeclaredConstraints | src/main/java/com/bank/transaction/model/entity/Transaction.java:32-62 | a row meets its declared constraints exactly when it has a type, a positive amount and a customer id with a character that trimming keeps |
| Entity.IsAccountTransaction | src/main/java/com/bank/transaction/model/entity/Transaction.java:85-88 | a row is an account transaction exactly when it has a type that is neither TRANSFER nor a credit kind |
| Entity.IsCreditTransaction | src/main/java/com/bank/transaction/model/entity/Transaction.java:93-96 | a row is a credit transaction exactly when it has a type that is not DEPOSIT, WITHDRAWAL or TRANSFER |
| Entity.Classification | src/main/java/com/bank/transaction/model/entity/Transaction.java:85-96 | no row is both an account and a credit transaction; a typed row is one of the two exactly when its kind is not TRANSFER |
| Mapper.ToResponse | src/main/java/com/bank/transaction/mapper/TransactionMapper.java:18-32 | the response copies the eleven mapped fields of the row unchanged and leaves the commission unset |
| Mapper.ToResponseLosesOnlyCommission | src/main/java/com/bank/transaction/mapper/TransactionMapper.java:18-32 | the row is recovered from its response plus its commission, and two rows give the same response exactly when they differ at most in commission |
| Mapper.ToResponseKeepsOutcome | src/main/java/com/bank/transaction/mapper/TransactionMapper.java:26-29 | a FAILED row maps to a FAILED response with the same error text; a COMPLETED row keeps its resulting balance |
| Mapper.ToResponses | src/main/java/com/bank/transaction/service/TransactionService.java:249-253 | mapping a sequence of rows keeps its length and maps each row in place |
| Repository.Where | src/main/java/com/bank/transaction/repository/TransactionRepository.java:15-18 | a derived finder returns exactly the stored rows that match, each as often as it is stored, never more rows than are stored |
| Repository.WhereAppend | src/main/java/com/bank/transaction/repository/TransactionRepository.java:15-18 | filtering distributes over appending rows, so a save adds to a finder's result only the new row, when it matches |
| Repository.IndexOf | src/main/java/com/bank/transaction/repository/TransactionRepository.java:13 | the position found holds a row with the requested id, and no earlier row has that id; none is found exactly when no row has it |
| Repository.IndexOfAppend | src/main/java/com/bank/transaction/repository/TransactionRepository.java:13 | a row appended after the existing ones is found by its id only when no existing row has that id |
| Repository.Lookup | src/main/java/com/bank/transaction/repository/TransactionRepository.java:13 | lookup by id returns a stored row with that id, or nothing exactly when no stored row has that id |
| Repository.FreshIdIsAbsent | src/main/java/com/bank/transaction/repository/TransactionRepository.java:13 | an id at or beyond the counter is held by no stored row |
| Repository.LookupAfterInsert | src/main/java/com/bank/transaction/repository/TransactionRepository.java:13 | after an insert under a fresh id, that id finds the inserted row and every other id finds what it found before |
| Repository.TransactionRepository.Save | src/main/java/com/bank/transaction/repository/TransactionRepository.java:13 | a row without an id is appended under a fresh id; a row with an id replaces the row with that id in place, or is appended; ids stay distinct |
| Repository.TransactionRepository.FindAll | src/main/java/com/bank/transaction/repository/TransactionRepository.java:13 | every stored row in storage order; every result of a derived finder is contained in it, multiplicities included |
| Repository.TransactionRepository.FindById | src/main/java/com/bank/transaction/repository/TransactionRepository.java:13 | the row stored under the id, or nothing when no row has it |
| Repository.TransactionRepository.FindByAccountId | src/main/java/com/bank/transaction/repository/TransactionRepository.java:15 | exactly the stored rows of the account, with their multiplicities |
| Repository.TransactionRepository.FindByCreditId | src/main/java/com/bank/transaction/repository/TransactionRepository.java:16 | exactly the stored rows of the credit, with their multiplicities |
| Repository.TransactionRepository.FindByCustomerId | src/main/java/com/bank/transaction/repository/TransactionRepository.java:17 | exactly the stored rows of the customer, with their multiplicities |
| Repository.TransactionRepository.FindByTransactionType | src/main/java/com/bank/transaction/repository/TransactionRepository.java:18 | exactly the stored rows of the kind, with their multiplicities |
| Clients.CommissionOf | src/main/java/com/bank/transaction/client/CommissionClient.java:51-73 | the commission applied is the quoted number, and zero when the body holds no number or the call failed |
| Clients.AccountReadError | src/main/java/com/bank/transaction/client/AccountClient.java:42-76 | a failed account read surfaces the bare account id for a 404, and the fixed "Account service is currently unavailable" text otherwise |
| Clients.CreditReadError | src/main/java/com/bank/transaction/client/CreditClient.java:42-76 | a failed credit read surfaces "Credit not found with id: <id>" for a 404, and the fixed "Credit service is currently unavailable" text otherwise |
| Service.FailedRow | src/main/java/com/bank/transaction/service/TransactionService.java:303-317 | a failure row is FAILED, keeps kind, amount and ids, carries the error text, has customer "unknown" when none is given, and meets the entity's declared constraints |
| Service.AccountRow | src/main/java/com/bank/transaction/service/TransactionService.java:67-76 | the completed deposit or withdrawal row (also TransactionService.java:139-148): kind, requested amount, the request's account, the read customer, the new balance and the commission, no error; it has the service shape when the amount is positive and, for a withdrawal, the new balance is not negative |
| Service.CreditRow | src/main/java/com/bank/transaction/service/TransactionService.java:182-190 | the completed payment or charge row (the charge builder is at 222-230): the credit, the read customer, the balance the Credit service returned, no commission, no error; it has the service shape when the amount is positive |
| Service.TransferRow | src/main/java/com/bank/transaction/service/TransactionService.java:352-370 | a transfer leg: a COMPLETED TRANSFER row for the updated account's id, customer and balance, with the requested amount and description; it has the service shape and is neither an account nor a credit transaction |
| Service.DepositPlan | src/main/java/com/bank/transaction/service/TransactionService.java:47-90 | a deposit never checks funds: once the account is read and a commission emitted, the balance is set to balance + amount - commission; an unreadable account gives one FAILED row with the read error and no mutation; a failed update gives one FAILED row with its message; a publish failure appends a FAILED row after the COMPLETED one; no row at all exactly when the commission call emits nothing; every row has the service shape |
| Service.WithdrawalPlan | src/main/java/com/bank/transaction/service/TransactionService.java:112-163 | a withdrawal always leaves exactly one row; it updates the account exactly when a commission is emitted and balance >= amount + commission (equality allowed), setting it to balance - (amount + commission) >= 0; otherwise one FAILED row records insufficient funds with the required and available amounts, the read or update error, or the null dereference when no commission is emitted |
| Service.CreditPlan | src/main/java/com/bank/transaction/service/TransactionService.java:170-243 | a payment or charge always leaves exactly one row; it makes one call to the Credit service only after the credit is read, records the balance the Credit service returns with no commission, and on any update failure records a FAILED row with the client's fixed fallback text |
| Service.TransferPlan | src/main/java/com/bank/transaction/service/TransactionService.java:319-377 | a transfer mutates nothing unless both accounts are read and the source stays at or above zero; then both balances are set (source - amount, destination + amount); it either surfaces an error and saves no row, or saves two COMPLETED legs, source first, exactly when both updates return; errors are taken source first |
| Service.TransactionService.SaveFailedTransaction | src/main/java/com/bank/transaction/service/TransactionService.java:303-317 | appends exactly the failure row under a fresh id and keeps the service invariant |
| Service.TransactionService.SendCreateKafka | src/main/java/com/bank/transaction/service/TransactionService.java:92-105 | the event log grows by the saved row exactly when the publish succeeds, and the result reports that |
| Service.TransactionService.ProcessDeposit | src/main/java/com/bank/transaction/service/TransactionService.java:47-90 | performs the deposit plan (calls, rows under fresh ids, event), keeps the invariant, and responds with the last row saved, or nothing when no row is saved |
| Service.TransactionService.ProcessWithdrawal | src/main/java/com/bank/transaction/service/TransactionService.java:112-163 | performs the withdrawal plan, keeps the invariant, and responds with the one row saved |
| Service.TransactionService.ProcessCreditOperation | src/main/java/com/bank/transaction/service/TransactionService.java:170-243 | performs the credit plan for a payment or a charge, keeps the invariant, and responds with the one row saved |
| Service.TransactionService.ProcessPayment | src/main/java/com/bank/transaction/service/TransactionService.java:170-203 | performs the credit plan for a payment |
| Service.TransactionService.ProcessCharge | src/main/java/com/bank/transaction/service/TransactionService.java:210-243 | performs the credit plan for a charge |
| Service.TransactionService.Transfer | src/main/java/com/bank/transaction/service/TransactionService.java:319-377 | performs the transfer plan, keeps the invariant, and returns either the plan's error or the two saved legs as responses |
| Service.TransactionService.FindAll | src/main/java/com/bank/transaction/service/TransactionService.java:249-253 | every stored row, in storage order, as a response |
| Service.TransactionService.FindById | src/main/java/com/bank/transaction/service/TransactionService.java:260-265 | the response for the row stored under the id, or the not-found error exactly when no stored row has it |
| Service.TransactionService.FindByAccountId | src/main/java/com/bank/transaction/service/TransactionService.java:272-276 | the repository finder's rows for the account, in the same order and with the same multiplicities, each mapped to a response; membership stated in both directions |
| Service.TransactionService.FindByCreditId | src/main/java/com/bank/transaction/service/TransactionService.java:283-287 | the repository finder's rows for the credit, in the same order and with the same multiplicities, each mapped to a response; membership stated in both directions |
| Service.TransactionService.FindByCustomerId | src/main/java/com/bank/transaction/service/TransactionService.java:294-298 | the repository finder's rows for the customer, in the same order and with the same multiplicities, each mapped to a response; membership stated in both directions |
| Scenarios.DepositExample | src/main/java/com/bank/transaction/service/TransactionService.java:57-78 | 100.00 deposited with a 2.50 commission onto 50.00 leaves 147.50; the one COMPLETED row keeps the requested amount and the commission, and its event is published |
| Scenarios.DepositCanOverdraw | src/main/java/com/bank/transaction/service/TransactionService.java:57-78 | a deposit smaller than its commission lowers the balance, even below zero |
| Scenarios.WithdrawalExample | src/main/java/com/bank/transaction/service/TransactionService.java:124-135 | 200.00 requested from 150.00 issues no balance update and records one FAILED row with insufficient funds (200.00 required, 150.00 available), customer "unknown" and no balance |
| Scenarios.WithdrawalOfEverything | src/main/java/com/bank/transaction/service/TransactionService.java:124-140 | a balance equal to amount plus commission is enough: the update sets zero and the row is COMPLETED |
| Scenarios.TransferExample | src/main/java/com/bank/transaction/service/TransactionService.java:330-370 | 300 moved from 500 to 100 sets 200 and 400 and records two COMPLETED legs with the shared description |
| Scenarios.TransferHalfDone | src/main/java/com/bank/transaction/service/TransactionService.java:347-370 | when the destination update fails after the source update, the source balance has been changed and nothing is recorded |
| Scenarios.PaymentToMissingCredit | src/main/java/com/bank/transaction/service/TransactionService.java:170-203 | a payment to a credit that answers 404 issues no call and records one FAILED PAYMENT row on the credit with "Credit not found with id: <id>" |
| Scenarios.DepositToUnreadableAccount | src/main/java/com/bank/transaction/client/AccountClient.java:55-75 | a deposit to an account whose read is unavailable (or answers without a body) issues no call and records one FAILED row with the fallback text |
| Scenarios.DepositWithoutCommission | src/main/java/com/bank/transaction/service/TransactionService.java:57-83 | a deposit whose commission call emits nothing issues no balance update, saves nothing and publishes nothing |
| Scenarios.WithdrawalWithoutCommission | src/main/java/com/bank/transaction/service/TransactionService.java:120-161 | a withdrawal whose commission call emits nothing issues no balance update and records one FAILED row with the null-dereference error |
| Scenarios.TransferToItself | src/main/java/com/bank/transaction/service/TransactionService.java:319-377 | a transfer from an account to itself writes two conflicting balances |

## Left out

- Resilience (circuit breakers, retries, timeouts) is left out. Only how
  each client classifies an outcome is modelled: found, 404 or fallback
  text.
- Broker delivery, JSON serialisation and the event envelope are left out.
  This covers the event id, the timestamp and the producer service. The
  model keeps only which row an event carries.
- The HTTP controllers, the global exception handler, HTTP status codes and
  configuration are left out. The controllers are thin wrappers.
- Concurrency is left out. The reactive `zip` of the two transfer reads,
  and of the two transfer updates, is taken as sequential with the source
  first. Both updates are issued before either result is looked at.
- The clock is left out. `createdAt` is the parameter `now`, shared by
  every row of one request.
- Mongo ObjectId strings are left out. Ids are natural numbers handed out
  by a counter, so a lookup by a malformed id string is not modelled.
- The rendering of BigDecimal values inside error texts is left out.
  Insufficient funds is kept as the pair (required, available), and "not
  found" as the id.
- BigDecimal scale is left out. Two amounts that are equal in value but
  differ in scale are not distinguished.
- The text of a null-dereference error is left out. It is rendered by the
  runtime, so the model keeps it as `NullDereference`. When such an error
  comes from a balance update, it is one of the unconstrained messages of
  `Failed`.
- Failures of the store itself (a save that errors) are left out.
- Null balances or ids in the remote services' answers are left out.
  Snapshots always hold an id and a balance.
- The Withdrawal, Payment and Transfer request classes are not part of
  this model. Their validation is taken to be like the Deposit and Charge
  requests: a non-blank id and a positive amount. For transfers nothing in
  the code enforces this. The `@Valid` on `transfer`
  (TransactionService.java:319) has no effect on a service class that is
  not marked `@Validated`, and no controller calls `transfer`. Without the
  assumption, a transfer of a non-positive amount would save TRANSFER rows
  with that amount. `Service.ValidTransferRequest` excludes this case.
- Rolling back a half-done transfer is left out. There is no such step in
  the code: `Scenarios.TransferHalfDone` shows the source balance changed
  with nothing recorded.
- Service.ServiceRow: for a FAILED row, the invariant says only that a
  customer id is present. The plan functions state that it is "unknown".
