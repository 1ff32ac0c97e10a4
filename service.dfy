/**
 * The transaction orchestrator. Each workflow reads remote state, applies a
 * money rule, issues mutating calls to the Account or Credit service and
 * appends rows to the ledger; deposit, withdrawal, payment and charge record
 * any failure as one FAILED row, transfer records nothing when it fails.
 *
 * Every workflow has a pure plan (the calls it issues, the rows it saves in
 * order, whether it publishes an event, the error it surfaces) and an
 * imperative method on `TransactionService` proved to carry that plan out.
 */
module Service {
  import opened Wrappers
  import opened Entity
  import opened Mapper
  import opened Repository
  import opened Clients

  /** A deposit or withdrawal request. */
  datatype AccountRequest = AccountRequest(accountId: string, amount: Money, description: Option<string>)

  /** A payment or charge request. */
  datatype CreditRequest = CreditRequest(creditId: string, amount: Money, description: Option<string>)

  /** A transfer request: from `accountId` to `destinationAccountId`. */
  datatype TransferRequest =
    TransferRequest(accountId: string, destinationAccountId: string, amount: Money, description: Option<string>)

  /** Request validation, done before any workflow starts: a non-blank
      target and a positive amount. */
  predicate ValidAccountRequest(r: AccountRequest) {
    !IsBlank(Some(r.accountId)) && r.amount > 0
  }

  predicate ValidCreditRequest(r: CreditRequest) {
    !IsBlank(Some(r.creditId)) && r.amount > 0
  }

  predicate ValidTransferRequest(r: TransferRequest) {
    !IsBlank(Some(r.accountId)) && !IsBlank(Some(r.destinationAccountId)) && r.amount > 0
  }

  /** The customer recorded when none is supplied. */
  const Unknown := "unknown"

  /** The two operations on a credit product, which differ only in their
      kind, their remote call and their fallback text. */
  datatype CreditOperation = Payment | Charge

  function KindOf(op: CreditOperation): TransactionType {
    match op
    case Payment => PAYMENT
    case Charge => CHARGE
  }

  function CallOf(op: CreditOperation, req: CreditRequest): RemoteCall {
    match op
    case Payment => MakePayment(req.creditId, req.amount, req.description)
    case Charge => MakeCharge(req.creditId, req.amount, req.description)
  }

  function UnavailableTextOf(op: CreditOperation): string {
    match op
    case Payment => PaymentUnavailableText
    case Charge => ChargeUnavailableText
  }

  // ---------------------------------------------------------------------
  // Rows
  // ---------------------------------------------------------------------

  /** The shape of every row the service writes. */
  predicate ServiceRow(t: Transaction) {
    && t.transactionType.Some?
    && t.amount.Some? && t.amount.value > 0
    && t.status != PENDING
    && (t.status == FAILED ==>
          t.errorMessage.Some? && t.balanceAfter.None? && t.customerId.Some? &&
          t.commission.None? && t.description.None?)
    && (t.status == COMPLETED ==> t.errorMessage.None? && t.balanceAfter.Some?)
    && (t.commission.Some? <==> t.status == COMPLETED && IsAccountTransaction(t))
    && (t.status == COMPLETED && t.transactionType == Some(WITHDRAWAL) ==> t.balanceAfter.value >= 0)
    && (IsCreditTransaction(t) ==> t.creditId.Some? && t.accountId.None?)
    && (!IsCreditTransaction(t) ==> t.accountId.Some? && t.creditId.None?)
  }

  /** The row written on the failure path: it records the kind, the
      requested amount, the target and the error, and nothing else. */
  function FailedRow(kind: TransactionType, amount: Money, accountId: Option<string>, creditId: Option<string>,
                     customerId: Option<string>, message: ErrorMessage, now: Timestamp): (t: Transaction)
    ensures t.status == FAILED && t.transactionType == Some(kind) && t.amount == Some(amount)
    ensures t.accountId == accountId && t.creditId == creditId
    ensures t.customerId == Some(if customerId.Some? then customerId.value else Unknown)
    ensures t.errorMessage == Some(message)
    ensures t.balanceAfter == None && t.commission == None && t.description == None && t.id == None
    ensures amount > 0 && customerId.None? ==> MeetsDeclaredConstraints(t)
  {
    Builder(now).(transactionType := Some(kind), amount := Some(amount), accountId := accountId,
                  creditId := creditId,
                  customerId := Some(if customerId != None then customerId.value else Unknown),
                  status := FAILED, errorMessage := Some(message))
  }

  /** The failed row of a deposit or withdrawal (no customer supplied). */
  function AccountFailure(kind: TransactionType, req: AccountRequest, message: ErrorMessage, now: Timestamp): Transaction {
    FailedRow(kind, req.amount, Some(req.accountId), None, None, message, now)
  }

  /** The failed row of a payment or charge (no customer supplied). */
  function CreditFailure(op: CreditOperation, req: CreditRequest, message: ErrorMessage, now: Timestamp): Transaction {
    FailedRow(KindOf(op), req.amount, None, Some(req.creditId), None, message, now)
  }

  /** The completed row of a deposit or withdrawal. */
  function AccountRow(kind: TransactionType, req: AccountRequest, customerId: Option<string>,
                      newBalance: Money, commission: Money, now: Timestamp): (t: Transaction)
    ensures t.status == COMPLETED && t.transactionType == Some(kind) && t.amount == Some(req.amount)
    ensures t.accountId == Some(req.accountId) && t.creditId == None && t.customerId == customerId
    ensures t.balanceAfter == Some(newBalance) && t.commission == Some(commission)
    ensures t.description == req.description && t.errorMessage == None && t.id == None && t.createdAt == now
    ensures req.amount > 0 && (kind == DEPOSIT || (kind == WITHDRAWAL && newBalance >= 0)) ==>
              ServiceRow(t) && IsAccountTransaction(t)
  {
    Builder(now).(transactionType := Some(kind), amount := Some(req.amount), accountId := Some(req.accountId),
                  customerId := customerId, status := COMPLETED, description := req.description,
                  balanceAfter := Some(newBalance), commission := Some(commission))
  }

  /** The completed row of a payment or charge. */
  function CreditRow(op: CreditOperation, req: CreditRequest, customerId: Option<string>,
                     balance: Money, now: Timestamp): (t: Transaction)
    ensures t.status == COMPLETED && t.transactionType == Some(KindOf(op)) && t.amount == Some(req.amount)
    ensures t.creditId == Some(req.creditId) && t.accountId == None && t.customerId == customerId
    ensures t.balanceAfter == Some(balance) && t.commission == None
    ensures t.description == req.description && t.errorMessage == None && t.id == None && t.createdAt == now
    ensures req.amount > 0 ==> ServiceRow(t) && IsCreditTransaction(t)
  {
    Builder(now).(transactionType := Some(KindOf(op)), amount := Some(req.amount), creditId := Some(req.creditId),
                  customerId := customerId, status := COMPLETED, description := req.description,
                  balanceAfter := Some(balance))
  }

  /** The completed row of one leg of a transfer, taken from that leg's
      updated account. */
  function TransferRow(req: TransferRequest, updated: AccountSnapshot, now: Timestamp): (t: Transaction)
    ensures IsTransferLeg(t, req, updated)
    ensures t.id == None && t.createdAt == now
    ensures req.amount > 0 ==> ServiceRow(t) && !IsAccountTransaction(t) && !IsCreditTransaction(t)
  {
    Builder(now).(transactionType := Some(TRANSFER), amount := Some(req.amount), accountId := Some(updated.id),
                  customerId := updated.customerId, status := COMPLETED, description := req.description,
                  balanceAfter := Some(updated.balance))
  }

  /** `t` is the completed row of the transfer leg on account `leg`. */
  predicate IsTransferLeg(t: Transaction, req: TransferRequest, leg: AccountSnapshot) {
    && t.transactionType == Some(TRANSFER) && t.status == COMPLETED
    && t.amount == Some(req.amount) && t.description == req.description
    && t.accountId == Some(leg.id) && t.creditId == None
    && t.customerId == leg.customerId && t.balanceAfter == Some(leg.balance)
    && t.commission == None && t.errorMessage == None
  }

  // ---------------------------------------------------------------------
  // Plans: what each workflow does, as a function of what it reads
  // ---------------------------------------------------------------------

  /** The effects of one workflow: the remote calls it issues, the id-less
      rows it saves in order, whether a created-event for the first saved row
      is published, and the error it surfaces (transfer only; the other
      workflows absorb their errors into a FAILED row). */
  datatype Plan = Plan(calls: seq<RemoteCall>, rows: seq<Transaction>, publishFirst: bool, error: Option<ErrorMessage>)

  /** Deposit: no funds check; the account is credited with the amount less
      the commission; a publish failure after the save adds a FAILED row. A
      commission call that emits nothing ends the deposit with nothing. */
  function DepositPlan(req: AccountRequest, read: ReadOutcome<AccountSnapshot>, quote: CommissionQuote,
                       update: WriteOutcome<AccountSnapshot>, publish: PublishOutcome, now: Timestamp): (p: Plan)
    requires ValidAccountRequest(req)
    ensures p.error == None
    ensures forall t :: t in p.rows ==> ServiceRow(t)
    ensures !read.Found? ==>
              p.calls == [] && !p.publishFirst &&
              p.rows == [AccountFailure(DEPOSIT, req, AccountReadError(read, req.accountId), now)]
    ensures p.rows == [] <==> read.Found? && quote.NoCommission?
    ensures read.Found? && quote.NoCommission? ==> p == Plan([CalculateCommission(req.accountId)], [], false, None)
    ensures read.Found? && !quote.NoCommission? ==>
              p.calls == [CalculateCommission(req.accountId),
                          UpdateBalance(read.snapshot.id, read.snapshot.balance + req.amount - CommissionOf(quote))]
    ensures read.Found? && !quote.NoCommission? && update.Updated? ==>
              |p.rows| == (if publish.Published? then 1 else 2) &&
              (var row := p.rows[0];
               row.transactionType == Some(DEPOSIT) && row.status == COMPLETED &&
               row.amount == Some(req.amount) && row.commission == Some(CommissionOf(quote)) &&
               row.balanceAfter == Some(read.snapshot.balance + req.amount - CommissionOf(quote)) &&
               row.accountId == Some(req.accountId) && row.creditId == None &&
               row.customerId == read.snapshot.customerId && row.description == req.description &&
               row.errorMessage == None)
    ensures read.Found? && !quote.NoCommission? && update.Updated? && publish.PublishFailed? ==>
              p.rows[1] == AccountFailure(DEPOSIT, req, Text(publish.message), now)
    ensures p.publishFirst <==> read.Found? && !quote.NoCommission? && update.Updated? && publish.Published?
    ensures read.Found? && !quote.NoCommission? && update.Failed? ==>
              p.rows == [AccountFailure(DEPOSIT, req, Text(update.message), now)]
  {
    match read
    case Found(account) =>
      if quote.NoCommission? then
        Plan([CalculateCommission(req.accountId)], [], false, None)
      else
        var commission := CommissionOf(quote);
        var newBalance := account.balance + (req.amount - commission);
        var calls := [CalculateCommission(req.accountId), UpdateBalance(account.id, newBalance)];
        (match update
         case Updated(_) =>
           var row := AccountRow(DEPOSIT, req, account.customerId, newBalance, commission, now);
           (match publish
            case Published => Plan(calls, [row], true, None)
            case PublishFailed(msg) => Plan(calls, [row, AccountFailure(DEPOSIT, req, Text(msg), now)], false, None))
         case Failed(msg) => Plan(calls, [AccountFailure(DEPOSIT, req, Text(msg), now)], false, None))
    case _ =>
      Plan([], [AccountFailure(DEPOSIT, req, AccountReadError(read, req.accountId), now)], false, None)
  }

  /** Withdrawal: the account must cover the amount plus the commission;
      a balance equal to that total is enough. Every outcome, including a
      commission call that emits nothing, leaves exactly one row. */
  function WithdrawalPlan(req: AccountRequest, read: ReadOutcome<AccountSnapshot>, quote: CommissionQuote,
                          update: WriteOutcome<AccountSnapshot>, now: Timestamp): (p: Plan)
    requires ValidAccountRequest(req)
    ensures p.error == None && !p.publishFirst
    ensures |p.rows| == 1 && ServiceRow(p.rows[0])
    ensures !read.Found? ==>
              p.calls == [] &&
              p.rows == [AccountFailure(WITHDRAWAL, req, AccountReadError(read, req.accountId), now)]
    ensures read.Found? ==> |p.calls| >= 1 && p.calls[0] == CalculateCommission(req.accountId)
    ensures read.Found? && quote.NoCommission? ==>
              p.calls == [CalculateCommission(req.accountId)] &&
              p.rows == [AccountFailure(WITHDRAWAL, req, NullDereference, now)]
    ensures read.Found? && !quote.NoCommission? ==>
              (read.snapshot.balance < req.amount + CommissionOf(quote) <==> p.calls == [CalculateCommission(req.accountId)])
    ensures read.Found? && !quote.NoCommission? && read.snapshot.balance < req.amount + CommissionOf(quote) ==>
              p.rows == [AccountFailure(WITHDRAWAL, req,
                           InsufficientFunds(req.amount + CommissionOf(quote), read.snapshot.balance), now)]
    ensures read.Found? && !quote.NoCommission? && read.snapshot.balance >= req.amount + CommissionOf(quote) ==>
              p.calls == [CalculateCommission(req.accountId),
                          UpdateBalance(read.snapshot.id, read.snapshot.balance - (req.amount + CommissionOf(quote)))]
    ensures read.Found? && !quote.NoCommission? && read.snapshot.balance >= req.amount + CommissionOf(quote) &&
            update.Updated? ==>
              (var row := p.rows[0];
               row.transactionType == Some(WITHDRAWAL) && row.status == COMPLETED &&
               row.amount == Some(req.amount) && row.commission == Some(CommissionOf(quote)) &&
               row.balanceAfter == Some(read.snapshot.balance - (req.amount + CommissionOf(quote))) &&
               row.balanceAfter.value >= 0 &&
               row.accountId == Some(req.accountId) && row.creditId == None &&
               row.customerId == read.snapshot.customerId && row.description == req.description &&
               row.errorMessage == None)
    ensures read.Found? && !quote.NoCommission? && read.snapshot.balance >= req.amount + CommissionOf(quote) &&
            update.Failed? ==>
              p.rows == [AccountFailure(WITHDRAWAL, req, Text(update.message), now)]
  {
    match read
    case Found(account) =>
      if quote.NoCommission? then
        Plan([CalculateCommission(req.accountId)], [AccountFailure(WITHDRAWAL, req, NullDereference, now)], false, None)
      else
        var commission := CommissionOf(quote);
        var totalAmount := req.amount + commission;
        if account.balance < totalAmount then
          Plan([CalculateCommission(req.accountId)],
               [AccountFailure(WITHDRAWAL, req, InsufficientFunds(totalAmount, account.balance), now)], false, None)
        else
          var newBalance := account.balance - totalAmount;
          var calls := [CalculateCommission(req.accountId), UpdateBalance(account.id, newBalance)];
          (match update
           case Updated(_) =>
             Plan(calls, [AccountRow(WITHDRAWAL, req, account.customerId, newBalance, commission, now)], false, None)
           case Failed(msg) => Plan(calls, [AccountFailure(WITHDRAWAL, req, Text(msg), now)], false, None))
    case _ =>
      Plan([], [AccountFailure(WITHDRAWAL, req, AccountReadError(read, req.accountId), now)], false, None)
  }

  /** Payment or charge: no local arithmetic and no commission; the
      resulting balance is whatever the Credit service returns. Any failure
      of the mutating call surfaces as the client's fixed fallback text.
      Every outcome leaves exactly one row. */
  function CreditPlan(op: CreditOperation, req: CreditRequest, read: ReadOutcome<CreditSnapshot>,
                      update: WriteOutcome<CreditSnapshot>, now: Timestamp): (p: Plan)
    requires ValidCreditRequest(req)
    ensures p.error == None && !p.publishFirst
    ensures |p.rows| == 1 && ServiceRow(p.rows[0])
    ensures !read.Found? ==>
              p.calls == [] &&
              p.rows == [CreditFailure(op, req, CreditReadError(read, req.creditId), now)]
    ensures read.Found? ==>
              p.calls == [if op == Payment then MakePayment(req.creditId, req.amount, req.description)
                          else MakeCharge(req.creditId, req.amount, req.description)]
    ensures read.Found? && update.Updated? ==>
              (var row := p.rows[0];
               row.transactionType == Some(if op == Payment then PAYMENT else CHARGE) &&
               row.status == COMPLETED && row.amount == Some(req.amount) &&
               row.creditId == Some(req.creditId) && row.accountId == None &&
               row.customerId == read.snapshot.customerId &&
               row.balanceAfter == Some(update.snapshot.balance) &&
               row.commission == None && row.description == req.description && row.errorMessage == None)
    ensures read.Found? && update.Failed? ==>
              p.rows == [CreditFailure(op, req, Text(if op == Payment then PaymentUnavailableText else ChargeUnavailableText), now)]
  {
    match read
    case Found(credit) =>
      var calls := [CallOf(op, req)];
      (match update
       case Updated(updated) => Plan(calls, [CreditRow(op, req, credit.customerId, updated.balance, now)], false, None)
       case Failed(_) => Plan(calls, [CreditFailure(op, req, Text(UnavailableTextOf(op)), now)], false, None))
    case _ =>
      Plan([], [CreditFailure(op, req, CreditReadError(read, req.creditId), now)], false, None)
  }

  /** Transfer: both accounts are read, the source must not go below zero,
      both balances are set, and only when both updates return are two rows
      written, source leg first. It has no failure-recording path: it either
      fails with an error or saves both legs. */
  function TransferPlan(req: TransferRequest, sourceRead: ReadOutcome<AccountSnapshot>,
                        destinationRead: ReadOutcome<AccountSnapshot>,
                        sourceUpdate: WriteOutcome<AccountSnapshot>,
                        destinationUpdate: WriteOutcome<AccountSnapshot>, now: Timestamp): (p: Plan)
    requires ValidTransferRequest(req)
    ensures !p.publishFirst
    ensures forall t :: t in p.rows ==> ServiceRow(t)
    ensures p.error.Some? <==> p.rows == []
    ensures !sourceRead.Found? ==>
              p == Plan([], [], false, Some(AccountReadError(sourceRead, req.accountId)))
    ensures sourceRead.Found? && !destinationRead.Found? ==>
              p == Plan([], [], false, Some(AccountReadError(destinationRead, req.destinationAccountId)))
    ensures sourceRead.Found? && destinationRead.Found? ==>
              (sourceRead.snapshot.balance - req.amount < 0 <==> p.calls == [])
    ensures sourceRead.Found? && destinationRead.Found? && sourceRead.snapshot.balance - req.amount < 0 ==>
              p.error == Some(InsufficientFunds(req.amount, sourceRead.snapshot.balance))
    ensures sourceRead.Found? && destinationRead.Found? && sourceRead.snapshot.balance - req.amount >= 0 ==>
              p.calls == [UpdateBalance(sourceRead.snapshot.id, sourceRead.snapshot.balance - req.amount),
                          UpdateBalance(destinationRead.snapshot.id, destinationRead.snapshot.balance + req.amount)]
    ensures p.rows != [] <==>
              sourceRead.Found? && destinationRead.Found? && sourceRead.snapshot.balance - req.amount >= 0 &&
              sourceUpdate.Updated? && destinationUpdate.Updated?
    ensures p.rows != [] ==>
              |p.rows| == 2 &&
              IsTransferLeg(p.rows[0], req, sourceUpdate.snapshot) &&
              IsTransferLeg(p.rows[1], req, destinationUpdate.snapshot)
    ensures |p.calls| == 2 && sourceUpdate.Failed? ==> p.error == Some(Text(sourceUpdate.message))
    ensures |p.calls| == 2 && sourceUpdate.Updated? && destinationUpdate.Failed? ==>
              p.error == Some(Text(destinationUpdate.message))
  {
    match (sourceRead, destinationRead)
    case (Found(source), Found(destination)) =>
      var newSourceBalance := source.balance - req.amount;
      var newDestinationBalance := destination.balance + req.amount;
      if newSourceBalance < 0 then
        Plan([], [], false, Some(InsufficientFunds(req.amount, source.balance)))
      else
        var calls := [UpdateBalance(source.id, newSourceBalance),
                      UpdateBalance(destination.id, newDestinationBalance)];
        (match (sourceUpdate, destinationUpdate)
         case (Failed(msg), _) => Plan(calls, [], false, Some(Text(msg)))
         case (Updated(_), Failed(msg)) => Plan(calls, [], false, Some(Text(msg)))
         case (Updated(s), Updated(d)) =>
           Plan(calls, [TransferRow(req, s, now), TransferRow(req, d, now)], false, None))
    case (Found(_), _) =>
      Plan([], [], false, Some(AccountReadError(destinationRead, req.destinationAccountId)))
    case _ =>
      Plan([], [], false, Some(AccountReadError(sourceRead, req.accountId)))
  }

  /** The rows of a plan as the store keeps them: numbered from `from` on. */
  function Stamped(rows: seq<Transaction>, from: nat): seq<Transaction> {
    seq(|rows|, i requires 0 <= i < |rows| => rows[i].(id := Some(from + i)))
  }

  /** The response to a deposit: the last row it saved, if any. */
  function LastResponse(saved: seq<Transaction>): Option<TransactionResponse> {
    if saved == [] then None else Some(ToResponse(saved[|saved| - 1]))
  }

  /** What a transfer returns: its error, or its saved rows as responses. */
  datatype TransferResult = TransferFailed(error: ErrorMessage) | Transferred(responses: seq<TransactionResponse>)

  // ---------------------------------------------------------------------
  // The service: workflows that change the ledger and the remote services
  // ---------------------------------------------------------------------

  class TransactionService {
    /** The ledger store. */
    const repo: TransactionRepository
    /** The mutating calls issued to the Account and Credit services, in order. */
    var calls: seq<RemoteCall>
    /** The rows carried by the created-events published so far. */
    var events: seq<Transaction>

    /** The store is consistent and every row in it has the service's shape. */
    ghost predicate Valid()
      reads this, repo
    {
      repo.Valid() && forall t :: t in repo.rows ==> ServiceRow(t)
    }

    /** The state after carrying out plan `p` from the state given by
        `rows0`, `next0`, `calls0` and `events0`: the plan's calls issued, its
        rows appended under fresh ids, and its event published. */
    ghost predicate Performed(p: Plan, rows0: seq<Transaction>, next0: nat,
                              calls0: seq<RemoteCall>, events0: seq<Transaction>)
      reads this, repo
    {
      var saved := Stamped(p.rows, next0);
      && calls == calls0 + p.calls
      && repo.rows == rows0 + saved
      && repo.nextId == next0 + |p.rows|
      && events == events0 + (if p.publishFirst && saved != [] then [saved[0]] else [])
    }

    constructor()
      ensures Valid() && fresh(repo)
      ensures repo.rows == [] && calls == [] && events == []
    {
      repo := new TransactionRepository();
      calls := [];
      events := [];
    }

    /** Saves the FAILED row of a workflow. */
    method SaveFailedTransaction(kind: TransactionType, amount: Money, accountId: Option<string>,
                                 creditId: Option<string>, customerId: Option<string>,
                                 message: ErrorMessage, now: Timestamp) returns (saved: Transaction)
      requires Valid() && amount > 0
      requires kind == PAYMENT || kind == CHARGE ==> creditId.Some? && accountId.None?
      requires kind != PAYMENT && kind != CHARGE ==> accountId.Some? && creditId.None?
      modifies repo
      ensures Valid()
      ensures saved == FailedRow(kind, amount, accountId, creditId, customerId, message, now).(id := Some(old(repo.nextId)))
      ensures repo.rows == old(repo.rows) + [saved] && repo.nextId == old(repo.nextId) + 1
    {
      saved := repo.Save(FailedRow(kind, amount, accountId, creditId, customerId, message, now));
    }

    /** Publishes the created-event for a saved row; reports whether the
        publish succeeded. */
    method SendCreateKafka(t: Transaction, publish: PublishOutcome) returns (published: bool)
      requires Valid()
      modifies this`events
      ensures Valid()
      ensures published == publish.Published?
      ensures events == old(events) + (if published then [t] else [])
    {
      published := publish.Published?;
      if published {
        events := events + [t];
      }
    }

    /** Deposit. Any failure is recorded as one FAILED row and returned as
        the response; a failed publish is such a failure too. When the
        commission call emits nothing, nothing is saved or returned. */
    method ProcessDeposit(req: AccountRequest, read: ReadOutcome<AccountSnapshot>, quote: CommissionQuote,
                          update: WriteOutcome<AccountSnapshot>, publish: PublishOutcome, now: Timestamp)
      returns (response: Option<TransactionResponse>)
      requires Valid() && ValidAccountRequest(req)
      modifies this, repo
      ensures Valid()
      ensures Performed(DepositPlan(req, read, quote, update, publish, now),
                        old(repo.rows), old(repo.nextId), old(calls), old(events))
      ensures response == LastResponse(Stamped(DepositPlan(req, read, quote, update, publish, now).rows, old(repo.nextId)))
    {
      match read {
        case Found(account) =>
          calls := calls + [CalculateCommission(req.accountId)];
          if quote.NoCommission? {
            response := None;
            return;
          }
          var commission := CommissionOf(quote);
          var netAmount := req.amount - commission;
          var newBalance := account.balance + netAmount;
          calls := calls + [UpdateBalance(account.id, newBalance)];
          match update {
            case Updated(_) =>
              var saved := repo.Save(AccountRow(DEPOSIT, req, account.customerId, newBalance, commission, now));
              var published := SendCreateKafka(saved, publish);
              if published {
                response := Some(ToResponse(saved));
              } else {
                var failed := SaveFailedTransaction(DEPOSIT, req.amount, Some(req.accountId), None, None,
                                                    Text(publish.message), now);
                response := Some(ToResponse(failed));
              }
            case Failed(msg) =>
              var failed := SaveFailedTransaction(DEPOSIT, req.amount, Some(req.accountId), None, None, Text(msg), now);
              response := Some(ToResponse(failed));
          }
        case _ =>
          var failed := SaveFailedTransaction(DEPOSIT, req.amount, Some(req.accountId), None, None,
                                              AccountReadError(read, req.accountId), now);
          response := Some(ToResponse(failed));
      }
    }

    /** Withdrawal. Insufficient funds, like every other failure, is
        recorded as one FAILED row and returned as the response. */
    method ProcessWithdrawal(req: AccountRequest, read: ReadOutcome<AccountSnapshot>, quote: CommissionQuote,
                             update: WriteOutcome<AccountSnapshot>, now: Timestamp)
      returns (response: TransactionResponse)
      requires Valid() && ValidAccountRequest(req)
      modifies this, repo
      ensures Valid()
      ensures Performed(WithdrawalPlan(req, read, quote, update, now),
                        old(repo.rows), old(repo.nextId), old(calls), old(events))
      ensures response == ToResponse(WithdrawalPlan(req, read, quote, update, now).rows[0].(id := Some(old(repo.nextId))))
    {
      match read {
        case Found(account) =>
          calls := calls + [CalculateCommission(req.accountId)];
          if quote.NoCommission? {
            var failed := SaveFailedTransaction(WITHDRAWAL, req.amount, Some(req.accountId), None, None,
                                                NullDereference, now);
            response := ToResponse(failed);
            return;
          }
          var commission := CommissionOf(quote);
          var totalAmount := req.amount + commission;
          if account.balance < totalAmount {
            var failed := SaveFailedTransaction(WITHDRAWAL, req.amount, Some(req.accountId), None, None,
                                                InsufficientFunds(totalAmount, account.balance), now);
            response := ToResponse(failed);
          } else {
            var newBalance := account.balance - totalAmount;
            calls := calls + [UpdateBalance(account.id, newBalance)];
            match update {
              case Updated(_) =>
                var saved := repo.Save(AccountRow(WITHDRAWAL, req, account.customerId, newBalance, commission, now));
                response := ToResponse(saved);
              case Failed(msg) =>
                var failed := SaveFailedTransaction(WITHDRAWAL, req.amount, Some(req.accountId), None, None,
                                                    Text(msg), now);
                response := ToResponse(failed);
            }
          }
        case _ =>
          var failed := SaveFailedTransaction(WITHDRAWAL, req.amount, Some(req.accountId), None, None,
                                              AccountReadError(read, req.accountId), now);
          response := ToResponse(failed);
      }
    }

    /** The shared body of payment and charge. */
    method ProcessCreditOperation(op: CreditOperation, req: CreditRequest, read: ReadOutcome<CreditSnapshot>,
                                  update: WriteOutcome<CreditSnapshot>, now: Timestamp)
      returns (response: TransactionResponse)
      requires Valid() && ValidCreditRequest(req)
      modifies this, repo
      ensures Valid()
      ensures Performed(CreditPlan(op, req, read, update, now),
                        old(repo.rows), old(repo.nextId), old(calls), old(events))
      ensures response == ToResponse(CreditPlan(op, req, read, update, now).rows[0].(id := Some(old(repo.nextId))))
    {
      match read {
        case Found(credit) =>
          calls := calls + [CallOf(op, req)];
          match update {
            case Updated(updated) =>
              var saved := repo.Save(CreditRow(op, req, credit.customerId, updated.balance, now));
              response := ToResponse(saved);
            case Failed(_) =>
              var failed := SaveFailedTransaction(KindOf(op), req.amount, None, Some(req.creditId), None,
                                                  Text(UnavailableTextOf(op)), now);
              response := ToResponse(failed);
          }
        case _ =>
          var failed := SaveFailedTransaction(KindOf(op), req.amount, None, Some(req.creditId), None,
                                              CreditReadError(read, req.creditId), now);
          response := ToResponse(failed);
      }
    }

    /** Payment to a credit product. */
    method ProcessPayment(req: CreditRequest, read: ReadOutcome<CreditSnapshot>,
                          update: WriteOutcome<CreditSnapshot>, now: Timestamp)
      returns (response: TransactionResponse)
      requires Valid() && ValidCreditRequest(req)
      modifies this, repo
      ensures Valid()
      ensures Performed(CreditPlan(Payment, req, read, update, now),
                        old(repo.rows), old(repo.nextId), old(calls), old(events))
      ensures response == ToResponse(CreditPlan(Payment, req, read, update, now).rows[0].(id := Some(old(repo.nextId))))
    {
      response := ProcessCreditOperation(Payment, req, read, update, now);
    }

    /** Charge to a credit card. */
    method ProcessCharge(req: CreditRequest, read: ReadOutcome<CreditSnapshot>,
                         update: WriteOutcome<CreditSnapshot>, now: Timestamp)
      returns (response: TransactionResponse)
      requires Valid() && ValidCreditRequest(req)
      modifies this, repo
      ensures Valid()
      ensures Performed(CreditPlan(Charge, req, read, update, now),
                        old(repo.rows), old(repo.nextId), old(calls), old(events))
      ensures response == ToResponse(CreditPlan(Charge, req, read, update, now).rows[0].(id := Some(old(repo.nextId))))
    {
      response := ProcessCreditOperation(Charge, req, read, update, now);
    }

    /** Transfer between two accounts. A failure is returned, not recorded;
        a success returns both legs, source first. */
    method Transfer(req: TransferRequest, sourceRead: ReadOutcome<AccountSnapshot>,
                    destinationRead: ReadOutcome<AccountSnapshot>,
                    sourceUpdate: WriteOutcome<AccountSnapshot>,
                    destinationUpdate: WriteOutcome<AccountSnapshot>, now: Timestamp)
      returns (result: TransferResult)
      requires Valid() && ValidTransferRequest(req)
      modifies this, repo
      ensures Valid()
      ensures var p := TransferPlan(req, sourceRead, destinationRead, sourceUpdate, destinationUpdate, now);
              Performed(p, old(repo.rows), old(repo.nextId), old(calls), old(events)) &&
              result == if p.error.Some? then TransferFailed(p.error.value)
                        else Transferred(ToResponses(Stamped(p.rows, old(repo.nextId))))
    {
      if !sourceRead.Found? {
        result := TransferFailed(AccountReadError(sourceRead, req.accountId));
        return;
      }
      if !destinationRead.Found? {
        result := TransferFailed(AccountReadError(destinationRead, req.destinationAccountId));
        return;
      }
      var source, destination := sourceRead.snapshot, destinationRead.snapshot;
      var newSourceBalance := source.balance - req.amount;
      var newDestinationBalance := destination.balance + req.amount;
      if newSourceBalance < 0 {
        result := TransferFailed(InsufficientFunds(req.amount, source.balance));
        return;
      }
      calls := calls + [UpdateBalance(source.id, newSourceBalance), UpdateBalance(destination.id, newDestinationBalance)];
      if sourceUpdate.Failed? {
        result := TransferFailed(Text(sourceUpdate.message));
      } else if destinationUpdate.Failed? {
        result := TransferFailed(Text(destinationUpdate.message));
      } else {
        var sourceRow := repo.Save(TransferRow(req, sourceUpdate.snapshot, now));
        var destinationRow := repo.Save(TransferRow(req, destinationUpdate.snapshot, now));
        result := Transferred([ToResponse(sourceRow), ToResponse(destinationRow)]);
      }
    }

    /** Every row, as responses, in storage order. */
    function FindAll(): (r: seq<TransactionResponse>)
      reads this, repo
      ensures |r| == |repo.rows|
      ensures forall i :: 0 <= i < |r| ==> r[i] == ToResponse(repo.rows[i])
    {
      ToResponses(repo.FindAll())
    }

    /** The row stored under `id`, as a response, or the not-found error. */
    function FindById(id: nat): (r: Result<TransactionResponse, ErrorMessage>)
      reads this, repo
      ensures r.Err? ==> r.error == TransactionNotFound(id) && forall t :: t in repo.rows ==> t.id != Some(id)
      ensures r.Ok? ==> exists t :: t in repo.rows && t.id == Some(id) && r.value == ToResponse(t)
    {
      match repo.FindById(id)
      case Some(t) => Ok(ToResponse(t))
      case None => Err(TransactionNotFound(id))
    }

    /** The rows of account `accountId`, as responses; empty when none. */
    function FindByAccountId(accountId: string): (r: seq<TransactionResponse>)
      reads this, repo
      ensures |r| == |repo.FindByAccountId(accountId)|
      ensures forall i :: 0 <= i < |r| ==> r[i] == ToResponse(repo.FindByAccountId(accountId)[i])
      ensures forall x :: x in r <==> exists t :: t in repo.rows && t.accountId == Some(accountId) && x == ToResponse(t)
    {
      ToResponses(repo.FindByAccountId(accountId))
    }

    /** The rows of credit `creditId`, as responses; empty when none. */
    function FindByCreditId(creditId: string): (r: seq<TransactionResponse>)
      reads this, repo
      ensures |r| == |repo.FindByCreditId(creditId)|
      ensures forall i :: 0 <= i < |r| ==> r[i] == ToResponse(repo.FindByCreditId(creditId)[i])
      ensures forall x :: x in r <==> exists t :: t in repo.rows && t.creditId == Some(creditId) && x == ToResponse(t)
    {
      ToResponses(repo.FindByCreditId(creditId))
    }

    /** The rows of customer `customerId`, as responses; empty when none. */
    function FindByCustomerId(customerId: string): (r: seq<TransactionResponse>)
      reads this, repo
      ensures |r| == |repo.FindByCustomerId(customerId)|
      ensures forall i :: 0 <= i < |r| ==> r[i] == ToResponse(repo.FindByCustomerId(customerId)[i])
      ensures forall x :: x in r <==> exists t :: t in repo.rows && t.customerId == Some(customerId) && x == ToResponse(t)
    {
      ToResponses(repo.FindByCustomerId(customerId))
    }
  }
}
