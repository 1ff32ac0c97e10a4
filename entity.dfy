/**
 * The ledger record: one row of the append-only `transactions` collection,
 * with the defaults its two construction paths give it and its two
 * classification predicates.
 */
module Entity {
  import opened Wrappers

  /** The operation kinds. TRANSFER is written by the transfer workflow even
      though the Java enum does not declare it. */
  datatype TransactionType = DEPOSIT | WITHDRAWAL | PAYMENT | CHARGE | TRANSFER

  datatype TransactionStatus = COMPLETED | FAILED | PENDING

  /** Exact decimal amounts, counted in minor units. */
  type Money = int

  /** A wall-clock reading; the caller supplies it. */
  type Timestamp = int

  /** The error text a FAILED row (or a failed lookup) carries. Texts that
      are passed through are kept verbatim; the two formatted messages keep
      the values they are formatted from. */
  datatype ErrorMessage =
    | Text(text: string)
    // "Insufficient funds. Requested: <requested>, Available: <available>"
    | InsufficientFunds(requested: Money, available: Money)
    // "Transaction not found: <id>"
    | TransactionNotFound(id: nat)
    // the runtime's message for a dereference of a missing value
    | NullDereference

  /** A ledger row. Every field the Java class may leave null is an Option;
      the identifier generated by the store is modelled as a natural number. */
  datatype Transaction = Transaction(
    id: Option<nat>,
    transactionType: Option<TransactionType>,
    amount: Option<Money>,
    accountId: Option<string>,
    creditId: Option<string>,
    customerId: Option<string>,
    status: TransactionStatus,
    description: Option<string>,
    balanceAfter: Option<Money>,
    errorMessage: Option<ErrorMessage>,
    createdAt: Timestamp,
    commission: Option<Money>)

  /** The record a builder starts from. Only the two fields marked as builder
      defaults get a value; `commission`, whose initialiser is not a builder
      default, stays unset. */
  function Builder(now: Timestamp): (t: Transaction)
    ensures t.status == PENDING && t.createdAt == now
    ensures t.commission == None
    ensures t.id == None && t.transactionType == None && t.amount == None
    ensures t.accountId == None && t.creditId == None && t.customerId == None
    ensures t.description == None && t.balanceAfter == None && t.errorMessage == None
  {
    Transaction(None, None, None, None, None, None, PENDING, None, None, None, now, None)
  }

  /** The record the no-argument constructor makes: every field initialiser
      runs, so here, and only here, the commission starts at zero. */
  function NoArgs(now: Timestamp): (t: Transaction)
    ensures t.status == PENDING && t.createdAt == now
    ensures t.commission == Some(0)
    ensures t.id == None && t.transactionType == None && t.amount == None
    ensures t.errorMessage == None && t.balanceAfter == None
  {
    Builder(now).(commission := Some(0))
  }

  /** A deposit or a withdrawal: a row about a demand-deposit account. */
  predicate IsAccountTransaction(t: Transaction)
    ensures IsAccountTransaction(t) <==>
              t.transactionType.Some? && t.transactionType.value != TRANSFER && !IsCreditTransaction(t)
  {
    t.transactionType == Some(DEPOSIT) || t.transactionType == Some(WITHDRAWAL)
  }

  /** A payment or a charge: a row about a credit product. */
  predicate IsCreditTransaction(t: Transaction)
    ensures IsCreditTransaction(t) <==>
              && t.transactionType.Some?
              && !t.transactionType.value.DEPOSIT? && !t.transactionType.value.WITHDRAWAL?
              && !t.transactionType.value.TRANSFER?
  {
    match t.transactionType
    case None => false
    case Some(kind) => kind == PAYMENT || kind == CHARGE
  }

  /** The two classifications partition the five kinds except TRANSFER, which
      is neither, and a row with no type, which is neither too. */
  lemma Classification(t: Transaction)
    ensures !(IsAccountTransaction(t) && IsCreditTransaction(t))
    ensures t.transactionType.Some? && t.transactionType.value != TRANSFER
            <==> IsAccountTransaction(t) || IsCreditTransaction(t)
    ensures t.transactionType == Some(TRANSFER) ==> !IsAccountTransaction(t) && !IsCreditTransaction(t)
  {
  }

  /** Blank in the bean-validation sense: absent, or nothing left once every
      character up to and including the space is trimmed. */
  predicate IsBlank(s: Option<string>) {
    s.None? || AllTrimmed(s.value)
  }

  /** Every character of `s` is one that trimming removes. */
  predicate AllTrimmed(s: string)
    ensures AllTrimmed(s) <==> forall i :: 0 <= i < |s| ==> s[i] <= ' '
  {
    |s| == 0 || (s[0] <= ' ' && AllTrimmed(s[1..]))
  }

  /** The constraints the record declares: type and status present (status
      cannot be absent here), a positive amount, a non-blank customer, that
      is, one with a character that trimming keeps. */
  predicate MeetsDeclaredConstraints(t: Transaction)
    ensures MeetsDeclaredConstraints(t) <==>
              && t.transactionType.Some? && t.amount.Some? && t.amount.value > 0
              && t.customerId.Some? && exists i :: 0 <= i < |t.customerId.value| && t.customerId.value[i] > ' '
  {
    && t.transactionType.Some?
    && t.amount.Some? && t.amount.value > 0
    && !IsBlank(t.customerId)
  }
}
