/**
 * What the orchestrator sees of the three remote services. Each call has
 * already gone through its timeout, retry and circuit-breaker policy; what is
 * left is the outcome, classified the way the clients' fallbacks classify it.
 */
module Clients {
  import opened Wrappers
  import opened Entity

  /** An account as the Account service returns it (only the fields used). */
  datatype AccountSnapshot = AccountSnapshot(id: string, customerId: Option<string>, balance: Money)

  /** A credit as the Credit service returns it (only the fields used). */
  datatype CreditSnapshot = CreditSnapshot(id: string, customerId: Option<string>, balance: Money)

  /** How a read can end: a body; a 404, which the fallback propagates; any
      other failure, which the fallback turns into "service unavailable". A
      success without a body is one of those failures: the client's own
      success hook dereferences the missing body, and the fallback reports
      the resulting error as unavailability. */
  datatype ReadOutcome<T> = Found(snapshot: T) | NotFound | Unavailable

  /** How a mutating call can end: the updated resource, or a failure with
      its message. A success without a body is a failure too, for the same
      reason as for a read; so is a 404, whose message is the account id. */
  datatype WriteOutcome<T> = Updated(snapshot: T) | Failed(message: string)

  /** How the commission quote can end: a number; a body whose commission is
      not a number (zero is quoted); a failure (the fallback quotes zero); a
      success without a body, where neither the mapping nor the fallback runs
      and no commission is emitted at all. */
  datatype CommissionQuote = Quoted(value: Money) | NotANumber | QuoteFailed | NoCommission

  /** How publishing the created-event can end. */
  datatype PublishOutcome = Published | PublishFailed(message: string)

  /** A call with an effect on another service, as issued. */
  datatype RemoteCall =
    | CalculateCommission(accountId: string)
    | UpdateBalance(accountId: string, balance: Money)
    | MakePayment(creditId: string, amount: Money, description: Option<string>)
    | MakeCharge(creditId: string, amount: Money, description: Option<string>)

  const AccountUnavailableText := "Account service is currently unavailable. Please try again later."
  const CreditUnavailableText := "Credit service is currently unavailable. Please try again later."
  const PaymentUnavailableText := "Credit payment service is currently unavailable. Payment not processed."
  const ChargeUnavailableText := "Credit charge service is currently unavailable. Charge not processed."

  /** The commission used by the caller when one is emitted: the quoted
      number, and zero when the body holds no number or the call failed. */
  function CommissionOf(q: CommissionQuote): (c: Money)
    requires !q.NoCommission?
    ensures q.Quoted? ==> c == q.value
    ensures q.NotANumber? || q.QuoteFailed? ==> c == 0
  {
    match q
    case Quoted(v) => v
    case _ => 0
  }

  /** The error a failed account read surfaces. A 404 surfaces the account
      id itself (the message of the exception raised for it); anything else
      surfaces the fallback's fixed text. */
  function AccountReadError(o: ReadOutcome<AccountSnapshot>, accountId: string): (e: ErrorMessage)
    requires !o.Found?
    ensures o.NotFound? ==> e == Text(accountId)
    ensures o.Unavailable? ==> e == Text(AccountUnavailableText)
  {
    match o
    case NotFound => Text(accountId)
    case Unavailable => Text(AccountUnavailableText)
  }

  /** The error a failed credit read surfaces: the not-found exception's
      text for a 404, the fallback's fixed text for anything else. */
  function CreditReadError(o: ReadOutcome<CreditSnapshot>, creditId: string): (e: ErrorMessage)
    requires !o.Found?
    ensures o.NotFound? ==> e == Text("Credit not found with id: " + creditId)
    ensures o.Unavailable? ==> e == Text(CreditUnavailableText)
  {
    match o
    case NotFound => Text("Credit not found with id: " + creditId)
    case Unavailable => Text(CreditUnavailableText)
  }
}
