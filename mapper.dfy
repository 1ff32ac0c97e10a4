/**
 * The projection of a ledger row onto the response returned to clients.
 */
module Mapper {
  import opened Wrappers
  import opened Entity

  /** The response record. It declares a commission field like the row does. */
  datatype TransactionResponse = TransactionResponse(
    id: Option<nat>,
    transactionType: Option<TransactionType>,
    amount: Option<Money>,
    accountId: Option<string>,
    creditId: Option<string>,
    customerId: Option<string>,
    status: TransactionStatus,
    description: Option<string>,
    balanceAfter: Option<Money>,
    errorMessage: Option<ErrorMessage>,
    createdAt: Timestamp,
    commission: Option<Money>)

  /** Copies eleven fields unchanged and never sets the commission. Being a
      function of its argument, it leaves the row itself untouched. */
  function ToResponse(t: Transaction): (r: TransactionResponse)
    ensures r.id == t.id && r.transactionType == t.transactionType && r.amount == t.amount
    ensures r.accountId == t.accountId && r.creditId == t.creditId && r.customerId == t.customerId
    ensures r.status == t.status && r.description == t.description
    ensures r.balanceAfter == t.balanceAfter && r.errorMessage == t.errorMessage
    ensures r.createdAt == t.createdAt
    ensures r.commission == None
  {
    TransactionResponse(t.id, t.transactionType, t.amount, t.accountId, t.creditId, t.customerId,
                        t.status, t.description, t.balanceAfter, t.errorMessage, t.createdAt, None)
  }

  /** The row a response was projected from, given the commission it dropped. */
  function FromResponse(r: TransactionResponse, commission: Option<Money>): Transaction {
    Transaction(r.id, r.transactionType, r.amount, r.accountId, r.creditId, r.customerId,
                r.status, r.description, r.balanceAfter, r.errorMessage, r.createdAt, commission)
  }

  /** The commission is the only information the projection loses. */
  lemma ToResponseLosesOnlyCommission(t: Transaction, u: Transaction)
    ensures FromResponse(ToResponse(t), t.commission) == t
    ensures ToResponse(t) == ToResponse(u) <==> t.(commission := None) == u.(commission := None)
  {
  }

  /** Mapping a FAILED row keeps the failure visible; a COMPLETED row keeps
      its resulting balance. */
  lemma ToResponseKeepsOutcome(t: Transaction)
    ensures t.status == FAILED ==> ToResponse(t).status == FAILED && ToResponse(t).errorMessage == t.errorMessage
    ensures t.status == COMPLETED ==> ToResponse(t).status == COMPLETED && ToResponse(t).balanceAfter == t.balanceAfter
  {
  }

  /** A stream of rows mapped one by one, in order. */
  function ToResponses(ts: seq<Transaction>): (rs: seq<TransactionResponse>)
    ensures |rs| == |ts|
    ensures forall i :: 0 <= i < |ts| ==> rs[i] == ToResponse(ts[i])
  {
    seq(|ts|, i requires 0 <= i < |ts| => ToResponse(ts[i]))
  }
}
