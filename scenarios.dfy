/**
 * Worked cases of the workflows, with amounts in cents.
 */
module Scenarios {
  import opened Wrappers
  import opened Entity
  import opened Clients
  import opened Service

  /** 100.00 deposited with a 2.50 commission onto 50.00 leaves 147.50, and
      the row keeps the requested amount, not the net one. */
  lemma DepositExample()
    ensures var p := DepositPlan(AccountRequest("A1", 10000, None),
                                 Found(AccountSnapshot("A1", Some("C1"), 5000)), Quoted(250),
                                 Updated(AccountSnapshot("A1", Some("C1"), 14750)), Published, 0);
            |p.rows| == 1 && p.rows[0].status == COMPLETED &&
            p.rows[0].amount == Some(10000) && p.rows[0].commission == Some(250) &&
            p.rows[0].balanceAfter == Some(14750) && p.publishFirst
  {
  }

  /** There is no funds check on a deposit: a commission larger than the
      amount drives the balance down, even below zero. */
  lemma DepositCanOverdraw()
    ensures var p := DepositPlan(AccountRequest("A1", 100, None),
                                 Found(AccountSnapshot("A1", Some("C1"), 0)), Quoted(250),
                                 Updated(AccountSnapshot("A1", Some("C1"), -150)), Published, 0);
            p.calls[1] == UpdateBalance("A1", -150) && p.rows[0].balanceAfter == Some(-150)
  {
  }

  /** 200.00 requested from 150.00 fails, no balance update is issued, and
      the attempt is recorded as a FAILED row. */
  lemma WithdrawalExample()
    ensures var p := WithdrawalPlan(AccountRequest("A1", 20000, None),
                                    Found(AccountSnapshot("A1", Some("C1"), 15000)), Quoted(0),
                                    Updated(AccountSnapshot("A1", Some("C1"), 0)), 0);
            p.calls == [CalculateCommission("A1")] && |p.rows| == 1 &&
            p.rows[0].status == FAILED && p.rows[0].errorMessage == Some(InsufficientFunds(20000, 15000)) &&
            p.rows[0].customerId == Some("unknown") && p.rows[0].balanceAfter == None
  {
  }

  /** A balance equal to amount plus commission is enough, and leaves zero. */
  lemma WithdrawalOfEverything()
    ensures var p := WithdrawalPlan(AccountRequest("A1", 9900, None),
                                    Found(AccountSnapshot("A1", Some("C1"), 10000)), Quoted(100),
                                    Updated(AccountSnapshot("A1", Some("C1"), 0)), 0);
            p.calls[1] == UpdateBalance("A1", 0) && p.rows[0].status == COMPLETED &&
            p.rows[0].balanceAfter == Some(0)
  {
  }

  /** 300 moved from an account holding 500 to one holding 100: two
      COMPLETED rows, 200 on the source and 400 on the destination. */
  lemma TransferExample()
    ensures var p := TransferPlan(TransferRequest("A1", "A2", 300, Some("rent")),
                                  Found(AccountSnapshot("A1", Some("C1"), 500)),
                                  Found(AccountSnapshot("A2", Some("C2"), 100)),
                                  Updated(AccountSnapshot("A1", Some("C1"), 200)),
                                  Updated(AccountSnapshot("A2", Some("C2"), 400)), 0);
            p.calls == [UpdateBalance("A1", 200), UpdateBalance("A2", 400)] &&
            |p.rows| == 2 && p.rows[0].balanceAfter == Some(200) && p.rows[1].balanceAfter == Some(400) &&
            p.rows[0].description == p.rows[1].description == Some("rent")
  {
  }

  /** When the destination update fails after the source update was issued,
      the transfer reports the error, writes no row and undoes nothing. */
  lemma TransferHalfDone()
    ensures var p := TransferPlan(TransferRequest("A1", "A2", 300, None),
                                  Found(AccountSnapshot("A1", Some("C1"), 500)),
                                  Found(AccountSnapshot("A2", Some("C2"), 100)),
                                  Updated(AccountSnapshot("A1", Some("C1"), 200)),
                                  Failed("timeout"), 0);
            p.calls == [UpdateBalance("A1", 200), UpdateBalance("A2", 400)] &&
            p.rows == [] && p.error == Some(Text("timeout"))
  {
  }

  /** A payment to a credit that answers 404 records the client's own
      not-found text, on the credit, with no account. */
  lemma PaymentToMissingCredit()
    ensures var p := CreditPlan(Payment, CreditRequest("K9", 500, None), NotFound,
                                Updated(CreditSnapshot("K9", None, 0)), 0);
            p.calls == [] && |p.rows| == 1 && p.rows[0].status == FAILED &&
            p.rows[0].transactionType == Some(PAYMENT) &&
            p.rows[0].creditId == Some("K9") && p.rows[0].accountId == None &&
            p.rows[0].errorMessage == Some(Text("Credit not found with id: K9"))
  {
    assert "Credit not found with id: " + "K9" == "Credit not found with id: K9";
  }

  /** Nothing stops a transfer from an account to itself: both legs are
      computed from the same read, so two conflicting balances are written
      (200 and 800 from 500) and two rows are recorded. */
  lemma TransferToItself()
    ensures var p := TransferPlan(TransferRequest("A1", "A1", 300, None),
                                  Found(AccountSnapshot("A1", Some("C1"), 500)),
                                  Found(AccountSnapshot("A1", Some("C1"), 500)),
                                  Updated(AccountSnapshot("A1", Some("C1"), 200)),
                                  Updated(AccountSnapshot("A1", Some("C1"), 800)), 0);
            p.calls == [UpdateBalance("A1", 200), UpdateBalance("A1", 800)] && |p.rows| == 2
  {
  }

  /** An account read that yields no body is reported by the client as
      unavailability, so the deposit records the fallback's text, not a
      not-found message. */
  lemma DepositToUnreadableAccount()
    ensures var p := DepositPlan(AccountRequest("A1", 100, None), Unavailable, Quoted(0),
                                 Updated(AccountSnapshot("A1", None, 0)), Published, 0);
            p.calls == [] && |p.rows| == 1 && p.rows[0].status == FAILED &&
            p.rows[0].errorMessage == Some(Text(AccountUnavailableText)) && !p.publishFirst
  {
  }

  /** A commission call that emits nothing ends a deposit with no balance
      update, no row and no response... */
  lemma DepositWithoutCommission()
    ensures var p := DepositPlan(AccountRequest("A1", 100, None),
                                 Found(AccountSnapshot("A1", Some("C1"), 500)), NoCommission,
                                 Updated(AccountSnapshot("A1", Some("C1"), 600)), Published, 0);
            p.calls == [CalculateCommission("A1")] && p.rows == [] && !p.publishFirst
  {
  }

  /** ...but makes a withdrawal record a FAILED row, because the withdrawal's
      completion hook dereferences the missing row. */
  lemma WithdrawalWithoutCommission()
    ensures var p := WithdrawalPlan(AccountRequest("A1", 100, None),
                                    Found(AccountSnapshot("A1", Some("C1"), 500)), NoCommission,
                                    Updated(AccountSnapshot("A1", Some("C1"), 400)), 0);
            p.calls == [CalculateCommission("A1")] &&
            p.rows == [AccountFailure(WITHDRAWAL, AccountRequest("A1", 100, None), NullDereference, 0)]
  {
  }
}
