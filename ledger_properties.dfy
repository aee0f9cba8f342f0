/** Properties that relate several ledger handlers to each other. */
module LedgerProperties {
  import opened Seqs
  import opened Records
  import opened Ledger

  /** Validating (or rejecting) the same transaction twice is the same as doing it once:
      in particular the second validation moves no balance. */
  lemma ValidateIdempotent(s: State, id: string, verdict: Verdict)
    ensures Validate(Validate(s, id, verdict), id, verdict) == Validate(s, id, verdict)
  {
    var s1 := Validate(s, id, verdict);
    var q := TransactionIdIs(id);
    FindIndexPointwise(s.transactions, s1.transactions, q);
    match FindIndex(s.transactions, q)
    case None =>
    case Some(j) =>
      var t1 := s1.transactions[j];
      assert FindTransaction(s1.transactions, id) == Some(t1);
      assert t1.status == verdict;
      var again := SetStatus(s1.transactions, id, verdict);
      forall i | 0 <= i < |again|
        ensures again[i] == s1.transactions[i]
      {
        assert again[i] == again[i].(status := again[i].status);
      }
      assert again == s1.transactions;
  }

  /** After a settlement, the same invoice (now paid) and a custodian are still found under the same ids. */
  lemma SettleKeepsFinds(s: State, invoiceId: string, custodianId: string, newId: string, date: string)
    requires FindInvoice(s.invoices, invoiceId).Some? && FindCustodian(s.custodians, custodianId).Some?
    ensures var r := Settle(s, invoiceId, custodianId, newId, date);
      && FindInvoice(r.invoices, invoiceId) == Some(FindInvoice(s.invoices, invoiceId).value.(status := Paid))
      && FindCustodian(r.custodians, custodianId).Some?
  {
    var r := Settle(s, invoiceId, custodianId, newId, date);
    FindIndexPointwise(s.invoices, r.invoices, InvoiceIdIs(invoiceId));
    FindIndexPointwise(s.custodians, r.custodians, CustodianIdIs(custodianId));
    var j :| FindIndex(s.invoices, InvoiceIdIs(invoiceId)) == Some(j);
    assert r.invoices[j] == s.invoices[j].(status := Paid) by {
      assert r.invoices[j].(status := s.invoices[j].status) == s.invoices[j];
    }
  }

  /** Settling an invoice is not guarded against a second call: settling it twice moves the
      custodian's balance twice and records two transactions. */
  lemma SettleTwiceCountsTwice(s: State, invoiceId: string, custodianId: string,
                               id1: string, date1: string, id2: string, date2: string)
    requires FindInvoice(s.invoices, invoiceId).Some? && FindCustodian(s.custodians, custodianId).Some?
    ensures var s2 := Settle(Settle(s, invoiceId, custodianId, id1, date1), invoiceId, custodianId, id2, date2);
      var inv := FindInvoice(s.invoices, invoiceId).value;
      && |s2.transactions| == |s.transactions| + 2
      && |s2.custodians| == |s.custodians|
      && forall i :: 0 <= i < |s.custodians| ==>
           s2.custodians[i].balance == s.custodians[i].balance +
             (if s.custodians[i].id == custodianId then 2 * SettlementDelta(inv) else 0)
  {
    SettleKeepsFinds(s, invoiceId, custodianId, id1, date1);
  }

  /** Validating a pending transaction moves exactly its custodian, by its effect. */
  lemma ValidatePendingMovesItsCustodian(s: State, id: string, t: Transaction)
    requires FindTransaction(s.transactions, id) == Some(t) && t.status == Pending
    ensures var r := Validate(s, id, Validated);
      && |r.custodians| == |s.custodians|
      && forall i :: 0 <= i < |s.custodians| ==>
           r.custodians[i].id == s.custodians[i].id &&
           r.custodians[i].balance == s.custodians[i].balance + (if s.custodians[i].id == t.custodianId then Effect(t) else 0)
  {
  }

  /** After a transfer and the validation of its income leg, the first transaction found under the
      expense leg's id is that leg, still pending. */
  lemma IncomeLegValidatedThenFindExpense(s: State, fromId: string, toId: string, amount: int, stamp: string, date: string)
    requires FindCustodian(s.custodians, fromId).Some? && FindCustodian(s.custodians, toId).Some?
    ensures var s1 := Transfer(s, fromId, toId, amount, stamp, date);
      var s2 := Validate(s1, IncomeLegId(stamp), Validated);
      && |s1.transactions| >= 2
      && FindTransaction(s1.transactions, IncomeLegId(stamp)) == Some(s1.transactions[0])
      && FindTransaction(s2.transactions, ExpenseLegId(stamp)) == Some(s1.transactions[1])
  {
    var s1 := Transfer(s, fromId, toId, amount, stamp, date);
    var expense := s1.transactions[1];
    LegIdsDiffer(stamp);
    FindHead(s1.transactions, TransactionIdIs(IncomeLegId(stamp)));
    var s2 := Validate(s1, IncomeLegId(stamp), Validated);
    assert s2.transactions[1] == expense by {
      assert s2.transactions[1].(status := expense.status) == expense;
    }
    var tail := s2.transactions[1..];
    assert tail[0] == expense;
    FindHead(tail, TransactionIdIs(ExpenseLegId(stamp)));
  }

  /** Validating both legs of a transfer moves `amount` from the source custodian to the
      destination custodian; for a self-transfer the two effects cancel. */
  lemma TransferThenValidateBoth(s: State, fromId: string, toId: string, amount: int, stamp: string, date: string)
    requires FindCustodian(s.custodians, fromId).Some? && FindCustodian(s.custodians, toId).Some?
    ensures var s1 := Transfer(s, fromId, toId, amount, stamp, date);
      var s3 := Validate(Validate(s1, IncomeLegId(stamp), Validated), ExpenseLegId(stamp), Validated);
      && |s3.custodians| == |s.custodians|
      && forall i :: 0 <= i < |s.custodians| ==>
           s3.custodians[i].balance == s.custodians[i].balance
             + (if s.custodians[i].id == toId then amount else 0)
             - (if s.custodians[i].id == fromId then amount else 0)
  {
    var s1 := Transfer(s, fromId, toId, amount, stamp, date);
    IncomeLegValidatedThenFindExpense(s, fromId, toId, amount, stamp, date);
    var income, expense := s1.transactions[0], s1.transactions[1];
    ValidatePendingMovesItsCustodian(s1, IncomeLegId(stamp), income);
    var s2 := Validate(s1, IncomeLegId(stamp), Validated);
    ValidatePendingMovesItsCustodian(s2, ExpenseLegId(stamp), expense);
    var s3 := Validate(s2, ExpenseLegId(stamp), Validated);
    forall i | 0 <= i < |s.custodians|
      ensures s3.custodians[i].balance == s.custodians[i].balance
                + (if s.custodians[i].id == toId then amount else 0)
                - (if s.custodians[i].id == fromId then amount else 0)
    {
      assert s1.custodians[i] == s.custodians[i];
      assert s2.custodians[i].id == s.custodians[i].id;
    }
  }

  /** Deleting the invoice just added under a fresh id restores the state. */
  lemma DeleteUndoesAddInvoice(s: State, draft: InvoiceDraft, newId: string)
    requires forall i :: 0 <= i < |s.invoices| ==> s.invoices[i].id != newId
    ensures DeleteInvoice(AddInvoice(s, draft, newId), newId) == s
  {
    var added := AddInvoice(s, draft, newId).invoices;
    assert added == [added[0]] + s.invoices;
    FilterAppend([added[0]], s.invoices, InvoiceIdIsNot(newId));
    FilterKeepsAll(s.invoices, InvoiceIdIsNot(newId));
  }

  /** Deleting the transaction just added under a fresh id restores the state. */
  lemma DeleteUndoesAddTransaction(s: State, draft: TransactionDraft, newId: string)
    requires forall i :: 0 <= i < |s.transactions| ==> s.transactions[i].id != newId
    ensures DeleteTransaction(AddTransaction(s, draft, newId), newId) == s
  {
    var added := AddTransaction(s, draft, newId).transactions;
    assert added == [added[0]] + s.transactions;
    FilterAppend([added[0]], s.transactions, TransactionIdIsNot(newId));
    FilterKeepsAll(s.transactions, TransactionIdIsNot(newId));
  }

  /** Deleting the custodian just added under a fresh id restores the state. */
  lemma DeleteUndoesAddCustodian(s: State, draft: CustodianDraft, newId: string)
    requires forall i :: 0 <= i < |s.custodians| ==> s.custodians[i].id != newId
    ensures DeleteCustodian(AddCustodian(s, draft, newId), newId) == s
  {
    var added := AddCustodian(s, draft, newId).custodians;
    assert added == s.custodians + [Custodian(newId, draft.name, 0)];
    FilterAppend(s.custodians, [Custodian(newId, draft.name, 0)], CustodianIdIsNot(newId));
    FilterKeepsAll(s.custodians, CustodianIdIsNot(newId));
  }

  /** Deleting a user just added under a fresh id restores the state. */
  lemma DeleteUndoesAddUser(s: State, user: User)
    requires forall i :: 0 <= i < |s.users| ==> s.users[i].id != user.id
    ensures DeleteUser(AddUser(s, user), user.id) == s
  {
    FilterAppend(s.users, [user], UserIdIsNot(user.id));
    FilterKeepsAll(s.users, UserIdIsNot(user.id));
  }

  /** Deleting an id that no record carries changes nothing. */
  lemma DeleteAbsentIsNoop(s: State, id: string)
    requires forall i :: 0 <= i < |s.invoices| ==> s.invoices[i].id != id
    requires forall i :: 0 <= i < |s.transactions| ==> s.transactions[i].id != id
    requires forall i :: 0 <= i < |s.custodians| ==> s.custodians[i].id != id
    requires forall i :: 0 <= i < |s.users| ==> s.users[i].id != id
    ensures DeleteInvoice(s, id) == s && DeleteTransaction(s, id) == s
    ensures DeleteCustodian(s, id) == s && DeleteUser(s, id) == s
  {
    FilterKeepsAll(s.invoices, InvoiceIdIsNot(id));
    FilterKeepsAll(s.transactions, TransactionIdIsNot(id));
    FilterKeepsAll(s.custodians, CustodianIdIsNot(id));
    FilterKeepsAll(s.users, UserIdIsNot(id));
  }

  /** After an update the invoice found under the updated id is the update itself; an update
      whose id no invoice carries changes nothing. */
  lemma UpdateInvoiceThenFind(s: State, updated: Invoice)
    ensures FindInvoice(s.invoices, updated.id).Some? ==>
      FindInvoice(UpdateInvoice(s, updated).invoices, updated.id) == Some(updated)
    ensures FindInvoice(s.invoices, updated.id).None? ==> UpdateInvoice(s, updated) == s
  {
    var r := UpdateInvoice(s, updated);
    FindIndexPointwise(s.invoices, r.invoices, InvoiceIdIs(updated.id));
    if FindInvoice(s.invoices, updated.id).None? {
      assert r.invoices == s.invoices;
    }
  }

  /** Settling a receivable of 100 into an empty cash box. */
  lemma SettlementExample()
    ensures var s := State([Custodian("c1", "Caja", 0)], [Invoice("i1", Receivable, 100, "Cliente", Due)], [], []);
      var r := Settle(s, "i1", "c1", "t1", "2024-01-01");
      && r.invoices[0].status == Paid
      && r.custodians[0].balance == 100
      && |r.transactions| == 1
      && r.transactions[0].kind == Income && r.transactions[0].amount == 100
      && r.transactions[0].status == Validated && r.transactions[0].relatedInvoiceId == Some("i1")
  {
    var s := State([Custodian("c1", "Caja", 0)], [Invoice("i1", Receivable, 100, "Cliente", Due)], [], []);
    FindHead(s.invoices, InvoiceIdIs("i1"));
    FindHead(s.custodians, CustodianIdIs("c1"));
  }

  /** Validating a pending expense of 50 twice moves the balance once. */
  lemma ValidationExample()
    ensures var s := State([Custodian("c1", "Caja", 100)], [],
                           [Transaction("t1", "2024-01-01", 50, Expense, "c1", "Gasto", Pending, None)], []);
      var s1 := Validate(s, "t1", Validated);
      && s1.custodians[0].balance == 50 && s1.transactions[0].status == Validated
      && Validate(s1, "t1", Validated).custodians[0].balance == 50
  {
    var s := State([Custodian("c1", "Caja", 100)], [],
                   [Transaction("t1", "2024-01-01", 50, Expense, "c1", "Gasto", Pending, None)], []);
    FindHead(s.transactions, TransactionIdIs("t1"));
    ValidateIdempotent(s, "t1", Validated);
  }

  /** A transfer of 30 records two pending legs and moves no balance. */
  lemma TransferExample()
    ensures var s := State([Custodian("c1", "Caja", 100), Custodian("c2", "Banco", 0)], [], [], []);
      var r := Transfer(s, "c1", "c2", 30, "1700000000000", "2024-01-01");
      && |r.transactions| == 2
      && r.transactions[0].status == Pending && r.transactions[1].status == Pending
      && r.custodians == s.custodians
  {
    var s := State([Custodian("c1", "Caja", 100), Custodian("c2", "Banco", 0)], [], [], []);
    FindHead(s.custodians, CustodianIdIs("c1"));
    assert s.custodians[1..][0].id == "c2";
    FindHead(s.custodians[1..], CustodianIdIs("c2"));
  }
}
