/** The stored balance of a custodian is a running total, never recomputed from the transaction log.
    This module measures how far it is from the log (its drift) and proves that every offered action
    of `Action` leaves each custodian's drift where it was (adding and deleting custodians are shown
    to keep a balanced ledger balanced); the two actions they do not offer
    (rejecting or deleting a validated transaction) are shown to change it. */
module Consistency {
  import opened Seqs
  import opened Records
  import opened Ledger
  import opened TransactionsView

  /** What one transaction adds to custodian `cid`'s balance according to the log. */
  function Contribution(t: Transaction, cid: string): int
  {
    if t.status == Validated && t.custodianId == cid then Effect(t) else 0
  }

  /** The balance of custodian `cid` derived from the validated transactions of the log. */
  function Derived(transactions: seq<Transaction>, cid: string): int
  {
    if |transactions| == 0 then 0 else Contribution(transactions[0], cid) + Derived(transactions[1..], cid)
  }

  /** Stored balance minus derived balance of the `i`-th custodian. */
  function Drift(s: State, i: nat): int
    requires i < |s.custodians|
  {
    s.custodians[i].balance - Derived(s.transactions, s.custodians[i].id)
  }

  /** `r` has the same custodians as `s`, each with the same drift. */
  predicate KeepsDrift(s: State, r: State)
  {
    |r.custodians| == |s.custodians| &&
    forall i :: 0 <= i < |s.custodians| ==> r.custodians[i].id == s.custodians[i].id && Drift(r, i) == Drift(s, i)
  }

  predicate UniqueTransactionIds(transactions: seq<Transaction>)
  {
    forall i, j :: 0 <= i < |transactions| && 0 <= j < |transactions| && transactions[i].id == transactions[j].id ==> i == j
  }

  predicate FreshTransactionId(transactions: seq<Transaction>, id: string)
  {
    forall i :: 0 <= i < |transactions| ==> transactions[i].id != id
  }

  lemma DerivedPrepend(t: Transaction, transactions: seq<Transaction>, cid: string)
    ensures Derived([t] + transactions, cid) == Contribution(t, cid) + Derived(transactions, cid)
  {
    assert ([t] + transactions)[1..] == transactions;
  }

  /** Replacing one transaction changes the derived balance by the difference of the two contributions. */
  lemma {:induction false} DerivedReplace(transactions: seq<Transaction>, j: nat, t: Transaction, cid: string)
    requires j < |transactions|
    ensures Derived(transactions[j := t], cid) ==
            Derived(transactions, cid) - Contribution(transactions[j], cid) + Contribution(t, cid)
  {
    if j > 0 {
      assert transactions[j := t][1..] == transactions[1..][j - 1 := t];
      DerivedReplace(transactions[1..], j - 1, t, cid);
    } else {
      assert transactions[0 := t][1..] == transactions[1..];
    }
  }

  /** Deleting transactions that are not validated leaves every derived balance as it was. */
  lemma {:induction false} DerivedDeleteUnvalidated(transactions: seq<Transaction>, id: string, cid: string)
    requires forall i :: 0 <= i < |transactions| && transactions[i].id == id ==> transactions[i].status != Validated
    ensures Derived(Filter(transactions, TransactionIdIsNot(id)), cid) == Derived(transactions, cid)
  {
    if |transactions| > 0 {
      var rest := Filter(transactions[1..], TransactionIdIsNot(id));
      DerivedDeleteUnvalidated(transactions[1..], id, cid);
      if transactions[0].id != id {
        DerivedPrepend(transactions[0], rest, cid);
      } else {
        assert [] + rest == rest;
      }
    }
  }

  /** With unique ids, a validation call rewrites exactly the one transaction it finds. */
  lemma SetStatusIsOneReplacement(transactions: seq<Transaction>, j: nat, status: Verdict)
    requires UniqueTransactionIds(transactions) && j < |transactions|
    ensures SetStatus(transactions, transactions[j].id, status) == transactions[j := transactions[j].(status := status)]
  {
    var r := SetStatus(transactions, transactions[j].id, status);
    forall i | 0 <= i < |transactions|
      ensures r[i] == transactions[j := transactions[j].(status := status)][i]
    {
      assert r[i] == r[i].(status := r[i].status);
    }
  }

  lemma SettleKeepsDrift(s: State, invoiceId: string, custodianId: string, newId: string, date: string)
    ensures KeepsDrift(s, Settle(s, invoiceId, custodianId, newId, date))
  {
    var r := Settle(s, invoiceId, custodianId, newId, date);
    if FindInvoice(s.invoices, invoiceId).Some? && FindCustodian(s.custodians, custodianId).Some? {
      forall i | 0 <= i < |s.custodians|
        ensures Drift(r, i) == Drift(s, i)
      {
        DerivedPrepend(r.transactions[0], s.transactions, s.custodians[i].id);
        assert r.transactions == [r.transactions[0]] + s.transactions;
      }
    }
  }

  /** Any validation keeps every drift, except rejecting a transaction that is already validated. */
  lemma ValidateKeepsDrift(s: State, id: string, verdict: Verdict)
    requires UniqueTransactionIds(s.transactions)
    requires FindTransaction(s.transactions, id).Some? && verdict == Rejected ==>
             FindTransaction(s.transactions, id).value.status != Validated
    ensures KeepsDrift(s, Validate(s, id, verdict))
  {
    var r := Validate(s, id, verdict);
    match FindIndex(s.transactions, TransactionIdIs(id))
    case None =>
    case Some(j) =>
      var t := s.transactions[j];
      SetStatusIsOneReplacement(s.transactions, j, verdict);
      forall i | 0 <= i < |s.custodians|
        ensures Drift(r, i) == Drift(s, i)
      {
        DerivedReplace(s.transactions, j, t.(status := verdict), s.custodians[i].id);
      }
  }

  lemma TransferKeepsDrift(s: State, fromId: string, toId: string, amount: int, stamp: string, date: string)
    ensures KeepsDrift(s, Transfer(s, fromId, toId, amount, stamp, date))
  {
    var r := Transfer(s, fromId, toId, amount, stamp, date);
    if FindCustodian(s.custodians, fromId).Some? && FindCustodian(s.custodians, toId).Some? {
      forall i | 0 <= i < |s.custodians|
        ensures Drift(r, i) == Drift(s, i)
      {
        var cid := s.custodians[i].id;
        DerivedPrepend(r.transactions[1], s.transactions, cid);
        DerivedPrepend(r.transactions[0], [r.transactions[1]] + s.transactions, cid);
        assert r.transactions == [r.transactions[0]] + ([r.transactions[1]] + s.transactions);
      }
    }
  }

  lemma AddUnvalidatedKeepsDrift(s: State, draft: TransactionDraft, newId: string)
    requires draft.status != Validated
    ensures KeepsDrift(s, AddTransaction(s, draft, newId))
  {
    var r := AddTransaction(s, draft, newId);
    forall i | 0 <= i < |s.custodians|
      ensures Drift(r, i) == Drift(s, i)
    {
      DerivedPrepend(r.transactions[0], s.transactions, s.custodians[i].id);
      assert r.transactions == [r.transactions[0]] + s.transactions;
    }
  }

  lemma DeleteUnvalidatedKeepsDrift(s: State, id: string)
    requires forall i :: 0 <= i < |s.transactions| && s.transactions[i].id == id ==> s.transactions[i].status != Validated
    ensures KeepsDrift(s, DeleteTransaction(s, id))
  {
    forall i | 0 <= i < |s.custodians|
      ensures Drift(DeleteTransaction(s, id), i) == Drift(s, i)
    {
      DerivedDeleteUnvalidated(s.transactions, id, s.custodians[i].id);
    }
  }

  lemma UniquePrepend(t: Transaction, transactions: seq<Transaction>)
    requires UniqueTransactionIds(transactions) && FreshTransactionId(transactions, t.id)
    ensures UniqueTransactionIds([t] + transactions)
  {
    var r := [t] + transactions;
    forall i, j | 0 <= i < |r| && 0 <= j < |r| && r[i].id == r[j].id
      ensures i == j
    {
      if i > 0 && j > 0 {
        assert r[i] == transactions[i - 1] && r[j] == transactions[j - 1];
      }
    }
  }

  /** Filtering keeps ids unique. */
  lemma {:induction false} UniqueFilter(transactions: seq<Transaction>, p: Transaction -> bool)
    requires UniqueTransactionIds(transactions)
    ensures UniqueTransactionIds(Filter(transactions, p))
  {
    if |transactions| > 0 {
      var rest := Filter(transactions[1..], p);
      assert UniqueTransactionIds(transactions[1..]) by {
        forall i, j | 0 <= i < |transactions| - 1 && 0 <= j < |transactions| - 1 && transactions[1..][i].id == transactions[1..][j].id
          ensures i == j
        {
          assert transactions[i + 1].id == transactions[j + 1].id;
        }
      }
      UniqueFilter(transactions[1..], p);
      if p(transactions[0]) {
        forall k | 0 <= k < |rest|
          ensures rest[k].id != transactions[0].id
        {
          var m :| 1 <= m < |transactions| && transactions[m] == rest[k];
        }
        UniquePrepend(transactions[0], rest);
      } else {
        assert [] + rest == rest;
      }
    }
  }

  /** The user actions the screens offer, each one call of a handler. */
  datatype Action =
    | SettleInvoice(invoiceId: string, custodianId: string, newId: string, date: string)
    | Decide(id: string, verdict: Verdict)
    | RemoveTransaction(id: string)
    | Submit(form: TransactionForm, newId: string)
    | MoveFunds(fromId: string, toId: string, amount: int, stamp: string, date: string)
    | NewInvoice(draft: InvoiceDraft, invoiceId: string)
    | EditInvoice(updated: Invoice)
    | RemoveInvoice(invoiceId: string)
    | NewUser(user: User)
    | RemoveUser(userId: string)

  function Apply(s: State, a: Action): State
  {
    match a
    case SettleInvoice(invoiceId, custodianId, newId, date) => Settle(s, invoiceId, custodianId, newId, date)
    case Decide(id, verdict) => Validate(s, id, verdict)
    case RemoveTransaction(id) => DeleteTransaction(s, id)
    case Submit(form, newId) => AddTransaction(s, SubmittedDraft(form), newId)
    case MoveFunds(fromId, toId, amount, stamp, date) => Transfer(s, fromId, toId, amount, stamp, date)
    case NewInvoice(draft, invoiceId) => AddInvoice(s, draft, invoiceId)
    case EditInvoice(updated) => UpdateInvoice(s, updated)
    case RemoveInvoice(invoiceId) => DeleteInvoice(s, invoiceId)
    case NewUser(user) => AddUser(s, user)
    case RemoveUser(userId) => DeleteUser(s, userId)
  }

  /** Whether a user with `role` can trigger `a` on `s`: the row buttons of the transactions screen,
      its create button, the users screen for administrators. New ids are assumed fresh. */
  predicate Offered(s: State, role: Role, a: Action)
    ensures a.Decide? && Offered(s, role, a) ==>
      role != Operator && FindTransaction(s.transactions, a.id).Some? && FindTransaction(s.transactions, a.id).value.status == Pending
    ensures a.RemoveTransaction? && Offered(s, role, a) ==>
      FindTransaction(s.transactions, a.id).Some? && FindTransaction(s.transactions, a.id).value.status != Validated
    ensures a.Submit? && Offered(s, role, a) ==> role != Accountant
    ensures (a.NewUser? || a.RemoveUser?) ==> (Offered(s, role, a) <==> role == Admin)
    ensures (a.NewInvoice? || a.EditInvoice? || a.RemoveInvoice?) ==> Offered(s, role, a)
  {
    match a
    case SettleInvoice(_, _, newId, _) => FreshTransactionId(s.transactions, newId)
    case Decide(id, _) =>
      FindTransaction(s.transactions, id).Some? && OffersValidation(FindTransaction(s.transactions, id).value, role)
    case RemoveTransaction(id) =>
      FindTransaction(s.transactions, id).Some? && OffersDelete(FindTransaction(s.transactions, id).value)
    case Submit(_, newId) => CanCreate(role) && FreshTransactionId(s.transactions, newId)
    case MoveFunds(_, _, _, stamp, _) =>
      FreshTransactionId(s.transactions, IncomeLegId(stamp)) && FreshTransactionId(s.transactions, ExpenseLegId(stamp))
    case NewUser(_) => role == Admin
    case RemoveUser(_) => role == Admin
    case _ => true
  }

  lemma SettleStepConsistent(s: State, invoiceId: string, custodianId: string, newId: string, date: string)
    requires UniqueTransactionIds(s.transactions) && FreshTransactionId(s.transactions, newId)
    ensures var r := Settle(s, invoiceId, custodianId, newId, date);
      UniqueTransactionIds(r.transactions) && KeepsDrift(s, r)
  {
    var r := Settle(s, invoiceId, custodianId, newId, date);
    SettleKeepsDrift(s, invoiceId, custodianId, newId, date);
    if r != s {
      assert r.transactions == [r.transactions[0]] + s.transactions;
      UniquePrepend(r.transactions[0], s.transactions);
    }
  }

  lemma DecideStepConsistent(s: State, id: string, verdict: Verdict)
    requires UniqueTransactionIds(s.transactions)
    requires FindTransaction(s.transactions, id).Some? && FindTransaction(s.transactions, id).value.status == Pending
    ensures var r := Validate(s, id, verdict);
      UniqueTransactionIds(r.transactions) && KeepsDrift(s, r)
  {
    var r := Validate(s, id, verdict);
    ValidateKeepsDrift(s, id, verdict);
    forall i | 0 <= i < |s.transactions|
      ensures r.transactions[i].id == s.transactions[i].id
    {
      assert r.transactions[i].(status := s.transactions[i].status) == s.transactions[i];
    }
  }

  lemma RemoveStepConsistent(s: State, id: string)
    requires UniqueTransactionIds(s.transactions)
    requires FindTransaction(s.transactions, id).Some? && FindTransaction(s.transactions, id).value.status != Validated
    ensures var r := DeleteTransaction(s, id);
      UniqueTransactionIds(r.transactions) && KeepsDrift(s, r)
  {
    var j :| FindIndex(s.transactions, TransactionIdIs(id)) == Some(j);
    DeleteUnvalidatedKeepsDrift(s, id);
    UniqueFilter(s.transactions, TransactionIdIsNot(id));
  }

  lemma SubmitStepConsistent(s: State, form: TransactionForm, newId: string)
    requires UniqueTransactionIds(s.transactions) && FreshTransactionId(s.transactions, newId)
    ensures var r := AddTransaction(s, SubmittedDraft(form), newId);
      UniqueTransactionIds(r.transactions) && KeepsDrift(s, r)
  {
    var r := AddTransaction(s, SubmittedDraft(form), newId);
    AddUnvalidatedKeepsDrift(s, SubmittedDraft(form), newId);
    UniquePrepend(r.transactions[0], s.transactions);
  }

  lemma MoveStepConsistent(s: State, fromId: string, toId: string, amount: int, stamp: string, date: string)
    requires UniqueTransactionIds(s.transactions)
    requires FreshTransactionId(s.transactions, IncomeLegId(stamp)) && FreshTransactionId(s.transactions, ExpenseLegId(stamp))
    ensures var r := Transfer(s, fromId, toId, amount, stamp, date);
      UniqueTransactionIds(r.transactions) && KeepsDrift(s, r)
  {
    var r := Transfer(s, fromId, toId, amount, stamp, date);
    TransferKeepsDrift(s, fromId, toId, amount, stamp, date);
    if r != s {
      LegIdsDiffer(stamp);
      UniquePrepend(r.transactions[1], s.transactions);
      UniquePrepend(r.transactions[0], [r.transactions[1]] + s.transactions);
      assert r.transactions == [r.transactions[0]] + ([r.transactions[1]] + s.transactions);
    }
  }

  /** One offered action keeps transaction ids unique and every custodian's drift. */
  lemma StepKeepsConsistency(s: State, role: Role, a: Action)
    requires UniqueTransactionIds(s.transactions) && Offered(s, role, a)
    ensures UniqueTransactionIds(Apply(s, a).transactions) && KeepsDrift(s, Apply(s, a))
  {
    match a
    case SettleInvoice(invoiceId, custodianId, newId, date) => SettleStepConsistent(s, invoiceId, custodianId, newId, date);
    case Decide(id, verdict) => DecideStepConsistent(s, id, verdict);
    case RemoveTransaction(id) => RemoveStepConsistent(s, id);
    case Submit(form, newId) => SubmitStepConsistent(s, form, newId);
    case MoveFunds(fromId, toId, amount, stamp, date) => MoveStepConsistent(s, fromId, toId, amount, stamp, date);
    case NewInvoice(_, _) =>
    case EditInvoice(_) =>
    case RemoveInvoice(_) =>
    case NewUser(_) =>
    case RemoveUser(_) =>
  }

  /** One button press: the role of the user logged in at that moment and the action it triggers.
      Logging out and in again between steps changes the role. */
  datatype Step = Step(role: Role, action: Action)

  /** The state after running the actions of `steps` one after another. */
  function Run(s: State, steps: seq<Step>): State
    decreases |steps|
  {
    if |steps| == 0 then s else Run(Apply(s, steps[0].action), steps[1..])
  }

  /** Every step's action is offered, to that step's role, in the state it is applied to. */
  predicate AllOffered(s: State, steps: seq<Step>)
    decreases |steps|
  {
    |steps| == 0 ||
    (Offered(s, steps[0].role, steps[0].action) && AllOffered(Apply(s, steps[0].action), steps[1..]))
  }

  /** Every stored balance equals the balance derived from the log. */
  predicate Balanced(s: State)
  {
    forall i :: 0 <= i < |s.custodians| ==> Drift(s, i) == 0
  }

  /** Any run of offered actions, by any sequence of roles, keeps transaction ids unique and every
      custodian's drift; in particular a balanced ledger stays balanced. */
  lemma {:induction false} RunKeepsConsistency(s: State, steps: seq<Step>)
    requires UniqueTransactionIds(s.transactions) && AllOffered(s, steps)
    ensures UniqueTransactionIds(Run(s, steps).transactions)
    ensures KeepsDrift(s, Run(s, steps))
    ensures Balanced(s) ==> Balanced(Run(s, steps))
    decreases |steps|
  {
    if |steps| > 0 {
      StepKeepsConsistency(s, steps[0].role, steps[0].action);
      RunKeepsConsistency(Apply(s, steps[0].action), steps[1..]);
    }
  }

  /** A transaction log none of whose records names `cid` derives nothing for it. */
  lemma {:induction false} DerivedUnmentioned(transactions: seq<Transaction>, cid: string)
    requires forall i :: 0 <= i < |transactions| ==> transactions[i].custodianId != cid
    ensures Derived(transactions, cid) == 0
    decreases |transactions|
  {
    if |transactions| > 0 {
      DerivedUnmentioned(transactions[1..], cid);
    }
  }

  /** Adding a custodian keeps a balanced ledger balanced when no transaction already names its id:
      it starts at 0 and the log derives 0 for it. */
  lemma AddCustodianKeepsBalanced(s: State, draft: CustodianDraft, newId: string)
    requires Balanced(s)
    requires forall i :: 0 <= i < |s.transactions| ==> s.transactions[i].custodianId != newId
    ensures Balanced(AddCustodian(s, draft, newId))
  {
    var r := AddCustodian(s, draft, newId);
    DerivedUnmentioned(s.transactions, newId);
    forall i | 0 <= i < |r.custodians|
      ensures Drift(r, i) == 0
    {
      if i < |s.custodians| {
        assert r.custodians[i] == s.custodians[i];
        assert Drift(s, i) == 0;
      }
    }
  }

  /** Deleting custodians keeps a balanced ledger balanced: every remaining custodian was already balanced. */
  lemma DeleteCustodianKeepsBalanced(s: State, id: string)
    requires Balanced(s)
    ensures Balanced(DeleteCustodian(s, id))
  {
    var r := DeleteCustodian(s, id);
    forall i | 0 <= i < |r.custodians|
      ensures Drift(r, i) == 0
    {
      var j :| 0 <= j < |s.custodians| && s.custodians[j] == r.custodians[i];
      assert Drift(s, j) == 0;
    }
  }

  /** A one-custodian, one-transaction ledger used by the two counterexamples below. */
  function Sample(): State
  {
    State([Custodian("c1", "Caja", 0)],
          [],
          [Transaction("t1", "2024-01-01", 100, Income, "c1", "Ingreso", Pending, None)],
          [])
  }

  /** Rejecting a transaction after validating it keeps its balance effect but drops it from the log. */
  lemma RejectAfterValidateDrifts()
    ensures var s1 := Validate(Sample(), "t1", Validated);
      KeepsDrift(Sample(), s1) && !KeepsDrift(s1, Validate(s1, "t1", Rejected))
  {
    var s0 := Sample();
    FindHead(s0.transactions, TransactionIdIs("t1"));
    ValidateKeepsDrift(s0, "t1", Validated);
    var s1 := Validate(s0, "t1", Validated);
    FindHead(s1.transactions, TransactionIdIs("t1"));
    var s2 := Validate(s1, "t1", Rejected);
    assert s1.custodians[0].balance == 100 && s2.custodians[0].balance == 100;
    assert Derived(s1.transactions, "c1") == 100 by {
      assert s1.transactions[1..] == [];
    }
    assert Derived(s2.transactions, "c1") == 0 by {
      assert s2.transactions[1..] == [];
    }
  }

  /** Deleting a validated transaction keeps its balance effect but drops it from the log. */
  lemma DeleteValidatedDrifts()
    ensures var s1 := Validate(Sample(), "t1", Validated);
      !KeepsDrift(s1, DeleteTransaction(s1, "t1"))
  {
    var s0 := Sample();
    FindHead(s0.transactions, TransactionIdIs("t1"));
    var s1 := Validate(s0, "t1", Validated);
    var s2 := DeleteTransaction(s1, "t1");
    assert s1.custodians[0].balance == 100;
    assert Derived(s1.transactions, "c1") == 100 by {
      assert s1.transactions[1..] == [];
    }
    assert s2.transactions == [];
  }
}
