/** The ledger handlers of App.tsx as pure transitions of the session state.
    Each function is one handler run as a single atomic step on the current collections;
    `Session` in session.dfy performs the same steps by reassigning its fields. */
module Ledger {
  import opened Seqs
  import opened Records

  /** The four collections the session holds. */
  datatype State = State(
    custodians: seq<Custodian>,
    invoices: seq<Invoice>,
    transactions: seq<Transaction>,
    users: seq<User>)

  // The callbacks the handlers pass to find, filter and map.

  function InvoiceIdIs(id: string): Invoice -> bool { (i: Invoice) => i.id == id }
  function InvoiceIdIsNot(id: string): Invoice -> bool { (i: Invoice) => i.id != id }
  function CustodianIdIs(id: string): Custodian -> bool { (c: Custodian) => c.id == id }
  function CustodianIdIsNot(id: string): Custodian -> bool { (c: Custodian) => c.id != id }
  function TransactionIdIs(id: string): Transaction -> bool { (t: Transaction) => t.id == id }
  function TransactionIdIsNot(id: string): Transaction -> bool { (t: Transaction) => t.id != id }
  function UserIdIsNot(id: string): User -> bool { (u: User) => u.id != id }

  function FindInvoice(invoices: seq<Invoice>, id: string): Option<Invoice> { Find(invoices, InvoiceIdIs(id)) }
  function FindCustodian(custodians: seq<Custodian>, id: string): Option<Custodian> { Find(custodians, CustodianIdIs(id)) }
  function FindTransaction(transactions: seq<Transaction>, id: string): Option<Transaction> { Find(transactions, TransactionIdIs(id)) }

  /** The balance change a settlement makes: `amountChange` of `processInvoice`. */
  function SettlementDelta(inv: Invoice): (delta: int)
    ensures inv.kind == Receivable ==> delta == inv.amount
    ensures inv.kind == Payable ==> delta == -inv.amount
  {
    if inv.kind == Receivable then inv.amount else -inv.amount
  }

  /** The balance change a validated transaction stands for: `amountChange` of `handleValidateTransaction`. */
  function Effect(t: Transaction): (delta: int)
    ensures t.kind == Income ==> delta == t.amount
    ensures t.kind == Expense ==> delta == -t.amount
  {
    if t.kind == Income then t.amount else -t.amount
  }

  /** Moves the balance of every custodian with id `cid` by `delta`. */
  function Credit(custodians: seq<Custodian>, cid: string, delta: int): (r: seq<Custodian>)
    ensures |r| == |custodians|
    ensures forall i :: 0 <= i < |custodians| ==>
      r[i].id == custodians[i].id && r[i].name == custodians[i].name &&
      r[i].balance == custodians[i].balance + (if custodians[i].id == cid then delta else 0)
  {
    MapWhere(custodians, CustodianIdIs(cid), (c: Custodian) => c.(balance := c.balance + delta))
  }

  /** Marks every invoice with id `id` as paid and touches nothing else. */
  function MarkPaid(invoices: seq<Invoice>, id: string): (r: seq<Invoice>)
    ensures |r| == |invoices|
    ensures forall i :: 0 <= i < |invoices| ==>
      r[i].status == (if invoices[i].id == id then Paid else invoices[i].status) &&
      r[i].(status := invoices[i].status) == invoices[i]
  {
    MapWhere(invoices, InvoiceIdIs(id), (inv: Invoice) => inv.(status := Paid))
  }

  /** Sets the status of every transaction with id `id` and touches nothing else. */
  function SetStatus(transactions: seq<Transaction>, id: string, status: Verdict): (r: seq<Transaction>)
    ensures |r| == |transactions|
    ensures forall i :: 0 <= i < |transactions| ==>
      r[i].status == (if transactions[i].id == id then status else transactions[i].status) &&
      r[i].(status := transactions[i].status) == transactions[i]
  {
    MapWhere(transactions, TransactionIdIs(id), (t: Transaction) => t.(status := status))
  }

  /** The auto-validated record a settlement prepends. */
  function SettlementRecord(inv: Invoice, custodianId: string, invoiceId: string, newId: string, date: string): (t: Transaction)
    ensures t.id == newId && t.date == date && t.amount == inv.amount && t.custodianId == custodianId
    ensures t.kind == Income <==> inv.kind == Receivable
    ensures t.status == Validated && t.relatedInvoiceId == Some(invoiceId)
    ensures inv.kind == Receivable ==> t.description == "Cobro Factura: " + inv.entityName
    ensures inv.kind == Payable ==> t.description == "Pago Factura: " + inv.entityName
    ensures Effect(t) == SettlementDelta(inv)
  {
    Transaction(
      newId, date, inv.amount,
      if inv.kind == Receivable then Income else Expense,
      custodianId,
      (if inv.kind == Receivable then "Cobro" else "Pago") + " Factura: " + inv.entityName,
      Validated,
      Some(invoiceId))
  }

  /** The ids of the two legs of a transfer made at time `stamp`. */
  function ExpenseLegId(stamp: string): (id: string)
    ensures |id| == |stamp| + 5 && id[..|stamp| + 3] == "tx-" + stamp && id[|stamp| + 3..] == "-1"
  {
    "tx-" + stamp + "-1"
  }

  function IncomeLegId(stamp: string): (id: string)
    ensures |id| == |stamp| + 5 && id[..|stamp| + 3] == "tx-" + stamp && id[|stamp| + 3..] == "-2"
  {
    "tx-" + stamp + "-2"
  }

  lemma LegIdsDiffer(stamp: string)
    ensures ExpenseLegId(stamp) != IncomeLegId(stamp)
  {
    var e, i := ExpenseLegId(stamp), IncomeLegId(stamp);
    assert e[|e| - 1] == '1' && i[|i| - 1] == '2';
  }

  // --- Invoices ---

  /** The invoice `{ ...draft, id }` that the add handler builds. */
  function InvoiceFromDraft(draft: InvoiceDraft, newId: string): (inv: Invoice)
    ensures inv.id == newId && inv.kind == draft.kind && inv.amount == draft.amount
    ensures inv.entityName == draft.entityName && inv.status == draft.status
  {
    Invoice(newId, draft.kind, draft.amount, draft.entityName, draft.status)
  }

  /** `handleAddInvoice`: the new invoice, with the id it is given, goes to the front. */
  function AddInvoice(s: State, draft: InvoiceDraft, newId: string): (r: State)
    ensures r.custodians == s.custodians && r.transactions == s.transactions && r.users == s.users
    ensures |r.invoices| == |s.invoices| + 1 && r.invoices[1..] == s.invoices
    ensures r.invoices[0] == Invoice(newId, draft.kind, draft.amount, draft.entityName, draft.status)
  {
    s.(invoices := [InvoiceFromDraft(draft, newId)] + s.invoices)
  }

  /** `handleUpdateInvoice`: every invoice with the updated id is replaced by the update. */
  function UpdateInvoice(s: State, updated: Invoice): (r: State)
    ensures r.custodians == s.custodians && r.transactions == s.transactions && r.users == s.users
    ensures |r.invoices| == |s.invoices|
    ensures forall i :: 0 <= i < |s.invoices| && s.invoices[i].id != updated.id ==> r.invoices[i] == s.invoices[i]
    ensures forall i :: 0 <= i < |s.invoices| && s.invoices[i].id == updated.id ==> r.invoices[i] == updated
  {
    s.(invoices := MapWhere(s.invoices, InvoiceIdIs(updated.id), (_: Invoice) => updated))
  }

  /** `handleDeleteInvoice`: keeps exactly the invoices with another id; nothing cascades. */
  function DeleteInvoice(s: State, id: string): (r: State)
    ensures r.custodians == s.custodians && r.transactions == s.transactions && r.users == s.users
    ensures |r.invoices| <= |s.invoices|
    ensures forall i :: 0 <= i < |r.invoices| ==> r.invoices[i].id != id && r.invoices[i] in s.invoices
    ensures forall i :: 0 <= i < |s.invoices| && s.invoices[i].id != id ==> s.invoices[i] in r.invoices
  {
    s.(invoices := Filter(s.invoices, InvoiceIdIsNot(id)))
  }

  /** `processInvoice`: settles invoice `invoiceId` into custodian `custodianId`. */
  function Settle(s: State, invoiceId: string, custodianId: string, newId: string, date: string): (r: State)
    ensures FindInvoice(s.invoices, invoiceId).None? || FindCustodian(s.custodians, custodianId).None? ==> r == s
    ensures r.users == s.users
    ensures FindInvoice(s.invoices, invoiceId).Some? && FindCustodian(s.custodians, custodianId).Some? ==>
      var inv := FindInvoice(s.invoices, invoiceId).value;
      && |r.invoices| == |s.invoices|
      && (forall i :: 0 <= i < |s.invoices| ==>
            r.invoices[i].status == (if s.invoices[i].id == invoiceId then Paid else s.invoices[i].status) &&
            r.invoices[i].(status := s.invoices[i].status) == s.invoices[i])
      && |r.custodians| == |s.custodians|
      && (forall i :: 0 <= i < |s.custodians| ==>
            r.custodians[i].id == s.custodians[i].id && r.custodians[i].name == s.custodians[i].name &&
            r.custodians[i].balance == s.custodians[i].balance +
              (if s.custodians[i].id != custodianId then 0
               else if inv.kind == Receivable then inv.amount else -inv.amount))
      && |r.transactions| == |s.transactions| + 1
      && r.transactions[1..] == s.transactions
      && r.transactions[0].id == newId && r.transactions[0].date == date
      && r.transactions[0].status == Validated
      && r.transactions[0].amount == inv.amount
      && (r.transactions[0].kind == Income <==> inv.kind == Receivable)
      && r.transactions[0].custodianId == custodianId
      && r.transactions[0].relatedInvoiceId == Some(invoiceId)
  {
    match (FindInvoice(s.invoices, invoiceId), FindCustodian(s.custodians, custodianId))
    case (Some(inv), Some(_)) =>
      s.(invoices := MarkPaid(s.invoices, invoiceId),
         custodians := Credit(s.custodians, custodianId, SettlementDelta(inv)),
         transactions := [SettlementRecord(inv, custodianId, invoiceId, newId, date)] + s.transactions)
    case _ => s
  }

  // --- Transactions ---

  /** The transaction `{ ...draft, id }` that the add handler builds. */
  function TransactionFromDraft(draft: TransactionDraft, newId: string): (t: Transaction)
    ensures t.id == newId && t.date == draft.date && t.amount == draft.amount && t.kind == draft.kind
    ensures t.custodianId == draft.custodianId && t.description == draft.description
    ensures t.status == draft.status && t.relatedInvoiceId == draft.relatedInvoiceId
  {
    Transaction(newId, draft.date, draft.amount, draft.kind, draft.custodianId,
                draft.description, draft.status, draft.relatedInvoiceId)
  }

  /** `handleAddTransaction`: the new transaction, with the id it is given, goes to the front. */
  function AddTransaction(s: State, draft: TransactionDraft, newId: string): (r: State)
    ensures r.custodians == s.custodians && r.invoices == s.invoices && r.users == s.users
    ensures |r.transactions| == |s.transactions| + 1 && r.transactions[1..] == s.transactions
    ensures r.transactions[0] == Transaction(newId, draft.date, draft.amount, draft.kind, draft.custodianId,
                                             draft.description, draft.status, draft.relatedInvoiceId)
  {
    s.(transactions := [TransactionFromDraft(draft, newId)] + s.transactions)
  }

  /** `handleValidateTransaction`: sets the status of transaction `id`; the balance effect is applied
      only on a move into VALIDATED from a status that is not VALIDATED. */
  function Validate(s: State, id: string, verdict: Verdict): (r: State)
    ensures r.invoices == s.invoices && r.users == s.users
    ensures FindTransaction(s.transactions, id).None? ==> r == s
    ensures |r.transactions| == |s.transactions|
    ensures forall i :: 0 <= i < |s.transactions| ==>
      r.transactions[i].status == (if s.transactions[i].id == id then verdict else s.transactions[i].status) &&
      r.transactions[i].(status := s.transactions[i].status) == s.transactions[i]
    ensures |r.custodians| == |s.custodians|
    ensures FindTransaction(s.transactions, id).Some? ==>
      var t := FindTransaction(s.transactions, id).value;
      forall i :: 0 <= i < |s.custodians| ==>
        r.custodians[i].id == s.custodians[i].id && r.custodians[i].name == s.custodians[i].name &&
        r.custodians[i].balance == s.custodians[i].balance +
          (if verdict == Validated && t.status != Validated && s.custodians[i].id == t.custodianId
           then (if t.kind == Income then t.amount else -t.amount) else 0)
    ensures r.custodians != s.custodians ==>
      verdict == Validated && FindTransaction(s.transactions, id).Some? &&
      FindTransaction(s.transactions, id).value.status != Validated
    ensures verdict == Rejected ==> r.custodians == s.custodians
  {
    match FindTransaction(s.transactions, id)
    case None => s
    case Some(t) =>
      var custodians := if verdict == Validated && t.status != Validated
                        then Credit(s.custodians, t.custodianId, Effect(t)) else s.custodians;
      s.(custodians := custodians, transactions := SetStatus(s.transactions, id, verdict))
  }

  /** `handleDeleteTransaction`: keeps exactly the transactions with another id; balances are not touched. */
  function DeleteTransaction(s: State, id: string): (r: State)
    ensures r.custodians == s.custodians && r.invoices == s.invoices && r.users == s.users
    ensures |r.transactions| <= |s.transactions|
    ensures forall i :: 0 <= i < |r.transactions| ==> r.transactions[i].id != id && r.transactions[i] in s.transactions
    ensures forall i :: 0 <= i < |s.transactions| && s.transactions[i].id != id ==> s.transactions[i] in r.transactions
  {
    s.(transactions := Filter(s.transactions, TransactionIdIsNot(id)))
  }

  /** The two pending legs of a transfer, income on `toId` first, then expense on `fromId`;
      each description names the other custodian. */
  function TransferLegs(fromId: string, toId: string, fromName: string, toName: string,
                        amount: int, stamp: string, date: string): (legs: seq<Transaction>)
    ensures |legs| == 2
    ensures legs[0].id == IncomeLegId(stamp) && legs[0].kind == Income && legs[0].custodianId == toId
    ensures legs[1].id == ExpenseLegId(stamp) && legs[1].kind == Expense && legs[1].custodianId == fromId
    ensures legs[0].description == "Transferencia recibida de " + fromName
    ensures legs[1].description == "Transferencia enviada a " + toName
    ensures forall k :: 0 <= k < 2 ==>
      legs[k].amount == amount && legs[k].date == date && legs[k].status == Pending && legs[k].relatedInvoiceId == None
    ensures Effect(legs[0]) + Effect(legs[1]) == 0
  {
    [ Transaction(IncomeLegId(stamp), date, amount, Income, toId,
                  "Transferencia recibida de " + fromName, Pending, None),
      Transaction(ExpenseLegId(stamp), date, amount, Expense, fromId,
                  "Transferencia enviada a " + toName, Pending, None) ]
  }

  /** `handleTransfer`: records a movement between two custodians as two pending legs; no balance moves. */
  function Transfer(s: State, fromId: string, toId: string, amount: int, stamp: string, date: string): (r: State)
    ensures r.custodians == s.custodians && r.invoices == s.invoices && r.users == s.users
    ensures FindCustodian(s.custodians, fromId).None? || FindCustodian(s.custodians, toId).None? ==> r == s
    ensures FindCustodian(s.custodians, fromId).Some? && FindCustodian(s.custodians, toId).Some? ==>
      && |r.transactions| == |s.transactions| + 2
      && r.transactions[2..] == s.transactions
      && r.transactions[0].id == IncomeLegId(stamp) && r.transactions[0].kind == Income
      && r.transactions[0].custodianId == toId
      && r.transactions[1].id == ExpenseLegId(stamp) && r.transactions[1].kind == Expense
      && r.transactions[1].custodianId == fromId
      && (forall k :: 0 <= k < 2 ==>
            r.transactions[k].status == Pending && r.transactions[k].amount == amount &&
            r.transactions[k].date == date && r.transactions[k].relatedInvoiceId == None)
  {
    match (FindCustodian(s.custodians, fromId), FindCustodian(s.custodians, toId))
    case (Some(from), Some(to)) =>
      s.(transactions := TransferLegs(fromId, toId, from.name, to.name, amount, stamp, date) + s.transactions)
    case _ => s
  }

  // --- Custodians ---

  /** The custodian `{ ...draft, id, balance: 0 }` that the add handler builds. */
  function CustodianFromDraft(draft: CustodianDraft, newId: string): (c: Custodian)
    ensures c.id == newId && c.name == draft.name && c.balance == 0
  {
    Custodian(newId, draft.name, 0)
  }

  /** `handleAddCustodian`: appends the custodian with the id it is given and balance 0, whatever balance was supplied. */
  function AddCustodian(s: State, draft: CustodianDraft, newId: string): (r: State)
    ensures r.invoices == s.invoices && r.transactions == s.transactions && r.users == s.users
    ensures |r.custodians| == |s.custodians| + 1 && r.custodians[..|s.custodians|] == s.custodians
    ensures r.custodians[|s.custodians|] == Custodian(newId, draft.name, 0)
  {
    s.(custodians := s.custodians + [CustodianFromDraft(draft, newId)])
  }

  /** `handleDeleteCustodian`: keeps exactly the custodians with another id; their transactions and invoices stay. */
  function DeleteCustodian(s: State, id: string): (r: State)
    ensures r.invoices == s.invoices && r.transactions == s.transactions && r.users == s.users
    ensures |r.custodians| <= |s.custodians|
    ensures forall i :: 0 <= i < |r.custodians| ==> r.custodians[i].id != id && r.custodians[i] in s.custodians
    ensures forall i :: 0 <= i < |s.custodians| && s.custodians[i].id != id ==> s.custodians[i] in r.custodians
  {
    s.(custodians := Filter(s.custodians, CustodianIdIsNot(id)))
  }

  // --- Users ---

  /** `handleAddUser`: appends the user as given. */
  function AddUser(s: State, user: User): (r: State)
    ensures r.custodians == s.custodians && r.invoices == s.invoices && r.transactions == s.transactions
    ensures |r.users| == |s.users| + 1 && r.users[..|s.users|] == s.users && r.users[|s.users|] == user
  {
    s.(users := s.users + [user])
  }

  /** `handleDeleteUser`: keeps exactly the users with another id. */
  function DeleteUser(s: State, id: string): (r: State)
    ensures r.custodians == s.custodians && r.invoices == s.invoices && r.transactions == s.transactions
    ensures |r.users| <= |s.users|
    ensures forall i :: 0 <= i < |r.users| ==> r.users[i].id != id && r.users[i] in s.users
    ensures forall i :: 0 <= i < |s.users| && s.users[i].id != id ==> s.users[i] in r.users
  {
    s.(users := Filter(s.users, UserIdIsNot(id)))
  }
}
