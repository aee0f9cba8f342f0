/** The rules of the transactions screen (components/TransactionsView.tsx): the type filter, who may
    validate or create, which row actions are offered, and what a manual submission records. */
module TransactionsView {
  import opened Seqs
  import opened Records
  import opened Ledger

  /** `filterType`: `'ALL'` or one transaction type. */
  datatype TypeFilter = All | OnlyType(kind: TransactionType)

  function Accepts(f: TypeFilter): Transaction -> bool
  {
    (t: Transaction) => f.All? || t.kind == f.kind
  }

  /** `filteredTransactions`: all of them under `'ALL'`, otherwise exactly those of the chosen type. */
  function FilteredTransactions(transactions: seq<Transaction>, f: TypeFilter): (r: seq<Transaction>)
    ensures f.All? ==> r == transactions
    ensures f.OnlyType? ==>
      (forall i :: 0 <= i < |r| ==> r[i].kind == f.kind && r[i] in transactions) &&
      (forall i :: 0 <= i < |transactions| && transactions[i].kind == f.kind ==> transactions[i] in r)
  {
    if f.All? then
      FilterKeepsAll(transactions, Accepts(f));
      Filter(transactions, Accepts(f))
    else
      Filter(transactions, Accepts(f))
  }

  /** The income view and the expense view together show every transaction exactly once. */
  lemma {:induction false} FilterPartition(transactions: seq<Transaction>)
    ensures |FilteredTransactions(transactions, OnlyType(Income))| + |FilteredTransactions(transactions, OnlyType(Expense))|
            == |transactions|
  {
    if |transactions| > 0 {
      FilterPartition(transactions[1..]);
    }
  }

  /** `canValidate`: administrators and accountants approve; operators do not. */
  function CanValidate(role: Role): (b: bool)
    ensures b <==> role != Operator
  {
    role == Admin || role == Accountant
  }

  /** `canCreate`: administrators and operators record transactions; accountants do not. */
  function CanCreate(role: Role): (b: bool)
    ensures b <==> role == Admin || role == Operator
  {
    role != Accountant
  }

  /** Every role may do one of the two, and only an administrator may do both. */
  lemma SeparationOfDuties(role: Role)
    ensures CanValidate(role) || CanCreate(role)
    ensures CanValidate(role) && CanCreate(role) <==> role == Admin
  {
  }

  /** The validate and reject buttons of a row. */
  function OffersValidation(t: Transaction, role: Role): (b: bool)
    ensures b <==> t.status == Pending && role != Operator
  {
    t.status == Pending && CanValidate(role)
  }

  /** The delete button of a row: never for a validated transaction. */
  function OffersDelete(t: Transaction): (b: bool)
    ensures b <==> t.status != Validated
  {
    t.status == Pending || t.status == Rejected
  }

  /** The fields of the "new transaction" form; the amount is already parsed. */
  datatype TransactionForm = TransactionForm(
    description: string, amount: int, kind: TransactionType, custodianId: string, date: string)

  /** `handleSubmit`: what the form hands to `onAddTransaction`, always pending. */
  function SubmittedDraft(form: TransactionForm): (d: TransactionDraft)
    ensures d.status == Pending && d.relatedInvoiceId == None
    ensures d.kind == form.kind && d.custodianId == form.custodianId && d.amount == form.amount
    ensures d.description == form.description && d.date == form.date
  {
    TransactionDraft(form.date, form.amount, form.kind, form.custodianId, form.description, Pending, None)
  }

  /** The custodian column: the first custodian with the transaction's id, or "Desconocido" when
      there is none or its name is empty (`?.name || 'Desconocido'`). */
  function CustodianName(custodians: seq<Custodian>, custodianId: string): (name: string)
    ensures (forall i :: 0 <= i < |custodians| ==> custodians[i].id != custodianId) ==> name == "Desconocido"
    ensures FindCustodian(custodians, custodianId).Some? && FindCustodian(custodians, custodianId).value.name != "" ==>
      name == FindCustodian(custodians, custodianId).value.name
    ensures FindCustodian(custodians, custodianId).Some? && FindCustodian(custodians, custodianId).value.name == "" ==>
      name == "Desconocido"
    ensures name != ""
  {
    match FindCustodian(custodians, custodianId)
    case Some(c) => if c.name != "" then c.name else "Desconocido"
    case None => "Desconocido"
  }
}
