/** The record shapes of the ledger, as App.tsx and TransactionsView.tsx use them.
    Amounts and balances are integers (for example cents); ids and ISO dates are opaque strings. */
module Records {
  import opened Seqs

  /** `Role`: who is logged in. */
  datatype Role = Admin | Accountant | Operator

  /** The views App.tsx can show (`activeView`). */
  datatype View = Dashboard | CustodiansView | Accounts | TransactionsList | Users

  datatype InvoiceType = Receivable | Payable

  /** An invoice is `'PENDING'` until settled, then `'PAID'`. The pending state is called `Due` here
      because `Pending` already names a `TransactionStatus` constructor in this module, and two
      constructors of that name would have to be qualified at every use. */
  datatype InvoiceStatus = Due | Paid

  datatype TransactionType = Income | Expense

  datatype TransactionStatus = Pending | Validated | Rejected

  /** The status a validation call may set: `'VALIDATED' | 'REJECTED'`. */
  type Verdict = st: TransactionStatus | st != Pending witness Validated

  datatype Custodian = Custodian(id: string, name: string, balance: int)

  datatype Invoice = Invoice(id: string, kind: InvoiceType, amount: int, entityName: string, status: InvoiceStatus)

  datatype Transaction = Transaction(
    id: string,
    date: string,
    amount: int,
    kind: TransactionType,
    custodianId: string,
    description: string,
    status: TransactionStatus,
    relatedInvoiceId: Option<string>)

  datatype User = User(id: string, name: string, role: Role, avatar: string)

  /** `Omit<Invoice, 'id'>`: what the invoice form hands to the add handler. */
  datatype InvoiceDraft = InvoiceDraft(kind: InvoiceType, amount: int, entityName: string, status: InvoiceStatus)

  /** `Omit<Custodian, 'id'>`: the supplied balance is ignored by the add handler. */
  datatype CustodianDraft = CustodianDraft(name: string, balance: int)

  /** `Omit<Transaction, 'id'>`. */
  datatype TransactionDraft = TransactionDraft(
    date: string,
    amount: int,
    kind: TransactionType,
    custodianId: string,
    description: string,
    status: TransactionStatus,
    relatedInvoiceId: Option<string>)
}
