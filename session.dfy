/** The session state of App.tsx as an object: the logged-in user, the active view and the four
    collections. Each method is one handler: it looks records up, rebuilds the collections it
    changes, and replaces them, as the handler does through its `set...` calls. */
module App {
  import opened Seqs
  import opened Records
  import Ledger
  import opened Navigation

  class Session {
    var currentUser: Option<User>
    var activeView: View
    var users: seq<User>
    var custodians: seq<Custodian>
    var invoices: seq<Invoice>
    var transactions: seq<Transaction>

    /** The four collections as one ledger value. */
    function Collections(): Ledger.State
      reads this
    {
      Ledger.State(custodians, invoices, transactions, users)
    }

    /** A session before anyone logs in, over the seed data. */
    constructor (seedUsers: seq<User>, seedCustodians: seq<Custodian>,
                 seedInvoices: seq<Invoice>, seedTransactions: seq<Transaction>)
      ensures currentUser == None && activeView == Dashboard
      ensures Collections() == Ledger.State(seedCustodians, seedInvoices, seedTransactions, seedUsers)
    {
      currentUser := None;
      activeView := Dashboard;
      users, custodians, invoices, transactions := seedUsers, seedCustodians, seedInvoices, seedTransactions;
    }

    method Login(user: User)
      modifies this`currentUser, this`activeView
      ensures currentUser == Some(user) && activeView == DefaultView(user.role)
    {
      currentUser := Some(user);
      if user.role == Operator {
        activeView := TransactionsList;
      } else {
        activeView := Dashboard;
      }
    }

    /** The logout button. */
    method Logout()
      modifies this`currentUser
      ensures currentUser == None
    {
      currentUser := None;
    }

    method AddInvoice(draft: InvoiceDraft, newId: string)
      modifies this`invoices
      ensures Collections() == Ledger.AddInvoice(old(Collections()), draft, newId)
    {
      invoices := [Ledger.InvoiceFromDraft(draft, newId)] + invoices;
    }

    method UpdateInvoice(updated: Invoice)
      modifies this`invoices
      ensures Collections() == Ledger.UpdateInvoice(old(Collections()), updated)
    {
      invoices := MapWhere(invoices, Ledger.InvoiceIdIs(updated.id), (_: Invoice) => updated);
    }

    method DeleteInvoice(id: string)
      modifies this`invoices
      ensures Collections() == Ledger.DeleteInvoice(old(Collections()), id)
    {
      invoices := Filter(invoices, Ledger.InvoiceIdIsNot(id));
    }

    method ProcessInvoice(invoiceId: string, custodianId: string, newId: string, date: string)
      modifies this`invoices, this`custodians, this`transactions
      ensures Collections() == Ledger.Settle(old(Collections()), invoiceId, custodianId, newId, date)
    {
      var invoice := Ledger.FindInvoice(invoices, invoiceId);
      var custodian := Ledger.FindCustodian(custodians, custodianId);
      if invoice.None? || custodian.None? {
        return;
      }
      invoices := Ledger.MarkPaid(invoices, invoiceId);
      var amountChange := Ledger.SettlementDelta(invoice.value);
      custodians := Ledger.Credit(custodians, custodianId, amountChange);
      var newTransaction := Ledger.SettlementRecord(invoice.value, custodianId, invoiceId, newId, date);
      transactions := [newTransaction] + transactions;
    }

    method AddTransaction(draft: TransactionDraft, newId: string)
      modifies this`transactions
      ensures Collections() == Ledger.AddTransaction(old(Collections()), draft, newId)
    {
      transactions := [Ledger.TransactionFromDraft(draft, newId)] + transactions;
    }

    method ValidateTransaction(id: string, status: Verdict)
      modifies this`custodians, this`transactions
      ensures Collections() == Ledger.Validate(old(Collections()), id, status)
    {
      var tx := Ledger.FindTransaction(transactions, id);
      if tx.None? {
        return;
      }
      if status == Validated && tx.value.status != Validated {
        var amountChange := Ledger.Effect(tx.value);
        custodians := Ledger.Credit(custodians, tx.value.custodianId, amountChange);
      }
      transactions := Ledger.SetStatus(transactions, id, status);
    }

    method DeleteTransaction(id: string)
      modifies this`transactions
      ensures Collections() == Ledger.DeleteTransaction(old(Collections()), id)
    {
      transactions := Filter(transactions, Ledger.TransactionIdIsNot(id));
    }

    method Transfer(fromId: string, toId: string, amount: int, stamp: string, date: string)
      modifies this`transactions
      ensures Collections() == Ledger.Transfer(old(Collections()), fromId, toId, amount, stamp, date)
    {
      var fromCustodian := Ledger.FindCustodian(custodians, fromId);
      var toCustodian := Ledger.FindCustodian(custodians, toId);
      if fromCustodian.None? || toCustodian.None? {
        return;
      }
      var legs := Ledger.TransferLegs(fromId, toId, fromCustodian.value.name, toCustodian.value.name, amount, stamp, date);
      transactions := legs + transactions;
    }

    method AddCustodian(draft: CustodianDraft, newId: string)
      modifies this`custodians
      ensures Collections() == Ledger.AddCustodian(old(Collections()), draft, newId)
    {
      custodians := custodians + [Ledger.CustodianFromDraft(draft, newId)];
    }

    method DeleteCustodian(id: string)
      modifies this`custodians
      ensures Collections() == Ledger.DeleteCustodian(old(Collections()), id)
    {
      custodians := Filter(custodians, Ledger.CustodianIdIsNot(id));
    }

    method AddUser(user: User)
      modifies this`users
      ensures Collections() == Ledger.AddUser(old(Collections()), user)
    {
      users := users + [user];
    }

    method DeleteUser(id: string)
      modifies this`users
      ensures Collections() == Ledger.DeleteUser(old(Collections()), id)
    {
      users := Filter(users, Ledger.UserIdIsNot(id));
    }
  }
}
