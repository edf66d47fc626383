/**
 * The transaction manager: the searched and filtered transaction lists, the bank-account
 * list with its add and delete buttons, and the add-transaction form's submit and cancel.
 */
module TransactionManager {
  import opened Wrappers
  import Seqs
  import Text

  datatype TxnType = Receipt | Payment
  datatype TxnCategory = Vendor | Client | Karigar | Expense | Asset
  datatype TxnMethod = Cash | Rtgs | Cheque | Upi
  datatype TxnStatus = Completed | Pending | Failed

  datatype Transaction = Transaction(
    id: string,
    txnType: TxnType,
    category: TxnCategory,
    amount: int,
    description: string,
    party: string,
    txnMethod: TxnMethod,
    date: int,
    status: TxnStatus,
    reference: Option<string>)

  /** The type selector: "all", "receipt" or "payment". */
  datatype TypeFilter = AllTypes | OnlyType(t: TxnType)

  /** The description, the party or the id contains the search term, ignoring case. */
  predicate MatchesSearch(txn: Transaction, searchTerm: string) {
    var s := Text.Lower(searchTerm);
    Text.Contains(Text.Lower(txn.description), s) || Text.Contains(Text.Lower(txn.party), s)
    || Text.Contains(Text.Lower(txn.id), s)
  }

  /** `searchedTransactions`. */
  function Searched(txns: seq<Transaction>, searchTerm: string): (r: seq<Transaction>)
    ensures Seqs.IsSubsequence(r, txns)
    ensures forall x :: x in r <==> x in txns && MatchesSearch(x, searchTerm)
  {
    var keep := (x: Transaction) => MatchesSearch(x, searchTerm);
    var r := Seqs.Filter(txns, keep);
    forall x ensures x in r <==> x in txns && keep(x) {
      Seqs.FilterMembership(txns, keep, x);
    }
    r
  }

  predicate MatchesFilter(txn: Transaction, filterType: TypeFilter) {
    filterType == AllTypes || txn.txnType == filterType.t
  }

  /** `filteredTransactions`: the searched transactions of the selected type. */
  function Filtered(searched: seq<Transaction>, filterType: TypeFilter): (r: seq<Transaction>)
    ensures Seqs.IsSubsequence(r, searched)
    ensures forall x :: x in r <==> x in searched && MatchesFilter(x, filterType)
  {
    var keep := (x: Transaction) => MatchesFilter(x, filterType);
    var r := Seqs.Filter(searched, keep);
    forall x ensures x in r <==> x in searched && keep(x) {
      Seqs.FilterMembership(searched, keep, x);
    }
    r
  }

  predicate IsReceipt(t: Transaction) { t.txnType == Receipt }
  predicate IsPayment(t: Transaction) { t.txnType == Payment }
  predicate IsPending(t: Transaction) { t.status == Pending }

  function Receipts(searched: seq<Transaction>): seq<Transaction> { Seqs.Filter(searched, IsReceipt) }
  function Payments(searched: seq<Transaction>): seq<Transaction> { Seqs.Filter(searched, IsPayment) }
  function PendingOnes(searched: seq<Transaction>): seq<Transaction> { Seqs.Filter(searched, IsPending) }

  /** The receipt tab and the payment tab split the searched transactions between them. */
  lemma ReceiptsPaymentsPartition(searched: seq<Transaction>)
    ensures |Receipts(searched)| + |Payments(searched)| == |searched|
    ensures multiset(Receipts(searched)) + multiset(Payments(searched)) == multiset(searched)
  {
    Seqs.FilterPartition(searched, IsReceipt, IsPayment);
  }

  /** Pending transactions are searched ones, in order. */
  lemma PendingAreSearched(searched: seq<Transaction>)
    ensures Seqs.IsSubsequence(PendingOnes(searched), searched)
    ensures forall x :: x in PendingOnes(searched) <==> x in searched && x.status == Pending
  {
    forall x {
      Seqs.FilterMembership(searched, IsPending, x);
    }
  }

  /** "All types" shows every searched transaction; one type shows exactly that type's tab. */
  lemma FilterAgreesWithTabs(searched: seq<Transaction>)
    ensures Filtered(searched, AllTypes) == searched
    ensures Filtered(searched, OnlyType(Receipt)) == Receipts(searched)
    ensures Filtered(searched, OnlyType(Payment)) == Payments(searched)
  {
    Seqs.FilterAll(searched, (x: Transaction) => MatchesFilter(x, AllTypes));
    Seqs.FilterExt(searched, (x: Transaction) => MatchesFilter(x, OnlyType(Receipt)), IsReceipt);
    Seqs.FilterExt(searched, (x: Transaction) => MatchesFilter(x, OnlyType(Payment)), IsPayment);
  }

  datatype BankAccount = BankAccount(id: string, name: string, accountNumber: string, balance: int)

  /** `****` followed by the last four characters of the number (all of it when shorter). */
  function MaskAccountNumber(number: string): (masked: string)
    ensures |masked| == 4 + (if |number| < 4 then |number| else 4)
    ensures masked[..4] == "****"
    ensures number == number[..|number| - (|masked| - 4)] + masked[4..]
  {
    "****" + Text.Last(number, 4)
  }

  /** `BA` followed by the last three digits of the clock reading in milliseconds. */
  function NewAccountId(nowMillis: nat): (id: string)
    ensures 3 <= |id| <= 5 && id[..2] == "BA"
    ensures var t := Text.NatToString(nowMillis);
      |id| - 2 == (if |t| < 3 then |t| else 3) && t == t[..|t| - (|id| - 2)] + id[2..]
  {
    "BA" + Text.Last(Text.NatToString(nowMillis), 3)
  }

  predicate HasId(a: BankAccount, id: string) { a.id == id }

  /** The accounts left after deleting `id`: every other account, in order. */
  function RemoveAccount(accounts: seq<BankAccount>, id: string): (r: seq<BankAccount>)
    ensures Seqs.IsSubsequence(r, accounts)
    ensures forall a :: a in r <==> a in accounts && a.id != id
  {
    var keep := (a: BankAccount) => a.id != id;
    var r := Seqs.Filter(accounts, keep);
    forall a ensures a in r <==> a in accounts && keep(a) {
      Seqs.FilterMembership(accounts, keep, a);
    }
    r
  }

  /** The kinds of transaction the form can be opened for. */
  datatype FormKind = ReceiptForm | PaymentForm | CashForm | GoldForm | BankingForm

  datatype Party = Party(id: string, name: string)

  predicate IsRegistered(parties: seq<Party>, partyId: string) {
    exists i :: 0 <= i < |parties| && parties[i].id == partyId
  }

  predicate HasParty(parties: seq<Party>, partyId: string, name: string) {
    exists i :: 0 <= i < |parties| && parties[i] == Party(partyId, name)
  }

  /** `registeredParties[type]?.find(p => p.id === id)?.name`. */
  function PartyName(registered: map<string, seq<Party>>, partyType: string, partyId: string): (name: Option<string>)
    ensures name.Some? <==> partyType in registered && IsRegistered(registered[partyType], partyId)
    ensures name.Some? ==> HasParty(registered[partyType], partyId, name.value)
  {
    if partyType !in registered then None else FindName(registered[partyType], partyId)
  }

  function FindName(parties: seq<Party>, partyId: string): (name: Option<string>)
    ensures name.Some? <==> IsRegistered(parties, partyId)
    ensures name.Some? ==> HasParty(parties, partyId, name.value)
  {
    if parties == [] then None
    else if parties[0].id == partyId then Some(parties[0].name)
    else
      var rest := FindName(parties[1..], partyId);
      assert forall i :: 1 <= i < |parties| ==> parties[i] == parties[1..][i - 1];
      assert IsRegistered(parties[1..], partyId) ==> IsRegistered(parties, partyId);
      assert rest.Some? ==> HasParty(parties, partyId, rest.value);
      rest
  }

  /** What a click on the form's submit button did. */
  datatype SubmitOutcome =
    | GoldRecorded
    | PartyRequired
    | Recorded(txnType: TxnType, partyId: string, partyName: Option<string>, partyType: string)

  /** The component's state that the bank-account buttons and the add-transaction form change. */
  class TransactionForm {
    const registeredParties: map<string, seq<Party>>
    var bankAccounts: seq<BankAccount>
    var showAddTransaction: bool
    var transactionType: Option<FormKind>
    var selectedParty: string
    var selectedPartyType: string

    constructor (parties: map<string, seq<Party>>, accounts: seq<BankAccount>)
      ensures registeredParties == parties && bankAccounts == accounts
      ensures !showAddTransaction && transactionType == None && selectedParty == "" && selectedPartyType == ""
    {
      registeredParties := parties;
      bankAccounts := accounts;
      showAddTransaction := false;
      transactionType := None;
      selectedParty := "";
      selectedPartyType := "";
    }

    /** Opening the form for one kind of transaction. */
    method Open(kind: FormKind)
      modifies this
      ensures showAddTransaction && transactionType == Some(kind)
      ensures selectedParty == old(selectedParty) && selectedPartyType == old(selectedPartyType)
      ensures bankAccounts == old(bankAccounts)
    {
      transactionType := Some(kind);
      showAddTransaction := true;
    }

    /** The party selectors. */
    method SelectParty(partyType: string, partyId: string)
      modifies this
      ensures selectedPartyType == partyType && selectedParty == partyId
      ensures showAddTransaction == old(showAddTransaction) && transactionType == old(transactionType)
      ensures bankAccounts == old(bankAccounts)
    {
      selectedPartyType := partyType;
      selectedParty := partyId;
    }

    /**
     * "Add New Bank Account", with the two prompt answers (`None` when a prompt is dismissed) and
     * the clock: a new account with balance 0 and a masked number is appended only when both
     * answers are non-empty.
     */
    method AddBankAccount(accountName: Option<string>, accountNumber: Option<string>, nowMillis: nat)
      modifies this`bankAccounts
      ensures (accountName.Some? && accountName.value != "" && accountNumber.Some? && accountNumber.value != "") ==>
        bankAccounts == old(bankAccounts) + [BankAccount(NewAccountId(nowMillis), accountName.value,
          MaskAccountNumber(accountNumber.value), 0)]
      ensures !(accountName.Some? && accountName.value != "" && accountNumber.Some? && accountNumber.value != "") ==>
        bankAccounts == old(bankAccounts)
    {
      if accountName.Some? && accountName.value != "" && accountNumber.Some? && accountNumber.value != "" {
        var newAccount := BankAccount(NewAccountId(nowMillis), accountName.value, MaskAccountNumber(accountNumber.value), 0);
        bankAccounts := bankAccounts + [newAccount];
      }
    }

    /** An account's Delete button: removes the accounts with that id once the user confirms. */
    method DeleteBankAccount(id: string, confirmed: bool)
      modifies this`bankAccounts
      ensures bankAccounts == if confirmed then RemoveAccount(old(bankAccounts), id) else old(bankAccounts)
    {
      if confirmed {
        bankAccounts := RemoveAccount(bankAccounts, id);
      }
    }

    /** Cancel: close the form and clear the party selection. */
    method Cancel()
      modifies this
      ensures !showAddTransaction && selectedParty == "" && selectedPartyType == ""
      ensures transactionType == old(transactionType) && bankAccounts == old(bankAccounts)
    {
      showAddTransaction := false;
      selectedParty := "";
      selectedPartyType := "";
    }

    /**
     * The submit button. A gold transaction is recorded without a party and the form closes with
     * the selection kept; any other needs both a party and a party type, else the form stays
     * open unchanged; a recorded receipt or payment closes the form and clears the selection.
     */
    method Submit() returns (outcome: SubmitOutcome)
      modifies this
      ensures transactionType == old(transactionType) && bankAccounts == old(bankAccounts)
      ensures old(transactionType) == Some(GoldForm) ==>
        outcome == GoldRecorded && !showAddTransaction
        && selectedParty == old(selectedParty) && selectedPartyType == old(selectedPartyType)
      ensures old(transactionType) != Some(GoldForm) && (old(selectedParty) == "" || old(selectedPartyType) == "") ==>
        outcome == PartyRequired && showAddTransaction == old(showAddTransaction)
        && selectedParty == old(selectedParty) && selectedPartyType == old(selectedPartyType)
      ensures old(transactionType) != Some(GoldForm) && old(selectedParty) != "" && old(selectedPartyType) != "" ==>
        outcome == Recorded(if old(transactionType) == Some(ReceiptForm) then Receipt else Payment,
          old(selectedParty), PartyName(registeredParties, old(selectedPartyType), old(selectedParty)),
          old(selectedPartyType))
        && !showAddTransaction && selectedParty == "" && selectedPartyType == ""
    {
      if transactionType == Some(GoldForm) {
        showAddTransaction := false;
        return GoldRecorded;
      }
      if selectedParty == "" || selectedPartyType == "" {
        return PartyRequired;
      }
      var partyName := PartyName(registeredParties, selectedPartyType, selectedParty);
      var kind := if transactionType == Some(ReceiptForm) then Receipt else Payment;
      outcome := Recorded(kind, selectedParty, partyName, selectedPartyType);
      showAddTransaction := false;
      selectedParty := "";
      selectedPartyType := "";
    }
  }
}
