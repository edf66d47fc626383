/**
 * The karigar (artisan) material ledger: which entries are shown for a selected karigar,
 * how they are totalled into a gold balance, a diamond balance and the labour earned,
 * the issue/receive columns, the status labels and the paid/pending labour split.
 */
module KarigarLedger {
  import opened Wrappers
  import Seqs
  import Text

  datatype EntryType = Issue | Receive
  datatype Category = Gold | Diamond | Labour | Other

  /** A ledger line; the optional fields are absent (`undefined`) on lines that do not carry them. */
  datatype LedgerEntry = LedgerEntry(
    id: string,
    entryType: EntryType,
    category: Category,
    description: string,
    itemName: Option<string>,
    goldWeight: Option<real>,
    goldKarat: Option<string>,
    diamondWeight: Option<real>,
    diamondQuality: Option<string>,
    labourCharges: Option<real>,
    amount: real,
    balance: real,
    reference: Option<string>)

  datatype Totals = Totals(goldBalance: real, diamondBalance: real, totalLabour: real)

  /** `entry.reference?.includes("KO") || entry.reference?.includes("GI")`; no reference never matches. */
  predicate ReferenceMatches(e: LedgerEntry) {
    e.reference.Some? && (Text.Contains(e.reference.value, "KO") || Text.Contains(e.reference.value, "GI"))
  }

  /**
   * The entries shown: none while no karigar is selected (the empty selection is falsy),
   * otherwise every entry whose reference mentions an order or a gold issue, in order.
   * The selected karigar's id plays no further part.
   */
  function FilteredEntries(selectedKarigar: string, entries: seq<LedgerEntry>): (r: seq<LedgerEntry>)
    ensures selectedKarigar == "" ==> r == []
    ensures selectedKarigar != "" ==> Seqs.IsSubsequence(r, entries)
    ensures selectedKarigar != "" ==> forall i :: 0 <= i < |entries| ==>
      (entries[i] in r <==> ReferenceMatches(entries[i]))
  {
    if selectedKarigar != "" then Seqs.Filter(entries, ReferenceMatches) else []
  }

  // Missing numbers count as 0 (`e.goldWeight || 0`).
  function GoldWeight(e: LedgerEntry): real { e.goldWeight.GetOr(0.0) }
  function DiamondWeight(e: LedgerEntry): real { e.diamondWeight.GetOr(0.0) }
  function LabourCharges(e: LedgerEntry): real { e.labourCharges.GetOr(0.0) }

  predicate IsGoldIssue(e: LedgerEntry) { e.entryType == Issue && e.category == Gold }
  predicate IsGoldReceive(e: LedgerEntry) { e.entryType == Receive && e.category == Gold }
  predicate IsDiamondIssue(e: LedgerEntry) { e.entryType == Issue && e.category == Diamond }
  predicate IsDiamondReceive(e: LedgerEntry) { e.entryType == Receive && e.category == Diamond }
  predicate IsLabourReceive(e: LedgerEntry) { e.entryType == Receive && e.category == Labour }

  /** What one entry adds to the gold balance: its weight if issued, minus its weight if received. */
  function GoldDelta(e: LedgerEntry): real {
    if e.category != Gold then 0.0 else if e.entryType == Issue then GoldWeight(e) else -GoldWeight(e)
  }

  function DiamondDelta(e: LedgerEntry): real {
    if e.category != Diamond then 0.0 else if e.entryType == Issue then DiamondWeight(e) else -DiamondWeight(e)
  }

  /** What one entry adds to the labour total: only received labour lines count. */
  function LabourDelta(e: LedgerEntry): real {
    if IsLabourReceive(e) then LabourCharges(e) else 0.0
  }

  function GoldIssued(e: LedgerEntry): real { if IsGoldIssue(e) then GoldWeight(e) else 0.0 }
  function GoldReceived(e: LedgerEntry): real { if IsGoldReceive(e) then GoldWeight(e) else 0.0 }
  function DiamondIssued(e: LedgerEntry): real { if IsDiamondIssue(e) then DiamondWeight(e) else 0.0 }
  function DiamondReceived(e: LedgerEntry): real { if IsDiamondReceive(e) then DiamondWeight(e) else 0.0 }

  lemma GoldTotal(entries: seq<LedgerEntry>)
    ensures Seqs.SumReal(Seqs.Filter(entries, IsGoldIssue), GoldWeight)
      - Seqs.SumReal(Seqs.Filter(entries, IsGoldReceive), GoldWeight) == Seqs.SumReal(entries, GoldDelta)
  {
    Seqs.SumRealFilter(entries, IsGoldIssue, GoldWeight, GoldIssued);
    Seqs.SumRealFilter(entries, IsGoldReceive, GoldWeight, GoldReceived);
    Seqs.SumRealSub(entries, GoldIssued, GoldReceived, GoldDelta);
  }

  lemma DiamondTotal(entries: seq<LedgerEntry>)
    ensures Seqs.SumReal(Seqs.Filter(entries, IsDiamondIssue), DiamondWeight)
      - Seqs.SumReal(Seqs.Filter(entries, IsDiamondReceive), DiamondWeight) == Seqs.SumReal(entries, DiamondDelta)
  {
    Seqs.SumRealFilter(entries, IsDiamondIssue, DiamondWeight, DiamondIssued);
    Seqs.SumRealFilter(entries, IsDiamondReceive, DiamondWeight, DiamondReceived);
    Seqs.SumRealSub(entries, DiamondIssued, DiamondReceived, DiamondDelta);
  }

  lemma LabourTotal(entries: seq<LedgerEntry>)
    ensures Seqs.SumReal(Seqs.Filter(entries, IsLabourReceive), LabourCharges) == Seqs.SumReal(entries, LabourDelta)
  {
    Seqs.SumRealFilter(entries, IsLabourReceive, LabourCharges, LabourDelta);
  }

  /**
   * `calculateTotals`: five filter/reduce chains. Its contract states the totals entry by entry:
   * every gold issue adds its weight, every gold receive subtracts it, likewise for diamonds, and
   * only received labour adds to the labour total; every other entry contributes nothing.
   */
  function CalculateTotals(entries: seq<LedgerEntry>): (t: Totals)
    ensures t.goldBalance == Seqs.SumReal(entries, GoldDelta)
    ensures t.diamondBalance == Seqs.SumReal(entries, DiamondDelta)
    ensures t.totalLabour == Seqs.SumReal(entries, LabourDelta)
  {
    GoldTotal(entries);
    DiamondTotal(entries);
    LabourTotal(entries);
    Totals(
      Seqs.SumReal(Seqs.Filter(entries, IsGoldIssue), GoldWeight)
        - Seqs.SumReal(Seqs.Filter(entries, IsGoldReceive), GoldWeight),
      Seqs.SumReal(Seqs.Filter(entries, IsDiamondIssue), DiamondWeight)
        - Seqs.SumReal(Seqs.Filter(entries, IsDiamondReceive), DiamondWeight),
      Seqs.SumReal(Seqs.Filter(entries, IsLabourReceive), LabourCharges))
  }

  /** With no karigar selected there is nothing to total. */
  lemma TotalsWithoutSelection(entries: seq<LedgerEntry>)
    ensures CalculateTotals(FilteredEntries("", entries)) == Totals(0.0, 0.0, 0.0)
  {
  }

  /** Totals of two ledgers put together are the sums of their totals. */
  lemma TotalsConcat(a: seq<LedgerEntry>, b: seq<LedgerEntry>)
    ensures CalculateTotals(a + b).goldBalance == CalculateTotals(a).goldBalance + CalculateTotals(b).goldBalance
    ensures CalculateTotals(a + b).diamondBalance == CalculateTotals(a).diamondBalance + CalculateTotals(b).diamondBalance
    ensures CalculateTotals(a + b).totalLabour == CalculateTotals(a).totalLabour + CalculateTotals(b).totalLabour
  {
    Seqs.SumRealConcat(a, b, GoldDelta);
    Seqs.SumRealConcat(a, b, DiamondDelta);
    Seqs.SumRealConcat(a, b, LabourDelta);
  }

  /** The order of the entries does not matter to the totals. */
  lemma TotalsPermutation(a: seq<LedgerEntry>, b: seq<LedgerEntry>)
    requires multiset(a) == multiset(b)
    ensures CalculateTotals(a) == CalculateTotals(b)
  {
    Seqs.SumRealPermutation(a, b, GoldDelta);
    Seqs.SumRealPermutation(a, b, DiamondDelta);
    Seqs.SumRealPermutation(a, b, LabourDelta);
  }

  /** Entries that are neither gold, diamond nor received labour leave the totals as they are. */
  lemma TotalsIgnoreOthers(a: seq<LedgerEntry>, e: LedgerEntry)
    requires e.category == Other || (e.category == Labour && e.entryType == Issue)
    ensures CalculateTotals(a + [e]) == CalculateTotals(a)
  {
    TotalsConcat(a, [e]);
  }

  predicate IsIssue(e: LedgerEntry) { e.entryType == Issue }
  predicate IsReceive(e: LedgerEntry) { e.entryType == Receive }

  /** The "Issues" column and the "Receives" column split the shown entries between them. */
  lemma IssueReceivePartition(shown: seq<LedgerEntry>)
    ensures |Seqs.Filter(shown, IsIssue)| + |Seqs.Filter(shown, IsReceive)| == |shown|
    ensures multiset(Seqs.Filter(shown, IsIssue)) + multiset(Seqs.Filter(shown, IsReceive)) == multiset(shown)
  {
    Seqs.FilterPartition(shown, IsIssue, IsReceive);
  }

  /** The label under a balance: material is with the karigar exactly when the balance is positive. */
  function StatusLabel(balance: real): (text: string)
    ensures text == "With Karigar" <==> balance > 0.0
    ensures text == "Returned" <==> balance <= 0.0
  {
    if balance > 0.0 then "With Karigar" else "Returned"
  }

  /** The labour summary shows 80% of the total as paid and 20% as pending. */
  function LabourSplit(totalLabour: real): (r: (real, real))
    ensures r.0 + r.1 == totalLabour
    ensures totalLabour >= 0.0 ==> 0.0 <= r.1 <= r.0
  {
    (totalLabour * 0.8, totalLabour * 0.2)
  }
}
