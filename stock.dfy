/**
 * Stock management: the searchable, type-filtered item list, the per-type tabs,
 * the summary counters, and the edit and delete handlers that replace the item list.
 */
module StockManagement {
  import opened Wrappers
  import Seqs
  import Text

  datatype ItemType = DiamondJewelry | GoldJewelry | LooseDiamond | PureGold | Silver
  datatype Status = InStock | Sold | WithKarigar | OnApproval

  /** An inventory item; prices are whole rupees and `lastUpdated` a clock reading. */
  datatype StockItem = StockItem(
    id: string,
    tagId: string,
    itemType: ItemType,
    name: string,
    goldWeight: Option<real>,
    goldKarat: Option<int>,
    diamondWeight: Option<real>,
    diamondQuality: Option<string>,
    description: string,
    purchasePrice: int,
    currentValue: int,
    status: Status,
    location: string,
    lastUpdated: int,
    qrCode: string)

  /** The type selector: "all" or one item type. */
  datatype TypeFilter = AllTypes | OnlyType(t: ItemType)

  /** The name or the tag contains the search term, ignoring case. */
  predicate MatchesSearch(item: StockItem, searchTerm: string) {
    Text.Contains(Text.Lower(item.name), Text.Lower(searchTerm))
    || Text.Contains(Text.Lower(item.tagId), Text.Lower(searchTerm))
  }

  predicate MatchesFilter(item: StockItem, filterType: TypeFilter) {
    filterType == AllTypes || item.itemType == filterType.t
  }

  /** `filteredItems`: the items matching both the search and the type selector, in list order. */
  function FilteredItems(items: seq<StockItem>, searchTerm: string, filterType: TypeFilter): (r: seq<StockItem>)
    ensures Seqs.IsSubsequence(r, items)
    ensures forall x :: x in r <==> x in items && MatchesSearch(x, searchTerm) && MatchesFilter(x, filterType)
  {
    var keep := (x: StockItem) => MatchesSearch(x, searchTerm) && MatchesFilter(x, filterType);
    var r := Seqs.Filter(items, keep);
    forall x ensures x in r <==> x in items && keep(x) {
      Seqs.FilterMembership(items, keep, x);
    }
    r
  }

  /** The list on one type's tab: that type, and the search unless it is empty. */
  function TabItems(items: seq<StockItem>, t: ItemType, searchTerm: string): (r: seq<StockItem>)
    ensures Seqs.IsSubsequence(r, items)
    ensures forall x :: x in r <==> x in items && x.itemType == t && (searchTerm == "" || MatchesSearch(x, searchTerm))
  {
    var keep := (x: StockItem) => x.itemType == t && (searchTerm == "" || MatchesSearch(x, searchTerm));
    forall x ensures x in Seqs.Filter(items, keep) <==> x in items && keep(x) {
      Seqs.FilterMembership(items, keep, x);
    }
    Seqs.Filter(items, keep)
  }

  /** The empty search term occurs in every name, so the tab's extra empty-search test changes nothing. */
  lemma EmptySearchMatchesAll(item: StockItem)
    ensures MatchesSearch(item, "")
  {
    assert Text.OccursAt(Text.Lower(item.name), "", 0);
  }

  /** A type tab shows the same items as the overview list filtered to that type. */
  lemma TabIsFilteredList(items: seq<StockItem>, t: ItemType, searchTerm: string)
    ensures TabItems(items, t, searchTerm) == FilteredItems(items, searchTerm, OnlyType(t))
  {
    if searchTerm == "" {
      forall i | 0 <= i < |items| {
        EmptySearchMatchesAll(items[i]);
      }
    }
    Seqs.FilterExt(items,
      (x: StockItem) => x.itemType == t && (searchTerm == "" || MatchesSearch(x, searchTerm)),
      (x: StockItem) => MatchesSearch(x, searchTerm) && MatchesFilter(x, OnlyType(t)));
  }

  /** With an empty search a tab shows every item of its type. */
  lemma TabWithEmptySearch(items: seq<StockItem>, t: ItemType)
    ensures forall x :: x in TabItems(items, t, "") <==> x in items && x.itemType == t
  {
    TabIsFilteredList(items, t, "");
    forall x | x in items {
      EmptySearchMatchesAll(x);
    }
  }

  function CurrentValue(item: StockItem): int { item.currentValue }

  predicate IsLowStock(item: StockItem) { item.status == InStock && item.currentValue < 50000 }
  predicate IsWithKarigar(item: StockItem) { item.status == WithKarigar }
  predicate IsOnApproval(item: StockItem) { item.status == OnApproval }

  datatype StockSummary = StockSummary(totalItems: nat, totalValue: int, lowStock: nat, withKarigar: nat, onApproval: nat)

  predicate IsLowOrWithKarigar(item: StockItem) { IsLowStock(item) || IsWithKarigar(item) }
  predicate IsCountedStatus(item: StockItem) { IsLowOrWithKarigar(item) || IsOnApproval(item) }

  /** No item is counted by two of the status counters. */
  lemma StatusCountsBound(items: seq<StockItem>)
    ensures Seqs.Count(items, IsLowStock) + Seqs.Count(items, IsWithKarigar) + Seqs.Count(items, IsOnApproval) <= |items|
  {
    Seqs.CountDisjoint(items, IsLowStock, IsWithKarigar, IsLowOrWithKarigar);
    Seqs.CountDisjoint(items, IsLowOrWithKarigar, IsOnApproval, IsCountedStatus);
  }

  lemma TotalValueNonNegative(items: seq<StockItem>)
    ensures (forall i :: 0 <= i < |items| ==> items[i].currentValue >= 0) ==> Seqs.Sum(items, CurrentValue) >= 0
  {
    if forall i :: 0 <= i < |items| ==> items[i].currentValue >= 0 {
      Seqs.SumNonNegative(items, CurrentValue);
    }
  }

  /**
   * `dynamicStockSummary`. The three status counters count items of different statuses,
   * so together they never exceed the number of items.
   */
  function DynamicStockSummary(items: seq<StockItem>): (s: StockSummary)
    ensures s.totalItems == |items|
    ensures s.lowStock + s.withKarigar + s.onApproval <= s.totalItems
    ensures s.lowStock == 0 <==> forall i :: 0 <= i < |items| ==> !IsLowStock(items[i])
    ensures (forall i :: 0 <= i < |items| ==> items[i].currentValue >= 0) ==> s.totalValue >= 0
  {
    StatusCountsBound(items);
    TotalValueNonNegative(items);
    StockSummary(|items|, Seqs.Sum(items, CurrentValue), Seqs.Count(items, IsLowStock),
      Seqs.Count(items, IsWithKarigar), Seqs.Count(items, IsOnApproval))
  }

  /** The summary of an empty list: nothing counted, nothing valued. */
  lemma SummaryEmpty()
    ensures DynamicStockSummary([]) == StockSummary(0, 0, 0, 0, 0)
  {
  }

  /**
   * The summary of one item: it counts once, adds its current value, and adds one to each
   * status counter whose condition it meets.
   */
  lemma SummarySingleton(x: StockItem)
    ensures DynamicStockSummary([x]) == StockSummary(1, x.currentValue,
      if IsLowStock(x) then 1 else 0, if IsWithKarigar(x) then 1 else 0, if IsOnApproval(x) then 1 else 0)
  {
    assert [x][1..] == [];
    assert Seqs.Sum([x], CurrentValue) == x.currentValue + Seqs.Sum([], CurrentValue);
    assert Seqs.Filter([x], IsLowStock) == if IsLowStock(x) then [x] else [];
    assert Seqs.Filter([x], IsWithKarigar) == if IsWithKarigar(x) then [x] else [];
    assert Seqs.Filter([x], IsOnApproval) == if IsOnApproval(x) then [x] else [];
  }

  /**
   * The summary is additive: the summary of two lists put together is the field-wise sum of
   * their summaries. With SummaryEmpty and SummarySingleton this determines every field.
   */
  lemma SummaryConcat(a: seq<StockItem>, b: seq<StockItem>)
    ensures var s, sa, sb := DynamicStockSummary(a + b), DynamicStockSummary(a), DynamicStockSummary(b);
      s.totalItems == sa.totalItems + sb.totalItems
      && s.totalValue == sa.totalValue + sb.totalValue
      && s.lowStock == sa.lowStock + sb.lowStock
      && s.withKarigar == sa.withKarigar + sb.withKarigar
      && s.onApproval == sa.onApproval + sb.onApproval
  {
    Seqs.SumConcat(a, b, CurrentValue);
    Seqs.CountConcat(a, b, IsLowStock);
    Seqs.CountConcat(a, b, IsWithKarigar);
    Seqs.CountConcat(a, b, IsOnApproval);
  }

  /** The edit form's draft: every editable field of an item. */
  datatype Draft = Draft(
    name: string,
    description: string,
    tagId: string,
    itemType: ItemType,
    goldWeight: Option<real>,
    goldKarat: Option<int>,
    diamondWeight: Option<real>,
    diamondQuality: Option<string>,
    purchasePrice: int,
    currentValue: int,
    status: Status,
    location: string)

  /** `{...item, <draft fields>, lastUpdated: new Date()}`. */
  function ApplyDraft(item: StockItem, d: Draft, now: int): (r: StockItem)
    ensures r.id == item.id && r.qrCode == item.qrCode && r.lastUpdated == now
  {
    item.(name := d.name, description := d.description, tagId := d.tagId, itemType := d.itemType,
      goldWeight := d.goldWeight, goldKarat := d.goldKarat, diamondWeight := d.diamondWeight,
      diamondQuality := d.diamondQuality, purchasePrice := d.purchasePrice, currentValue := d.currentValue,
      status := d.status, location := d.location, lastUpdated := now)
  }

  /** The draft the edit modal starts from: saving it unchanged at the item's own time gives the item back. */
  function DraftOf(item: StockItem): (d: Draft)
    ensures ApplyDraft(item, d, item.lastUpdated) == item
  {
    Draft(item.name, item.description, item.tagId, item.itemType, item.goldWeight, item.goldKarat,
      item.diamondWeight, item.diamondQuality, item.purchasePrice, item.currentValue, item.status, item.location)
  }

  /** Every edited field is saved: the draft read back from the saved item is the draft. */
  lemma DraftReadBack(item: StockItem, d: Draft, now: int)
    ensures DraftOf(ApplyDraft(item, d, now)) == d
  {
  }

  /** Saving twice keeps only the second draft. */
  lemma LastSaveWins(item: StockItem, d1: Draft, d2: Draft, t1: int, t2: int)
    ensures ApplyDraft(ApplyDraft(item, d1, t1), d2, t2) == ApplyDraft(item, d2, t2)
  {
  }

  /** Saving a just-opened draft gives back the item with only its timestamp renewed. */
  lemma UneditedSave(item: StockItem, now: int)
    ensures ApplyDraft(item, DraftOf(item), now) == item.(lastUpdated := now)
  {
  }

  /**
   * The `map` in `handleSaveEdit`: every item carrying the edited id gets the draft; the others
   * stay as they were. Ids and QR codes are never changed, and the list keeps its length.
   */
  function UpdateById(items: seq<StockItem>, id: string, d: Draft, now: int): (r: seq<StockItem>)
    ensures |r| == |items|
    ensures forall i :: 0 <= i < |items| ==> r[i].id == items[i].id && r[i].qrCode == items[i].qrCode
    ensures forall i :: 0 <= i < |items| && items[i].id != id ==> r[i] == items[i]
    ensures forall i :: 0 <= i < |items| && items[i].id == id ==> r[i] == ApplyDraft(items[i], d, now)
  {
    if items == [] then []
    else
      [if items[0].id == id then ApplyDraft(items[0], d, now) else items[0]] + UpdateById(items[1..], id, d, now)
  }

  /** Ids are unique. */
  predicate UniqueIds(items: seq<StockItem>) {
    forall i, j :: 0 <= i < j < |items| ==> items[i].id != items[j].id
  }

  /** With unique ids, an edit changes at most the one item carrying the edited id, and ids stay unique. */
  lemma UpdateChangesOneItem(items: seq<StockItem>, id: string, d: Draft, now: int, i: int, j: int)
    requires UniqueIds(items)
    requires 0 <= i < |items| && 0 <= j < |items| && i != j
    ensures UniqueIds(UpdateById(items, id, d, now))
    ensures UpdateById(items, id, d, now)[i] == items[i] || UpdateById(items, id, d, now)[j] == items[j]
  {
  }

  predicate HasId(item: StockItem, id: string) { item.id == id }

  /** The `filter` in `handleDeleteItem`: the items whose id differs, in order. */
  function RemoveById(items: seq<StockItem>, id: string): (r: seq<StockItem>)
    ensures Seqs.IsSubsequence(r, items)
    ensures forall x :: x in r <==> x in items && x.id != id
    ensures |r| == |items| - Seqs.Count(items, (x: StockItem) => HasId(x, id))
  {
    var keep := (x: StockItem) => x.id != id;
    var has := (x: StockItem) => HasId(x, id);
    var r := Seqs.Filter(items, keep);
    forall x ensures x in r <==> x in items && keep(x) {
      Seqs.FilterMembership(items, keep, x);
    }
    Seqs.FilterPartition(items, has, keep);
    r
  }

  /** Deleting an id that is not in the list changes nothing. */
  lemma RemoveAbsentId(items: seq<StockItem>, id: string)
    requires forall i :: 0 <= i < |items| ==> items[i].id != id
    ensures RemoveById(items, id) == items
  {
    Seqs.FilterAll(items, (x: StockItem) => x.id != id);
  }

  /**
   * The component's state: the item list and the edit modal. The thirteen draft state hooks are
   * held together as one draft; `None` stands for their initial empty values, before any item
   * was opened.
   */
  class StockManager {
    var stockItems: seq<StockItem>
    var showEditItemModal: bool
    var editingItem: Option<StockItem>
    var draft: Option<Draft>

    /** An item is only ever being edited after its fields were copied into the draft. */
    predicate Valid()
      reads this
    {
      editingItem.Some? ==> draft.Some?
    }

    constructor (initialStockItems: seq<StockItem>)
      ensures Valid()
      ensures stockItems == initialStockItems && editingItem == None && draft == None && !showEditItemModal
    {
      stockItems := initialStockItems;
      showEditItemModal := false;
      editingItem := None;
      draft := None;
    }

    /** `handleOpenEditModal`: remember the item, copy its fields into the draft and show the modal. */
    method OpenEditModal(item: StockItem)
      modifies this
      ensures Valid()
      ensures editingItem == Some(item) && draft == Some(DraftOf(item)) && showEditItemModal
      ensures stockItems == old(stockItems)
    {
      editingItem := Some(item);
      draft := Some(DraftOf(item));
      showEditItemModal := true;
    }

    /**
     * `handleSaveEdit` at clock reading `now`: without an item being edited nothing happens;
     * otherwise every item with the edited id takes the draft, and the modal closes. The draft
     * itself is left as it is.
     */
    method SaveEdit(now: int)
      requires Valid()
      modifies this
      ensures Valid()
      ensures old(editingItem).None? ==>
        stockItems == old(stockItems) && showEditItemModal == old(showEditItemModal) && editingItem == None
      ensures old(editingItem).Some? ==>
        stockItems == UpdateById(old(stockItems), old(editingItem).value.id, old(draft).value, now)
        && !showEditItemModal && editingItem == None
      ensures draft == old(draft)
    {
      if editingItem.None? {
        return;
      }
      stockItems := UpdateById(stockItems, editingItem.value.id, draft.value, now);
      showEditItemModal := false;
      editingItem := None;
    }

    /** `handleDeleteItem`: remove every item with that id, only if the user confirms. */
    method DeleteItem(itemId: string, confirmed: bool)
      modifies this`stockItems
      ensures stockItems == if confirmed then RemoveById(old(stockItems), itemId) else old(stockItems)
    {
      if confirmed {
        stockItems := RemoveById(stockItems, itemId);
      }
    }
  }
}
