/**
 * Karigar management: the karigar search, the per-karigar active-order and order-history
 * tabs, and the schedule dialog's guard and reset.
 */
module KarigarManagement {
  import opened Wrappers
  import Seqs
  import Text

  datatype Karigar = Karigar(id: string, name: string, phone: string, specialization: seq<string>, status: string)

  /** An order, as far as the screen's filters look at it; dates are day numbers. */
  datatype KarigarOrder = KarigarOrder(id: string, karigarId: string, description: string, status: string,
    expectedDelivery: Option<int>, notes: string)

  predicate SpecMatches(spec: string, searchTerm: string) {
    Text.Contains(Text.Lower(spec), Text.Lower(searchTerm))
  }

  /** The name, the id or some specialisation contains the search term, ignoring case. */
  predicate MatchesSearch(k: Karigar, searchTerm: string) {
    || Text.Contains(Text.Lower(k.name), Text.Lower(searchTerm))
    || Text.Contains(Text.Lower(k.id), Text.Lower(searchTerm))
    || exists i :: 0 <= i < |k.specialization| && SpecMatches(k.specialization[i], searchTerm)
  }

  /** `filteredKarigars`. */
  function FilteredKarigars(karigars: seq<Karigar>, searchTerm: string): (r: seq<Karigar>)
    ensures Seqs.IsSubsequence(r, karigars)
    ensures forall k :: k in r <==> k in karigars && MatchesSearch(k, searchTerm)
  {
    var keep := (k: Karigar) => MatchesSearch(k, searchTerm);
    var r := Seqs.Filter(karigars, keep);
    forall k ensures k in r <==> k in karigars && keep(k) {
      Seqs.FilterMembership(karigars, keep, k);
    }
    r
  }

  /** The search term "" keeps every karigar. */
  lemma EmptySearchKeepsAll(karigars: seq<Karigar>)
    ensures FilteredKarigars(karigars, "") == karigars
  {
    forall i | 0 <= i < |karigars| ensures MatchesSearch(karigars[i], "") {
      assert Text.OccursAt(Text.Lower(karigars[i].name), Text.Lower(""), 0);
    }
    Seqs.FilterAll(karigars, (k: Karigar) => MatchesSearch(k, ""));
  }

  /** All orders of one karigar. */
  function OrdersOf(orders: seq<KarigarOrder>, karigarId: string): (r: seq<KarigarOrder>)
    ensures forall o :: o in r <==> o in orders && o.karigarId == karigarId
  {
    var keep := (o: KarigarOrder) => o.karigarId == karigarId;
    var r := Seqs.Filter(orders, keep);
    forall o ensures o in r <==> o in orders && keep(o) {
      Seqs.FilterMembership(orders, keep, o);
    }
    r
  }

  /** The "Active Orders" tab: that karigar's orders not yet completed, in order. */
  function ActiveOrders(orders: seq<KarigarOrder>, karigarId: string): (r: seq<KarigarOrder>)
    ensures Seqs.IsSubsequence(r, orders)
    ensures forall o :: o in r <==> o in orders && o.karigarId == karigarId && o.status != "completed"
  {
    var keep := (o: KarigarOrder) => o.karigarId == karigarId && o.status != "completed";
    var r := Seqs.Filter(orders, keep);
    forall o ensures o in r <==> o in orders && keep(o) {
      Seqs.FilterMembership(orders, keep, o);
    }
    r
  }

  /** The "Order History" tab: that karigar's completed orders, in order. */
  function OrderHistory(orders: seq<KarigarOrder>, karigarId: string): (r: seq<KarigarOrder>)
    ensures Seqs.IsSubsequence(r, orders)
    ensures forall o :: o in r <==> o in orders && o.karigarId == karigarId && o.status == "completed"
  {
    var keep := (o: KarigarOrder) => o.karigarId == karigarId && o.status == "completed";
    var r := Seqs.Filter(orders, keep);
    forall o ensures o in r <==> o in orders && keep(o) {
      Seqs.FilterMembership(orders, keep, o);
    }
    r
  }

  /** The two tabs split the karigar's orders: every order shows in exactly one, as often as it occurs. */
  lemma {:induction false} TabsPartitionOrders(orders: seq<KarigarOrder>, karigarId: string)
    ensures multiset(ActiveOrders(orders, karigarId)) + multiset(OrderHistory(orders, karigarId))
      == multiset(OrdersOf(orders, karigarId))
    ensures |ActiveOrders(orders, karigarId)| + |OrderHistory(orders, karigarId)| == |OrdersOf(orders, karigarId)|
  {
    var ofK := (o: KarigarOrder) => o.karigarId == karigarId;
    var active := (o: KarigarOrder) => o.karigarId == karigarId && o.status != "completed";
    var done := (o: KarigarOrder) => o.karigarId == karigarId && o.status == "completed";
    var a, h, all := ActiveOrders(orders, karigarId), OrderHistory(orders, karigarId), OrdersOf(orders, karigarId);
    assert a == Seqs.Filter(orders, active);
    assert h == Seqs.Filter(orders, done);
    assert all == Seqs.Filter(orders, ofK);
    forall x ensures (multiset(a) + multiset(h))[x] == multiset(all)[x] {
      Seqs.FilterMultiplicity(orders, active, x);
      Seqs.FilterMultiplicity(orders, done, x);
      Seqs.FilterMultiplicity(orders, ofK, x);
    }
    assert multiset(a) + multiset(h) == multiset(all);
    calc {
      |a| + |h|;
      |multiset(a)| + |multiset(h)|;
      |multiset(a) + multiset(h)|;
      |multiset(all)|;
      |all|;
    }
  }

  /** The order update the schedule dialog sends. */
  datatype OrderUpdate = OrderUpdate(orderId: string, expectedDelivery: int, notes: string)

  /** The schedule dialog's state. */
  class ScheduleDialog {
    var isScheduleModalOpen: bool
    var selectedDate: Option<int>
    var scheduleNotes: string
    var selectedOrderId: Option<string>

    constructor ()
      ensures !isScheduleModalOpen && selectedDate.None? && scheduleNotes == "" && selectedOrderId.None?
    {
      isScheduleModalOpen, selectedDate, scheduleNotes, selectedOrderId := false, None, "", None;
    }

    /** `openScheduleModal`. */
    method OpenScheduleModal(orderId: string)
      modifies this
      ensures selectedOrderId == Some(orderId) && isScheduleModalOpen
      ensures selectedDate == old(selectedDate) && scheduleNotes == old(scheduleNotes)
    {
      selectedOrderId := Some(orderId);
      isScheduleModalOpen := true;
    }

    method PickDate(day: Option<int>)
      modifies this
      ensures selectedDate == day
      ensures isScheduleModalOpen == old(isScheduleModalOpen) && scheduleNotes == old(scheduleNotes)
      ensures selectedOrderId == old(selectedOrderId)
    {
      selectedDate := day;
    }

    method SetNotes(notes: string)
      modifies this
      ensures scheduleNotes == notes
      ensures isScheduleModalOpen == old(isScheduleModalOpen) && selectedDate == old(selectedDate)
      ensures selectedOrderId == old(selectedOrderId)
    {
      scheduleNotes := notes;
    }

    /**
     * `handleScheduleOrder`: without a (non-empty) order id and a date nothing is sent and
     * nothing changes; otherwise the update is sent, and when it succeeds (`updateOk`) the
     * dialog closes and its fields are cleared. A failed update leaves the dialog as it was.
     */
    method ScheduleOrder(updateOk: bool) returns (sent: Option<OrderUpdate>)
      modifies this
      ensures sent.Some? <==> old(selectedOrderId).Some? && old(selectedOrderId).value != "" && old(selectedDate).Some?
      ensures sent.Some? ==> sent.value == OrderUpdate(old(selectedOrderId).value, old(selectedDate).value, old(scheduleNotes))
      ensures sent.Some? && updateOk ==>
        !isScheduleModalOpen && selectedDate.None? && scheduleNotes == "" && selectedOrderId.None?
      ensures sent.None? || !updateOk ==>
        isScheduleModalOpen == old(isScheduleModalOpen) && selectedDate == old(selectedDate)
        && scheduleNotes == old(scheduleNotes) && selectedOrderId == old(selectedOrderId)
    {
      if selectedOrderId.None? || selectedOrderId.value == "" || selectedDate.None? {
        return None;
      }
      sent := Some(OrderUpdate(selectedOrderId.value, selectedDate.value, scheduleNotes));
      if updateOk {
        isScheduleModalOpen := false;
        selectedDate := None;
        scheduleNotes := "";
        selectedOrderId := None;
      }
    }
  }
}
