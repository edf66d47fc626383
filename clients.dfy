/**
 * Client management: the client search, the reminder list's "Mark as Done" and delete
 * buttons, the balance line and the contact lookup.
 */
module ClientManagement {
  import opened Wrappers
  import Seqs
  import Text

  datatype VipStatus = Regular | Premium | Vip

  /** A client; dates are day numbers. */
  datatype Client = Client(
    id: string,
    name: string,
    phone: string,
    email: string,
    address: string,
    panNo: string,
    birthday: int,
    anniversary: Option<int>,
    ringSize: Option<string>,
    bangleSize: Option<string>,
    braceletSize: Option<string>,
    totalPurchases: int,
    lifetimePurchases: int,
    currentBalance: int,
    lastPurchase: int,
    preferredCategory: string,
    vipStatus: VipStatus)

  datatype ReminderType = FollowUp | PaymentDue | Greeting
  datatype ReminderStatus = ReminderPending | ReminderCompleted | ReminderOverdue

  datatype Reminder = Reminder(id: string, client: string, description: string, reminderType: ReminderType,
    dueDate: int, status: ReminderStatus)

  /**
   * The name or the email contains the search term ignoring case, or the phone number
   * contains it exactly as typed.
   */
  predicate MatchesSearch(c: Client, searchTerm: string) {
    Text.Contains(Text.Lower(c.name), Text.Lower(searchTerm))
    || Text.Contains(c.phone, searchTerm)
    || Text.Contains(Text.Lower(c.email), Text.Lower(searchTerm))
  }

  /** `filteredClients`. */
  function FilteredClients(clients: seq<Client>, searchTerm: string): (r: seq<Client>)
    ensures Seqs.IsSubsequence(r, clients)
    ensures forall c :: c in r <==> c in clients && MatchesSearch(c, searchTerm)
  {
    var keep := (c: Client) => MatchesSearch(c, searchTerm);
    var r := Seqs.Filter(clients, keep);
    forall c ensures c in r <==> c in clients && keep(c) {
      Seqs.FilterMembership(clients, keep, c);
    }
    r
  }

  /** Phone matching is not case-insensitive: a phone note "EXT" is not found by "ext". */
  lemma PhoneMatchIsCaseSensitive()
    ensures !Text.Contains("EXT", "ext")
    ensures Text.Contains(Text.Lower("EXT"), Text.Lower("ext"))
  {
    assert !Text.OccursAt("EXT", "ext", 0) by {
      assert "EXT"[0..3][0] == 'E';
    }
    assert Text.Lower("EXT") == "ext";
    assert Text.Lower("ext") == "ext";
    assert Text.OccursAt("ext", "ext", 0);
  }

  /** The reminder after "Mark as Done": completed, all else as it was. */
  function Completed(r: Reminder): Reminder { r.(status := ReminderCompleted) }

  /** The `map` in `handleMarkAsDone`: the reminders with that id become completed. */
  function MarkDone(reminders: seq<Reminder>, id: string): (r: seq<Reminder>)
    ensures |r| == |reminders|
    ensures forall i :: 0 <= i < |r| ==> r[i] == if reminders[i].id == id then Completed(reminders[i]) else reminders[i]
  {
    if reminders == [] then []
    else [if reminders[0].id == id then Completed(reminders[0]) else reminders[0]] + MarkDone(reminders[1..], id)
  }

  /** Marking a reminder done twice is marking it once. */
  lemma MarkDoneIdempotent(reminders: seq<Reminder>, id: string)
    ensures MarkDone(MarkDone(reminders, id), id) == MarkDone(reminders, id)
  {
  }

  /** Only the status of the matching reminders changes: ids, clients, texts, types and due dates stay. */
  lemma MarkDoneChangesOnlyStatus(reminders: seq<Reminder>, id: string, i: int)
    requires 0 <= i < |reminders|
    ensures MarkDone(reminders, id)[i].(status := reminders[i].status) == reminders[i]
    ensures reminders[i].id == id ==> MarkDone(reminders, id)[i].status == ReminderCompleted
  {
  }

  /** Marking one reminder never affects whether another is done. */
  lemma MarkDoneCommutes(reminders: seq<Reminder>, a: string, b: string)
    ensures MarkDone(MarkDone(reminders, a), b) == MarkDone(MarkDone(reminders, b), a)
  {
  }

  /** The `filter` of a reminder's delete button: every reminder with another id, in order. */
  function RemoveReminder(reminders: seq<Reminder>, id: string): (r: seq<Reminder>)
    ensures Seqs.IsSubsequence(r, reminders)
    ensures forall x :: x in r <==> x in reminders && x.id != id
  {
    var keep := (x: Reminder) => x.id != id;
    var r := Seqs.Filter(reminders, keep);
    forall x ensures x in r <==> x in reminders && keep(x) {
      Seqs.FilterMembership(reminders, keep, x);
    }
    r
  }

  /** "Mark as Done" is disabled on a completed reminder. */
  function MarkDoneEnabled(r: Reminder): (enabled: bool)
    ensures enabled <==> r.status != ReminderCompleted
  {
    r.status != ReminderCompleted
  }

  /** The reminder list and its buttons. */
  class ReminderList {
    var reminders: seq<Reminder>

    constructor (initial: seq<Reminder>)
      ensures reminders == initial
    {
      reminders := initial;
    }

    /** `handleMarkAsDone`. */
    method MarkAsDone(id: string)
      modifies this
      ensures reminders == MarkDone(old(reminders), id)
    {
      reminders := MarkDone(reminders, id);
    }

    /** The delete button, with the user's answer to the confirmation. */
    method DeleteReminder(id: string, confirmed: bool)
      modifies this
      ensures reminders == if confirmed then RemoveReminder(old(reminders), id) else old(reminders)
    {
      if confirmed {
        reminders := RemoveReminder(reminders, id);
      }
    }
  }

  datatype BalanceLine = BalanceLine(amount: nat, note: string)

  /**
   * The balance line under a client: absent for a zero balance, otherwise the magnitude,
   * marked as credit when positive and as due when negative.
   */
  function BalanceDisplay(currentBalance: int): (line: Option<BalanceLine>)
    ensures line.None? <==> currentBalance == 0
    ensures line.Some? ==> line.value.amount == (if currentBalance < 0 then -currentBalance else currentBalance)
    ensures line.Some? ==> (line.value.note == " (Credit)" <==> currentBalance > 0)
    ensures line.Some? ==> (line.value.note == " (Due)" <==> currentBalance < 0)
  {
    if currentBalance == 0 then None
    else if currentBalance > 0 then Some(BalanceLine(currentBalance, " (Credit)"))
    else Some(BalanceLine(-currentBalance, " (Due)"))
  }

  /** `c` occurs in `clients` with no client named `name` before it. */
  predicate IsFirstNamed(clients: seq<Client>, name: string, c: Client) {
    exists k :: 0 <= k < |clients| && clients[k] == c && forall j :: 0 <= j < k ==> clients[j].name != name
  }

  /** "Contact Client": the first client whose name is exactly the reminder's client name. */
  function FindContact(clients: seq<Client>, name: string): (c: Option<Client>)
    ensures c.None? <==> forall i :: 0 <= i < |clients| ==> clients[i].name != name
    ensures c.Some? ==> c.value.name == name && IsFirstNamed(clients, name, c.value)
  {
    if clients == [] then None
    else if clients[0].name == name then Some(clients[0])
    else
      var rest := FindContact(clients[1..], name);
      assert forall i :: 1 <= i < |clients| ==> clients[i] == clients[1..][i - 1];
      if rest.Some? then
        var k :| 0 <= k < |clients[1..]| && clients[1..][k] == rest.value
          && forall j :: 0 <= j < k ==> clients[1..][j].name != name;
        assert clients[k + 1] == rest.value;
        rest
      else rest
  }
}
