/**
 * The "issue gold to karigar" form: the value shown beside the weight and rate, the
 * required-field check on issuing, and the warning about an existing gold balance.
 */
module IssueGold {
  import opened Wrappers

  /** The karigar choices the form is given. */
  datatype KarigarChoice = KarigarChoice(id: string, name: string, goldBalance: real)

  /** The record handed to `onIssue`; `issueDate` is the moment of issuing. */
  datatype GoldIssue = GoldIssue(karigarId: string, goldWeight: real, goldKarat: string, goldRate: real,
    totalValue: real, purpose: string, notes: string, issueDate: int)

  datatype Effect = Alert(message: string) | OnIssue(issue: GoldIssue) | OnClose

  const DefaultGoldRate: real := 6850.0

  /** The first karigar with that id, as `find` returns it. */
  function FindKarigar(karigars: seq<KarigarChoice>, id: string): (r: Option<KarigarChoice>)
    ensures r.None? <==> forall i :: 0 <= i < |karigars| ==> karigars[i].id != id
    ensures r.Some? ==> exists i :: 0 <= i < |karigars| && karigars[i] == r.value && FirstWithId(karigars, id, i)
  {
    if karigars == [] then None
    else if karigars[0].id == id then
      assert FirstWithId(karigars, id, 0);
      Some(karigars[0])
    else
      var rest := FindKarigar(karigars[1..], id);
      assert forall i :: 1 <= i < |karigars| ==> karigars[i] == karigars[1..][i - 1];
      if rest.Some? then
        var i :| 0 <= i < |karigars[1..]| && karigars[1..][i] == rest.value && FirstWithId(karigars[1..], id, i);
        assert FirstWithId(karigars, id, i + 1);
        rest
      else rest
  }

  /** `karigars[i]` is the first karigar with that id. */
  predicate FirstWithId(karigars: seq<KarigarChoice>, id: string, i: int) {
    0 <= i < |karigars| && karigars[i].id == id && forall j :: 0 <= j < i ==> karigars[j].id != id
  }

  /** The yellow warning: shown iff the selected karigar exists and already holds gold. */
  function BalanceWarning(karigars: seq<KarigarChoice>, selectedKarigar: string): (shown: bool)
    ensures shown <==> exists i :: FirstWithId(karigars, selectedKarigar, i) && karigars[i].goldBalance > 0.0
  {
    var k := FindKarigar(karigars, selectedKarigar);
    if k.Some? then
      var i :| 0 <= i < |karigars| && karigars[i] == k.value && FirstWithId(karigars, selectedKarigar, i);
      FirstWithIdUnique(karigars, selectedKarigar, i);
      k.value.goldBalance > 0.0
    else
      false
  }

  lemma FirstWithIdUnique(karigars: seq<KarigarChoice>, id: string, i: int)
    requires FirstWithId(karigars, id, i)
    ensures forall j :: FirstWithId(karigars, id, j) ==> j == i
  {
  }

  /** The form's state. */
  class IssueGoldForm {
    var selectedKarigar: string
    var goldWeight: real
    var goldKarat: string
    var goldRate: real
    var purpose: string
    var notes: string
    var totalValue: real

    /** The effect on weight and rate has run: the shown value is weight times rate. */
    predicate Valid()
      reads this
    {
      totalValue == goldWeight * goldRate
    }

    constructor ()
      ensures selectedKarigar == "" && goldWeight == 0.0 && goldKarat == "" && goldRate == DefaultGoldRate
      ensures purpose == "" && notes == "" && totalValue == 0.0
      ensures Valid()
    {
      selectedKarigar, goldWeight, goldKarat, goldRate := "", 0.0, "", DefaultGoldRate;
      purpose, notes, totalValue := "", "", 0.0;
    }

    /** A new weight, followed by the effect that recomputes the value. */
    method SetGoldWeight(w: real)
      modifies this
      ensures goldWeight == w && totalValue == w * goldRate
      ensures goldRate == old(goldRate) && selectedKarigar == old(selectedKarigar) && goldKarat == old(goldKarat)
      ensures purpose == old(purpose) && notes == old(notes)
      ensures Valid()
    {
      goldWeight := w;
      totalValue := goldWeight * goldRate;
    }

    /** A new rate, followed by the same effect. */
    method SetGoldRate(rate: real)
      modifies this
      ensures goldRate == rate && totalValue == goldWeight * rate
      ensures goldWeight == old(goldWeight) && selectedKarigar == old(selectedKarigar) && goldKarat == old(goldKarat)
      ensures purpose == old(purpose) && notes == old(notes)
      ensures Valid()
    {
      goldRate := rate;
      totalValue := goldWeight * goldRate;
    }

    method SetDetails(karigar: string, karat: string, purposeText: string, notesText: string)
      modifies this
      ensures selectedKarigar == karigar && goldKarat == karat && purpose == purposeText && notes == notesText
      ensures goldWeight == old(goldWeight) && goldRate == old(goldRate) && totalValue == old(totalValue)
    {
      selectedKarigar, goldKarat, purpose, notes := karigar, karat, purposeText, notesText;
    }

    /**
     * `handleIssue`: an alert and nothing else when the karigar, the weight or the karat is
     * missing; otherwise `onIssue` with the inputs and their value, then `onClose`.
     */
    method Issue(now: int) returns (effects: seq<Effect>)
      requires Valid()
      ensures (selectedKarigar == "" || goldWeight == 0.0 || goldKarat == "") <==>
        effects == [Alert("Please fill all required fields")]
      ensures !(selectedKarigar == "" || goldWeight == 0.0 || goldKarat == "") ==>
        effects == [OnIssue(GoldIssue(selectedKarigar, goldWeight, goldKarat, goldRate, totalValue, purpose, notes, now)),
                    OnClose]
      ensures forall e :: e in effects && e.OnIssue? ==> e.issue.totalValue == e.issue.goldWeight * e.issue.goldRate
    {
      if selectedKarigar == "" || goldWeight == 0.0 || goldKarat == "" {
        return [Alert("Please fill all required fields")];
      }
      effects := [OnIssue(GoldIssue(selectedKarigar, goldWeight, goldKarat, goldRate, totalValue, purpose, notes, now)),
                  OnClose];
    }
  }
}
