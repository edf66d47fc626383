/**
 * Harvest (monthly savings) plans: creating a plan from the form, the plan search, payment
 * progress, the lucky-draw participant list, the winner lookup and the next group number.
 */
module HarvestPlans {
  import opened Wrappers
  import Seqs
  import Text

  datatype PlanType = GoldPlan | DiamondPlan
  datatype PlanStatus = Active | Completed | Redeemed | EarlyRedeemed
  datatype PaymentMethod = Cash | Rtgs | Upi | Cheque
  datatype PaymentStatus = Paid | Pending

  /** A calendar day as `new Date(year, monthIndex, day)` takes it; `monthIndex` counts from 0. */
  datatype CalendarDate = CalendarDate(year: int, monthIndex: int, day: int)

  /** The month a payment slot is for (its display text is left to formatting). */
  datatype SlotMonth = SlotMonth(monthIndex: int, year: int)

  datatype Payment = Payment(month: SlotMonth, date: Option<CalendarDate>, amount: int,
    payMethod: PaymentMethod, status: PaymentStatus)

  datatype HarvestPlan = HarvestPlan(
    id: string,
    clientId: string,
    clientName: string,
    planType: PlanType,
    groupNo: int,
    registrationNo: int,
    monthlyAmount: int,
    startDate: CalendarDate,
    endDate: CalendarDate,
    totalPaid: int,
    remainingAmount: int,
    status: PlanStatus,
    isWinner: Option<bool>,
    payments: seq<Payment>)

  /** What the create-plan form submits; the start month is chosen from 1 to 12. */
  datatype PlanForm = PlanForm(clientName: string, planType: PlanType, groupNo: int, monthlyAmount: int,
    startMonth: int, startYear: int)

  /** `${prefix}${String(n).padStart(3, "0")}`. */
  function NumberedId(prefix: string, n: nat): string {
    prefix + Text.PadStart(Text.NatToString(n), 3, '0')
  }

  /** The number an id was made from can be read back from it. */
  lemma NumberedIdReadBack(prefix: string, n: nat)
    ensures |NumberedId(prefix, n)| >= |prefix| + 3
    ensures NumberedId(prefix, n)[..|prefix|] == prefix
    ensures Text.AllDigits(NumberedId(prefix, n)[|prefix|..])
    ensures Text.DecimalValue(NumberedId(prefix, n)[|prefix|..]) == n
  {
    var id := NumberedId(prefix, n);
    assert id[|prefix|..] == Text.PadStart(Text.NatToString(n), 3, '0');
    Text.PadStartValue(n, 3);
  }

  /** Plans created at different list lengths get different ids, even past 999. */
  lemma NumberedIdsDistinct(prefix: string, m: nat, n: nat)
    requires m != n
    ensures NumberedId(prefix, m) != NumberedId(prefix, n)
  {
    NumberedIdReadBack(prefix, m);
    NumberedIdReadBack(prefix, n);
  }

  /** The month index of payment slot `i`: the year wraps around, the slot's year does not move. */
  function SlotMonthOf(form: PlanForm, i: nat): SlotMonth
    requires 1 <= form.startMonth <= 12
  {
    SlotMonth((form.startMonth - 1 + i) % 12, form.startYear)
  }

  function PendingSlot(form: PlanForm, i: nat): Payment
    requires 1 <= form.startMonth <= 12
  {
    Payment(SlotMonthOf(form, i), None, form.monthlyAmount, Cash, Pending)
  }

  /**
   * `handleCreatePlan`, with `planCount` the length of the plan list and `roll` the value of
   * `Math.floor(Math.random() * 75)`. The plan is active, nothing is paid, twelve pending cash
   * payments of the monthly amount are due, and the registration number lies in 1..75.
   */
  function CreatePlan(planCount: nat, form: PlanForm, roll: nat): (plan: HarvestPlan)
    requires 1 <= form.startMonth <= 12
    requires roll < 75
    ensures plan.id == NumberedId("HP", planCount + 1) && plan.clientId == NumberedId("CL", planCount + 1)
    ensures plan.clientName == form.clientName && plan.planType == form.planType && plan.groupNo == form.groupNo
    ensures 1 <= plan.registrationNo <= 75
    ensures plan.status == Active && plan.totalPaid == 0 && plan.remainingAmount == 12 * plan.monthlyAmount
    ensures plan.monthlyAmount == form.monthlyAmount
    ensures |plan.payments| == 12
    ensures forall i :: 0 <= i < 12 ==> (plan.payments[i].status == Pending
      && plan.payments[i].amount == form.monthlyAmount && plan.payments[i].payMethod == Cash)
    ensures plan.startDate == CalendarDate(form.startYear, form.startMonth - 1, 1)
  {
    HarvestPlan(
      NumberedId("HP", planCount + 1),
      NumberedId("CL", planCount + 1),
      form.clientName,
      form.planType,
      form.groupNo,
      roll + 1,
      form.monthlyAmount,
      CalendarDate(form.startYear, form.startMonth - 1, 1),
      CalendarDate(form.startYear + (if form.startMonth > 1 then 1 else 0), (form.startMonth + 10) % 12, 1),
      0,
      form.monthlyAmount * 12,
      Active,
      None,
      Slots(form))
  }

  /** The twelve pending slots of a new plan. */
  function Slots(form: PlanForm): (ps: seq<Payment>)
    requires 1 <= form.startMonth <= 12
    ensures |ps| == 12 && forall i :: 0 <= i < 12 ==> ps[i] == PendingSlot(form, i)
  {
    seq(12, i requires 0 <= i < 12 => PendingSlot(form, i))
  }

  /**
   * Slot `i` is for month index `(startMonth - 1 + i) % 12` of the start year and has no payment
   * date yet, so the slots cover twelve different months, starting with the start month.
   */
  lemma PaymentMonthsCoverAYear(planCount: nat, form: PlanForm, roll: nat)
    requires 1 <= form.startMonth <= 12 && roll < 75
    ensures forall i :: 0 <= i < 12 ==>
      CreatePlan(planCount, form, roll).payments[i].month == SlotMonth((form.startMonth - 1 + i) % 12, form.startYear)
      && CreatePlan(planCount, form, roll).payments[i].date.None?
    ensures CreatePlan(planCount, form, roll).payments[0].month.monthIndex == form.startMonth - 1
    ensures forall i, j :: 0 <= i < j < 12 ==>
      CreatePlan(planCount, form, roll).payments[i].month.monthIndex != CreatePlan(planCount, form, roll).payments[j].month.monthIndex
    ensures forall i :: 0 <= i < 12 ==> 0 <= CreatePlan(planCount, form, roll).payments[i].month.monthIndex < 12
  {
    assert CreatePlan(planCount, form, roll).payments == Slots(form);
    SlotMonthsDistinct(form);
  }

  lemma SlotMonthsDistinct(form: PlanForm)
    requires 1 <= form.startMonth <= 12
    ensures forall i, j :: 0 <= i < j < 12 ==> SlotMonthOf(form, i).monthIndex != SlotMonthOf(form, j).monthIndex
  {
    forall i, j | 0 <= i < j < 12
      ensures SlotMonthOf(form, i).monthIndex != SlotMonthOf(form, j).monthIndex
    {
      ModTwelveDistinct(form.startMonth - 1 + i, form.startMonth - 1 + j);
    }
  }

  /** Two numbers less than twelve apart have different remainders modulo twelve. */
  lemma ModTwelveDistinct(a: nat, b: nat)
    requires a < b < a + 12
    ensures a % 12 != b % 12
  {
    var qa, qb := a / 12, b / 12;
    assert a == 12 * qa + a % 12;
    assert b == 12 * qb + b % 12;
  }

  /**
   * The end date is the first of the month of the twelfth slot, in the year that month really
   * falls in; the slots themselves all carry the start year, so from a start month after January
   * on, the last slot's year and the end date's year differ.
   */
  lemma EndDateIsLastSlotMonth(planCount: nat, form: PlanForm, roll: nat)
    requires 1 <= form.startMonth <= 12 && roll < 75
    ensures CreatePlan(planCount, form, roll).endDate
      == CalendarDate(form.startYear + (if form.startMonth > 1 then 1 else 0), (form.startMonth + 10) % 12, 1)
    ensures CreatePlan(planCount, form, roll).endDate.monthIndex == CreatePlan(planCount, form, roll).payments[11].month.monthIndex
    ensures CreatePlan(planCount, form, roll).endDate.year == form.startYear + (form.startMonth - 1 + 11) / 12
    ensures forall i :: 0 <= i < 12 ==> CreatePlan(planCount, form, roll).payments[i].month.year == form.startYear
    ensures form.startMonth > 1 ==>
      CreatePlan(planCount, form, roll).payments[11].month.year != CreatePlan(planCount, form, roll).endDate.year
  {
  }

  /** `filteredPlans`: the client name or the plan id contains the search term, ignoring case. */
  predicate MatchesSearch(plan: HarvestPlan, searchTerm: string) {
    Text.Contains(Text.Lower(plan.clientName), Text.Lower(searchTerm))
    || Text.Contains(Text.Lower(plan.id), Text.Lower(searchTerm))
  }

  function FilteredPlans(plans: seq<HarvestPlan>, searchTerm: string): (r: seq<HarvestPlan>)
    ensures Seqs.IsSubsequence(r, plans)
    ensures forall p :: p in r <==> p in plans && MatchesSearch(p, searchTerm)
  {
    var keep := (p: HarvestPlan) => MatchesSearch(p, searchTerm);
    var r := Seqs.Filter(plans, keep);
    forall p ensures p in r <==> p in plans && keep(p) {
      Seqs.FilterMembership(plans, keep, p);
    }
    r
  }

  /** An empty search shows every plan. */
  lemma EmptySearchShowsAll(plans: seq<HarvestPlan>)
    ensures FilteredPlans(plans, "") == plans
  {
    forall i | 0 <= i < |plans| ensures MatchesSearch(plans[i], "") {
      assert Text.OccursAt(Text.Lower(plans[i].clientName), "", 0);
    }
    Seqs.FilterAll(plans, (p: HarvestPlan) => MatchesSearch(p, ""));
  }

  predicate IsPaid(p: Payment) { p.status == Paid }
  predicate IsPending(p: Payment) { p.status == Pending }

  /**
   * The "n/12 months" progress: how many payments are paid. The paid and the pending payments
   * together are all of them.
   */
  function PaidCount(payments: seq<Payment>): (n: nat)
    ensures n <= |payments|
    ensures n == 0 <==> forall i :: 0 <= i < |payments| ==> payments[i].status == Pending
    ensures n + Seqs.Count(payments, IsPending) == |payments|
  {
    Seqs.FilterPartition(payments, IsPaid, IsPending);
    Seqs.Count(payments, IsPaid)
  }

  /** One payment counts once if paid and not at all if pending. */
  lemma PaidCountSingleton(p: Payment)
    ensures PaidCount([p]) == if p.status == Paid then 1 else 0
  {
    assert [p][1..] == [];
    assert Seqs.Filter([p], IsPaid) == if IsPaid(p) then [p] else [];
  }

  /** The progress over two runs of payments is the sum of their progress. */
  lemma PaidCountConcat(a: seq<Payment>, b: seq<Payment>)
    ensures PaidCount(a + b) == PaidCount(a) + PaidCount(b)
  {
    Seqs.CountConcat(a, b, IsPaid);
  }

  /** A new plan shows no progress. */
  lemma NewPlanUnpaid(planCount: nat, form: PlanForm, roll: nat)
    requires 1 <= form.startMonth <= 12 && roll < 75
    ensures PaidCount(CreatePlan(planCount, form, roll).payments) == 0
  {
  }

  predicate IsActiveDiamond(p: HarvestPlan) { p.planType == DiamondPlan && p.status == Active }

  function RegistrationNo(p: HarvestPlan): int { p.registrationNo }

  /** The registration numbers of the active diamond plans, in plan order. */
  function DiamondPlanNumbers(plans: seq<HarvestPlan>): seq<int> {
    Seqs.Map(Seqs.Filter(plans, IsActiveDiamond), RegistrationNo)
  }

  /** `Math.floor(Math.random() * 75) + 1`, given the floored draw: a number on the wheel. */
  function RollToNumber(roll: nat): (n: int)
    ensures roll < 75 ==> 1 <= n <= 75
  {
    roll + 1
  }

  /**
   * `additionalNumbers`, with `rolls` the values of `Math.floor(Math.random() * 75)`: the drawn
   * numbers that are not already a diamond plan's number.
   */
  function ExtraNumbers(d: seq<int>, rolls: seq<nat>): (e: seq<int>)
    requires forall i :: 0 <= i < |rolls| ==> rolls[i] < 75
    ensures forall i :: 0 <= i < |e| ==> 1 <= e[i] <= 75 && e[i] !in d
  {
    var drawn := Seqs.Map(rolls, RollToNumber);
    assert forall i :: 0 <= i < |drawn| ==> 1 <= drawn[i] <= 75;
    Seqs.Filter(drawn, (n: int) => n !in d)
  }

  /**
   * The additional numbers are the drawn numbers (`roll + 1`) in draw order, each kept as often
   * as it was drawn unless it is already a diamond plan's number, in which case it is dropped.
   */
  lemma ExtraNumbersAreDrawn(d: seq<int>, rolls: seq<nat>)
    requires forall i :: 0 <= i < |rolls| ==> rolls[i] < 75
    ensures Seqs.IsSubsequence(ExtraNumbers(d, rolls), Seqs.Map(rolls, RollToNumber))
    ensures forall x :: (multiset(ExtraNumbers(d, rolls))[x]
      == if x in d then 0 else multiset(Seqs.Map(rolls, RollToNumber))[x])
  {
    var drawn := Seqs.Map(rolls, RollToNumber);
    var keep := (n: int) => n !in d;
    assert ExtraNumbers(d, rolls) == Seqs.Filter(drawn, keep);
    forall x ensures multiset(Seqs.Filter(drawn, keep))[x] == if x in d then 0 else multiset(drawn)[x] {
      Seqs.FilterMultiplicity(drawn, keep, x);
    }
  }

  /** `[...d, ...extra].slice(0, 20)`. */
  function FirstTwenty(d: seq<int>, extra: seq<int>): (r: seq<int>)
    requires forall i :: 0 <= i < |extra| ==> 1 <= extra[i] <= 75 && extra[i] !in d
    ensures |r| <= 20
    ensures if |d| >= 20 then r == d[..20] else |r| >= |d| && r[..|d|] == d
    ensures forall i :: 0 <= i < |r| ==> r[i] in d || (1 <= r[i] <= 75 && r[i] !in d)
    ensures |r| == if |d| + |extra| <= 20 then |d| + |extra| else 20
    ensures forall i :: |d| <= i < |r| ==> r[i] == extra[i - |d|]
  {
    var all := d + extra;
    assert forall i :: 0 <= i < |all| ==> all[i] in d || (1 <= all[i] <= 75 && all[i] !in d) by {
      forall i | 0 <= i < |all| ensures all[i] in d || (1 <= all[i] <= 75 && all[i] !in d) {
        if i >= |d| {
          assert all[i] == extra[i - |d|];
        }
      }
    }
    if |all| <= 20 then all else all[..20]
  }

  /**
   * `allLuckyDrawParticipants`, with `rolls` the twenty random draws: the active diamond plans'
   * numbers first, then the drawn numbers that are not among them, cut to twenty.
   */
  function Participants(plans: seq<HarvestPlan>, rolls: seq<nat>): (r: seq<int>)
    requires |rolls| == 20 && forall i :: 0 <= i < 20 ==> rolls[i] < 75
    ensures |r| <= 20
    ensures var d := DiamondPlanNumbers(plans);
      if |d| >= 20 then r == d[..20] else |r| >= |d| && r[..|d|] == d
    ensures forall i :: 0 <= i < |r| ==> (r[i] in DiamondPlanNumbers(plans)
      || (1 <= r[i] <= 75 && r[i] !in DiamondPlanNumbers(plans)))
  {
    var d := DiamondPlanNumbers(plans);
    FirstTwenty(d, ExtraNumbers(d, rolls))
  }

  /**
   * After the diamond plans' numbers the wheel holds the additional numbers in order, and it is
   * filled up to twenty when there are enough of them.
   */
  lemma ParticipantsFill(plans: seq<HarvestPlan>, rolls: seq<nat>)
    requires |rolls| == 20 && forall i :: 0 <= i < 20 ==> rolls[i] < 75
    ensures var d := DiamondPlanNumbers(plans); var e := ExtraNumbers(d, rolls); var r := Participants(plans, rolls);
      |r| == (if |d| + |e| <= 20 then |d| + |e| else 20)
      && forall i :: |d| <= i < |r| ==> r[i] == e[i - |d|]
  {
    var d := DiamondPlanNumbers(plans);
    var e := ExtraNumbers(d, rolls);
    assert Participants(plans, rolls) == FirstTwenty(d, e);
  }

  /** An active diamond plan among the first twenty is on the wheel. */
  lemma ActiveDiamondPlanParticipates(plans: seq<HarvestPlan>, rolls: seq<nat>, k: nat)
    requires |rolls| == 20 && forall i :: 0 <= i < 20 ==> rolls[i] < 75
    requires k < |DiamondPlanNumbers(plans)| && k < 20
    ensures DiamondPlanNumbers(plans)[k] in Participants(plans, rolls)
  {
    var d := DiamondPlanNumbers(plans);
    var r := Participants(plans, rolls);
    if |d| >= 20 {
      assert r[k] == d[k];
    } else {
      assert r[..|d|][k] == d[k];
    }
  }

  /** `harvestPlans.find(plan => plan.registrationNo === n)` as a position: the first match, if any. */
  function FindByRegistration(plans: seq<HarvestPlan>, n: int): (k: Option<nat>)
    ensures k.None? <==> forall i :: 0 <= i < |plans| ==> plans[i].registrationNo != n
    ensures k.Some? ==> (k.value < |plans| && plans[k.value].registrationNo == n
      && forall j :: 0 <= j < k.value ==> plans[j].registrationNo != n)
  {
    if plans == [] then None
    else if plans[0].registrationNo == n then Some(0)
    else match FindByRegistration(plans[1..], n)
      case None => None
      case Some(k) => Some(k + 1)
  }

  /** `plans[k]` is the first plan carrying registration number `n`. */
  predicate IsFirstWithNumber(plans: seq<HarvestPlan>, n: int, k: int) {
    0 <= k < |plans| && plans[k].registrationNo == n && forall j :: 0 <= j < k ==> plans[j].registrationNo != n
  }

  /**
   * The drawn number's plan (`winner || null`): the first plan carrying the number, since random
   * registration numbers can repeat.
   */
  function WinnerOf(plans: seq<HarvestPlan>, n: int): (w: Option<HarvestPlan>)
    ensures w.Some? ==> w.value in plans && w.value.registrationNo == n
    ensures w.Some? ==> exists k :: IsFirstWithNumber(plans, n, k) && plans[k] == w.value
    ensures w.None? <==> forall p :: p in plans ==> p.registrationNo != n
  {
    match FindByRegistration(plans, n)
    case None => None
    case Some(k) => Some(plans[k])
  }

  function MaxGroupNo(plans: seq<HarvestPlan>): (m: int)
    requires plans != []
    ensures forall i :: 0 <= i < |plans| ==> plans[i].groupNo <= m
    ensures exists i :: 0 <= i < |plans| && plans[i].groupNo == m
  {
    if |plans| == 1 then plans[0].groupNo
    else
      var rest := MaxGroupNo(plans[1..]);
      assert forall i :: 1 <= i < |plans| ==> plans[i] == plans[1..][i - 1];
      if plans[0].groupNo >= rest then plans[0].groupNo else rest
  }

  /**
   * `Math.max(...groupNos) + 1`: one more than the largest group number, so it is new.
   * With no plans the maximum is `-Infinity` and there is no group number (`None`).
   */
  function NextGroupNo(plans: seq<HarvestPlan>): (g: Option<int>)
    ensures g.Some? <==> plans != []
    ensures g.Some? ==> forall i :: 0 <= i < |plans| ==> plans[i].groupNo < g.value
    ensures g.Some? ==> exists i :: 0 <= i < |plans| && g.value == plans[i].groupNo + 1
  {
    if plans == [] then None else Some(MaxGroupNo(plans) + 1)
  }

  /** The lucky-draw part of the page: the fixed plan list and the winner shown for it. */
  class LuckyDrawState {
    const harvestPlans: seq<HarvestPlan>
    var luckyDrawWinner: Option<int>
    var winnerClient: Option<HarvestPlan>
    var showWinnerAnnouncement: bool

    constructor (plans: seq<HarvestPlan>)
      ensures harvestPlans == plans && luckyDrawWinner == None && winnerClient == None && !showWinnerAnnouncement
    {
      harvestPlans := plans;
      luckyDrawWinner := None;
      winnerClient := None;
      showWinnerAnnouncement := false;
    }

    /** `handleWinnerSelected`: record the number and its plan; the announcement comes later. */
    method WinnerSelected(winnerNumber: int)
      modifies this
      ensures luckyDrawWinner == Some(winnerNumber)
      ensures winnerClient == WinnerOf(harvestPlans, winnerNumber)
      ensures showWinnerAnnouncement == old(showWinnerAnnouncement)
    {
      luckyDrawWinner := Some(winnerNumber);
      winnerClient := WinnerOf(harvestPlans, winnerNumber);
    }

    /** The delayed step one second later: show the announcement. */
    method AnnounceWinner()
      modifies this`showWinnerAnnouncement
      ensures showWinnerAnnouncement
    {
      showWinnerAnnouncement := true;
    }
  }

  /** What submitting the create-plan form does, in order. */
  datatype ModalEffect = CreatePlanCalled(form: PlanForm) | Closed

  /** The form's initial values, with the current month (1..12) and year. */
  function DefaultForm(currentMonth: int, currentYear: int): (f: PlanForm)
    requires 1 <= currentMonth <= 12
    ensures f.startMonth == currentMonth && f.startYear == currentYear
    ensures f.clientName == "" && f.planType == DiamondPlan && f.groupNo == 1 && f.monthlyAmount == 25000
  {
    PlanForm("", DiamondPlan, 1, 25000, currentMonth, currentYear)
  }

  /** `CreatePlanModal`'s form state. */
  class CreatePlanModal {
    var formData: PlanForm

    constructor (currentMonth: int, currentYear: int)
      requires 1 <= currentMonth <= 12
      ensures formData == DefaultForm(currentMonth, currentYear)
    {
      formData := DefaultForm(currentMonth, currentYear);
    }

    /** Edit one field of the form: the start month select. */
    method SetStartMonth(month: int)
      requires 1 <= month <= 12
      modifies this
      ensures formData == old(formData).(startMonth := month)
    {
      formData := formData.(startMonth := month);
    }

    /** The other inputs: client name, plan type, group, monthly amount and start year. */
    method SetDetails(clientName: string, planType: PlanType, groupNo: int, monthlyAmount: int, startYear: int)
      modifies this
      ensures formData == PlanForm(clientName, planType, groupNo, monthlyAmount, old(formData).startMonth, startYear)
    {
      formData := formData.(clientName := clientName, planType := planType, groupNo := groupNo,
        monthlyAmount := monthlyAmount, startYear := startYear);
    }

    /**
     * `handleSubmit`: hand the form to `onCreatePlan`, close, and reset the form to its
     * initial values for the current date.
     */
    method Submit(currentMonth: int, currentYear: int) returns (effects: seq<ModalEffect>)
      requires 1 <= currentMonth <= 12
      modifies this
      ensures effects == [CreatePlanCalled(old(formData)), Closed]
      ensures formData == DefaultForm(currentMonth, currentYear)
    {
      effects := [CreatePlanCalled(formData), Closed];
      formData := DefaultForm(currentMonth, currentYear);
    }
  }
}
