/**
 * The two-step "receive jewellery" wizard: step 1 picks gold or diamond jewellery, step 2
 * collects the details, and receiving builds one record with the common fields, the
 * fields of the chosen branch, the total charges and an estimated value.
 */
module ReceiveJewelry {

  /** Rupees per gram of gold and per carat of diamond used by the estimate. */
  const GoldRatePerGram: real := 6850.0
  const DiamondRatePerCarat: real := 50000.0

  /** Every input of the wizard; the numbers are the parsed input values. */
  datatype ReceiveForm = ReceiveForm(
    jewelryType: string,
    selectedKarigar: string,
    orderReference: string,
    itemName: string,
    description: string,
    labourCharges: real,
    otherCharges: real,
    qualityRating: string,
    notes: string,
    goldWeight: real,
    goldKarat: string,
    goldPurity: real,
    makingCharges: real,
    totalGoldWeight: real,
    totalGoldKarat: string,
    totalDiamondWeight: real,
    diamondQuality: string,
    diamondCount: int,
    settingCharges: real)

  /** The state the wizard starts in: no type, empty texts and zeros. */
  function InitialForm(): (f: ReceiveForm)
    ensures f.jewelryType == "" && f.selectedKarigar == "" && f.itemName == ""
  {
    ReceiveForm("", "", "", "", "", 0.0, 0.0, "", "", 0.0, "", 0.0, 0.0, 0.0, "", 0.0, "", 0, 0.0)
  }

  predicate IsGold(f: ReceiveForm) { f.jewelryType == "gold" }

  /** The read-only "Total Charges" box and the record's `totalCharges`. */
  function TotalCharges(f: ReceiveForm): real {
    f.labourCharges + f.otherCharges + (if IsGold(f) then f.makingCharges else f.settingCharges)
  }

  /** The metal and stone value of the piece, before charges. */
  function MaterialValue(f: ReceiveForm): real {
    if IsGold(f) then f.goldWeight * GoldRatePerGram * (f.goldPurity / 100.0)
    else f.totalGoldWeight * GoldRatePerGram + f.totalDiamondWeight * DiamondRatePerCarat
  }

  /** The record's common fields. */
  datatype BaseData = BaseData(karigarId: string, jewelryType: string, orderReference: string, itemName: string,
    description: string, labourCharges: real, otherCharges: real, qualityRating: string, notes: string,
    receiveDate: int, totalCharges: real)

  /** The branch-specific fields: the gold set or the diamond set, never both. */
  datatype SpecificData =
    | GoldDetails(goldWeight: real, goldKarat: string, goldPurity: real, makingCharges: real, estimatedValue: real)
    | DiamondDetails(totalGoldWeight: real, totalGoldKarat: string, totalDiamondWeight: real,
        diamondQuality: string, diamondCount: int, settingCharges: real, estimatedValue: real)

  datatype ReceivedRecord = ReceivedRecord(base: BaseData, specific: SpecificData)

  /** The record `handleReceive` hands to `onReceive`; `now` is the receive date. */
  function BuildRecord(f: ReceiveForm, now: int): (r: ReceivedRecord)
    ensures r.specific.GoldDetails? <==> f.jewelryType == "gold"
    ensures r.base.totalCharges == TotalCharges(f)
    ensures r.base == BaseData(f.selectedKarigar, f.jewelryType, f.orderReference, f.itemName, f.description,
      f.labourCharges, f.otherCharges, f.qualityRating, f.notes, now, r.base.totalCharges)
    ensures r.specific.GoldDetails? ==>
      r.specific == GoldDetails(f.goldWeight, f.goldKarat, f.goldPurity, f.makingCharges, r.specific.estimatedValue)
    ensures r.specific.DiamondDetails? ==>
      r.specific == DiamondDetails(f.totalGoldWeight, f.totalGoldKarat, f.totalDiamondWeight, f.diamondQuality,
        f.diamondCount, f.settingCharges, r.specific.estimatedValue)
  {
    var base := BaseData(f.selectedKarigar, f.jewelryType, f.orderReference, f.itemName, f.description,
      f.labourCharges, f.otherCharges, f.qualityRating, f.notes, now,
      f.labourCharges + f.otherCharges + (if f.jewelryType == "gold" then f.makingCharges else f.settingCharges));
    if f.jewelryType == "gold" then
      ReceivedRecord(base, GoldDetails(f.goldWeight, f.goldKarat, f.goldPurity, f.makingCharges,
        f.goldWeight * 6850.0 * (f.goldPurity / 100.0) + f.makingCharges + f.labourCharges + f.otherCharges))
    else
      ReceivedRecord(base, DiamondDetails(f.totalGoldWeight, f.totalGoldKarat, f.totalDiamondWeight, f.diamondQuality,
        f.diamondCount, f.settingCharges,
        f.totalGoldWeight * 6850.0 + f.totalDiamondWeight * 50000.0 + f.settingCharges + f.labourCharges + f.otherCharges))
  }

  /** The estimate is the material value plus exactly the charges shown as the total. */
  lemma EstimateIsMaterialPlusCharges(f: ReceiveForm, now: int)
    ensures BuildRecord(f, now).specific.estimatedValue == MaterialValue(f) + TotalCharges(f)
  {
  }

  /** With non-negative inputs the charges and the estimate are non-negative, and the estimate covers the charges. */
  lemma EstimateCoversCharges(f: ReceiveForm, now: int)
    requires f.labourCharges >= 0.0 && f.otherCharges >= 0.0 && f.makingCharges >= 0.0 && f.settingCharges >= 0.0
    requires f.goldWeight >= 0.0 && f.goldPurity >= 0.0 && f.totalGoldWeight >= 0.0 && f.totalDiamondWeight >= 0.0
    ensures 0.0 <= TotalCharges(f) <= BuildRecord(f, now).specific.estimatedValue
  {
    EstimateIsMaterialPlusCharges(f, now);
    assert MaterialValue(f) >= 0.0 by {
      if IsGold(f) {
        assert f.goldWeight * GoldRatePerGram >= 0.0;
        assert f.goldPurity / 100.0 >= 0.0;
      }
    }
  }

  /** "Receive Jewelry" is enabled only with a karigar and an item name. */
  function ReceiveEnabled(f: ReceiveForm): (enabled: bool)
    ensures enabled <==> f.selectedKarigar != "" && f.itemName != ""
  {
    f.selectedKarigar != "" && f.itemName != ""
  }

  datatype Effect = OnReceive(record: ReceivedRecord) | OnClose

  /** The wizard's state. */
  class ReceiveWizard {
    var step: int
    var form: ReceiveForm

    /** The wizard is on step 1 or 2, and step 2 is reached only with a type chosen. */
    predicate Valid()
      reads this
    {
      (step == 1 || step == 2) && (step == 2 ==> form.jewelryType != "")
    }

    constructor ()
      ensures step == 1 && form == InitialForm()
      ensures Valid()
    {
      step := 1;
      form := InitialForm();
    }

    /** The gold and diamond buttons of step 1. */
    method ChooseType(gold: bool)
      requires Valid()
      modifies this
      ensures form == old(form).(jewelryType := if gold then "gold" else "diamond")
      ensures step == old(step)
      ensures Valid()
    {
      form := form.(jewelryType := if gold then "gold" else "diamond");
    }

    /** Any input of step 2; the type is not among them. */
    method Edit(f: ReceiveForm)
      requires Valid()
      requires f.jewelryType == form.jewelryType
      modifies this
      ensures form == f && step == old(step)
      ensures Valid()
    {
      form := f;
    }

    /** `handleNext`: step 1 goes to step 2 once a type is chosen; otherwise nothing happens. */
    method Next()
      requires Valid()
      modifies this
      ensures step == (if old(step) == 1 && form.jewelryType != "" then 2 else old(step))
      ensures form == old(form)
      ensures Valid()
    {
      if step == 1 && form.jewelryType != "" {
        step := 2;
      }
    }

    /** The Back button of step 2. */
    method Back()
      requires Valid()
      modifies this
      ensures step == 1 && form == old(form)
      ensures Valid()
    {
      step := 1;
    }

    /** `handleReceive`: one `onReceive` with the built record, then `onClose`. */
    method Receive(now: int) returns (effects: seq<Effect>)
      requires Valid()
      ensures effects == [OnReceive(BuildRecord(form, now)), OnClose]
      ensures |effects| == 2 && effects[0].OnReceive? && effects[0].record.base.itemName == form.itemName
    {
      effects := [OnReceive(BuildRecord(form, now)), OnClose];
    }
  }
}
