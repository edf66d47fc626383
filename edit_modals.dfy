/**
 * The three edit modals (client, harvest plan, transaction). Each holds a draft record
 * initialised from the edited record with per-field fallbacks, lets the user overwrite
 * draft fields one at a time, and on submit hands `{...record, ...draft}` to its save
 * callback before closing.
 */
module EditModals {
  import opened Wrappers
  import opened JsObject

  datatype ModalKind = ClientEdit | PlanEdit | TransactionEdit

  /** What a modal asks its parent to do. */
  datatype Effect = Save(data: Obj) | Close

  /** The client's contact properties. */
  const ContactFields: set<string> := {"name", "phone", "email", "address", "panNo", "birthday"}

  /** The client's occasion, size and preference properties. */
  const PreferenceFields: set<string> :=
    {"anniversary", "ringSize", "bangleSize", "braceletSize", "preferredCategory", "vipStatus"}

  /** The draft's property names. */
  function DraftFields(kind: ModalKind): (fields: set<string>)
    ensures |fields| >= 5
  {
    match kind
    case ClientEdit =>
      var f := {"name", "phone", "email", "address", "panNo", "birthday", "anniversary",
                "ringSize", "bangleSize", "braceletSize", "preferredCategory", "vipStatus"};
      assert {"name", "phone", "email", "address", "panNo"} <= f;
      f
    case PlanEdit => {"clientName", "type", "groupNo", "monthlyAmount", "status"}
    case TransactionEdit => {"description", "amount", "party", "method", "status", "category"}
  }

  /** The client draft is the contact group and the preference group together. */
  lemma ClientFieldGroups()
    ensures DraftFields(ClientEdit) == ContactFields + PreferenceFields
  {
  }

  lemma ContactFieldsSize()
    ensures |ContactFields| == 6
  {
  }

  lemma PreferenceFieldsSize()
    ensures |PreferenceFields| == 6
  {
  }

  lemma ClientFieldGroupsDisjoint()
    ensures ContactFields !! PreferenceFields
  {
  }

  lemma DisjointUnionSize<T>(a: set<T>, b: set<T>)
    requires a !! b
    ensures |a + b| == |a| + |b|
  {
  }

  /** A client draft holds twelve properties, a plan draft five and a transaction draft six. */
  lemma DraftFieldSizes(kind: ModalKind)
    ensures kind == ClientEdit ==> |DraftFields(kind)| == 12
    ensures kind == PlanEdit ==> |DraftFields(kind)| == 5
    ensures kind == TransactionEdit ==> |DraftFields(kind)| == 6
  {
    if kind == ClientEdit {
      ClientFieldGroups();
      ContactFieldsSize();
      PreferenceFieldsSize();
      ClientFieldGroupsDisjoint();
      DisjointUnionSize(ContactFields, PreferenceFields);
    }
  }

  /** The client's dates, which the draft holds as ISO day strings. */
  function DateFields(kind: ModalKind): set<string> {
    if kind == ClientEdit then {"birthday", "anniversary"} else {}
  }

  /** The draft fields that have an input; the client form has none for the bracelet size. */
  function EditableFields(kind: ModalKind): (fields: set<string>)
    ensures fields <= DraftFields(kind)
  {
    if kind == ClientEdit then DraftFields(kind) - {"braceletSize"} else DraftFields(kind)
  }

  /** The value a draft field takes when the record's property is falsy. */
  function Fallback(kind: ModalKind, k: string): Value {
    match kind
    case ClientEdit => if k == "vipStatus" then Str("regular") else Str("")
    case PlanEdit =>
      if k == "type" then Str("diamond")
      else if k == "groupNo" then Num(1.0)
      else if k == "monthlyAmount" then Num(25000.0)
      else if k == "status" then Str("active")
      else Str("")
    case TransactionEdit =>
      if k == "amount" then Num(0.0)
      else if k == "method" then Str("cash")
      else if k == "status" then Str("completed")
      else if k == "category" then Str("client")
      else Str("")
  }

  /**
   * A date field of the client draft: the ISO day string of a truthy date, else "".
   * `isoDay` stands for `new Date(v).toISOString().split("T")[0]`.
   */
  function DateField(record: Option<Obj>, k: string, isoDay: Value -> string): (v: Value)
    ensures Truthy(Prop(record, k)) ==> v == Str(isoDay(Prop(record, k)))
    ensures !Truthy(Prop(record, k)) ==> v == Str("")
  {
    if Truthy(Prop(record, k)) then Str(isoDay(Prop(record, k))) else Str("")
  }

  /** The draft's initial value, from the `useState` initialiser. */
  function InitialDraft(kind: ModalKind, record: Option<Obj>, isoDay: Value -> string): (d: Obj)
    ensures d.Keys == DraftFields(kind)
    ensures forall k :: k in d && k !in DateFields(kind) ==>
      (Truthy(Prop(record, k)) ==> d[k] == Prop(record, k)) && (!Truthy(Prop(record, k)) ==> d[k] == Fallback(kind, k))
    ensures forall k :: k in DateFields(kind) ==> k in d && d[k] == DateField(record, k, isoDay)
  {
    map k | k in DraftFields(kind) ::
      if k in DateFields(kind) then DateField(record, k, isoDay) else PropOr(record, k, Fallback(kind, k))
  }

  /** The plan's numeric fallbacks: a falsy group number becomes 1 and a falsy amount 25000. */
  lemma PlanFalsyDefaults(plan: Option<Obj>, isoDay: Value -> string)
    ensures var d := InitialDraft(PlanEdit, plan, isoDay);
      && (!Truthy(Prop(plan, "groupNo")) ==> d["groupNo"] == Num(1.0))
      && (!Truthy(Prop(plan, "monthlyAmount")) ==> d["monthlyAmount"] == Num(25000.0))
      && (!Truthy(Prop(plan, "type")) ==> d["type"] == Str("diamond"))
      && (!Truthy(Prop(plan, "status")) ==> d["status"] == Str("active"))
  {
    var d := InitialDraft(PlanEdit, plan, isoDay);
    assert "groupNo" in d && "monthlyAmount" in d && "type" in d && "status" in d;
  }

  /** The client's fallbacks: "regular" for the VIP status and "" for every other property. */
  lemma ClientFalsyDefaults(client: Option<Obj>, isoDay: Value -> string, k: string)
    requires k in DraftFields(ClientEdit)
    requires !Truthy(Prop(client, k))
    ensures InitialDraft(ClientEdit, client, isoDay)[k] == if k == "vipStatus" then Str("regular") else Str("")
  {
  }

  /**
   * Submitting a draft that was never edited keeps every property of the record outside
   * the draft, and every truthy one inside it apart from the two dates.
   */
  lemma UneditedSubmit(kind: ModalKind, record: Obj, isoDay: Value -> string, k: string)
    requires k in record
    requires k !in DraftFields(kind) || (Truthy(record[k]) && k !in DateFields(kind))
    ensures var saved := Spread(Some(record), InitialDraft(kind, Some(record), isoDay));
      k in saved && saved[k] == record[k]
  {
  }

  /** Submitting an unedited plan draft returns the plan itself when all five of its fields are truthy. */
  lemma UneditedPlanIsOriginal(plan: Obj, isoDay: Value -> string)
    requires forall k :: k in DraftFields(PlanEdit) ==> k in plan && Truthy(plan[k])
    ensures Spread(Some(plan), InitialDraft(PlanEdit, Some(plan), isoDay)) == plan
  {
    var d := InitialDraft(PlanEdit, Some(plan), isoDay);
    forall k | k in d ensures k in plan && plan[k] == d[k] {
      assert k in DraftFields(PlanEdit);
    }
    SpreadAgreeing(plan, d);
  }

  /** A plan edit cannot touch the payments, the registration number or the amount paid. */
  lemma PlanEditKeeps(plan: Obj, draft: Obj, k: string)
    requires draft.Keys == DraftFields(PlanEdit)
    requires k in {"id", "payments", "registrationNo", "totalPaid", "remainingAmount", "startDate", "endDate"}
    requires k in plan
    ensures k in Spread(Some(plan), draft) && Spread(Some(plan), draft)[k] == plan[k]
  {
  }

  /** A transaction edit cannot touch the id, the type, the date or the reference. */
  lemma TransactionEditKeeps(txn: Obj, draft: Obj, k: string)
    requires draft.Keys == DraftFields(TransactionEdit)
    requires k in {"id", "type", "date", "reference"}
    requires k in txn
    ensures k in Spread(Some(txn), draft) && Spread(Some(txn), draft)[k] == txn[k]
  {
  }

  /** A client edit cannot touch the id, the purchase totals or the balance. */
  lemma ClientEditKeeps(client: Obj, draft: Obj, k: string)
    requires draft.Keys == DraftFields(ClientEdit)
    requires k in {"id", "totalPurchases", "lifetimePurchases", "currentBalance", "lastPurchase"}
    requires k in client
    ensures k in Spread(Some(client), draft) && Spread(Some(client), draft)[k] == client[k]
  {
    ClientAccountFieldsOutsideDraft();
  }

  lemma ClientAccountFieldsOutsideDraft()
    ensures "id" !in DraftFields(ClientEdit)
    ensures "totalPurchases" !in DraftFields(ClientEdit)
    ensures "lifetimePurchases" !in DraftFields(ClientEdit)
    ensures "currentBalance" !in DraftFields(ClientEdit)
    ensures "lastPurchase" !in DraftFields(ClientEdit)
  {
  }

  /** One open modal with its draft. */
  class EditModal {
    const kind: ModalKind
    const record: Option<Obj>
    var formData: Obj

    /** The draft keeps its field set, and the bracelet size, which has no input, keeps its first value. */
    predicate Valid()
      reads this
    {
      && formData.Keys == DraftFields(kind)
      && (kind == ClientEdit ==> formData["braceletSize"] == PropOr(record, "braceletSize", Str("")))
    }

    constructor (kind: ModalKind, record: Option<Obj>, isoDay: Value -> string)
      ensures this.kind == kind && this.record == record
      ensures formData == InitialDraft(kind, record, isoDay)
      ensures Valid()
    {
      this.kind := kind;
      this.record := record;
      formData := InitialDraft(kind, record, isoDay);
      new;
      assert "braceletSize" in DraftFields(ClientEdit) && "braceletSize" !in DateFields(ClientEdit);
    }

    /** A change handler: `setFormData({ ...formData, k: v })`. */
    method Change(k: string, v: Value)
      requires Valid()
      requires k in EditableFields(kind)
      modifies this
      ensures formData == With(old(formData), k, v)
      ensures Valid()
    {
      formData := With(formData, k, v);
    }

    /** `handleSubmit`: save the merged record, then close. */
    method Submit() returns (effects: seq<Effect>)
      requires Valid()
      ensures effects == [Save(Spread(record, formData)), Close]
      ensures forall k :: k in formData ==> k in effects[0].data && effects[0].data[k] == formData[k]
      ensures forall k :: record.Some? && k in record.value && k !in DraftFields(kind) ==>
        k in effects[0].data && effects[0].data[k] == record.value[k]
      ensures kind == ClientEdit ==> effects[0].data["braceletSize"] == PropOr(record, "braceletSize", Str(""))
    {
      effects := [Save(Spread(record, formData)), Close];
    }

    /** The Cancel button and the close cross: close without saving. */
    method Cancel() returns (effects: seq<Effect>)
      ensures effects == [Close]
      ensures forall e :: e in effects ==> !e.Save?
    {
      effects := [Close];
    }
  }
}
