/**
 * The order form: its blank defaults, the loading of an existing order for editing, field
 * edits, and the submit that validates and then creates or updates through the store.
 */
module OrderForm {
  import opened Wrappers
  import opened Types
  import opened Text

  /** `emptyOrder`; `nowIso` is `new Date().toISOString()` when the module loads. */
  function EmptyOrder(nowIso: string): (d: Draft)
    ensures d.clientName == "" && d.clientPhone == "" && d.description == "" && d.observations == ""
    ensures d.openDate == BeforeFirst(nowIso, 'T') && d.closeDate == Some("")
    ensures d.value == Num(0) && d.status == Open && d.paymentMethod == Cash
  {
    Draft("", "", "", BeforeFirst(nowIso, 'T'), Some(""), Num(0), Open, Cash, "")
  }

  /** The date text the form shows: the part before the first `T`, or `''` for an absent or empty date. */
  function DatePart(date: Option<string>): (r: string)
    ensures 'T' !in r
    ensures date.Some? ==> r <= date.value
    ensures date.Some? && |r| < |date.value| ==> date.value[|r|] == 'T'
    ensures date.Some? && 'T' !in date.value ==> r == date.value
    ensures date.None? ==> r == ""
  {
    if date.Some? && date.value != "" then BeforeFirst(date.value, 'T') else ""
  }

  /** The form data after loading `existing`: all its fields, with both dates cut to their date part. */
  function Loaded(existing: ServiceOrder): (d: Draft)
    ensures 'T' !in d.openDate && d.openDate <= existing.openDate
    ensures |d.openDate| < |existing.openDate| ==> existing.openDate[|d.openDate|] == 'T'
    ensures d.closeDate.Some? && 'T' !in d.closeDate.value
    ensures existing.closeDate.None? ==> d.closeDate == Some("")
    ensures existing.closeDate.Some? ==>
      var c := existing.closeDate.value;
      d.closeDate.value <= c && (|d.closeDate.value| < |c| ==> c[|d.closeDate.value|] == 'T')
    ensures d.(openDate := existing.openDate, closeDate := existing.closeDate) == DraftOf(existing)
  {
    DraftOf(existing).(openDate := DatePart(Some(existing.openDate)), closeDate := Some(DatePart(existing.closeDate)))
  }

  /** Saving a loaded form unchanged and loading it again gives the same form. */
  lemma LoadIsStable(existing: ServiceOrder)
    ensures Loaded(WithId(Loaded(existing), existing.id)) == Loaded(existing)
  {
    var d := Loaded(existing);
    assert DatePart(Some(d.openDate)) == d.openDate;
    assert DatePart(d.closeDate) == d.closeDate.value;
  }

  // ----- Field edits -----

  datatype Field = ClientName | ClientPhone | Description | OpenDate | CloseDate | Value | Status | Payment | Observations

  /** The value an input carries, by kind. */
  datatype FieldValue =
    | TextValue(text: string)
    | DateValue(date: Option<string>)
    | AmountValue(amount: Amount)
    | StatusValue(status: OrderStatus)
    | PaymentValue(payment: PaymentMethod)

  /** The kind of value each field holds. */
  predicate Fits(f: Field, v: FieldValue) {
    match f
    case CloseDate => v.DateValue?
    case Value => v.AmountValue?
    case Status => v.StatusValue?
    case Payment => v.PaymentValue?
    case _ => v.TextValue?
  }

  function Get(d: Draft, f: Field): (v: FieldValue)
    ensures Fits(f, v)
  {
    match f
    case ClientName => TextValue(d.clientName)
    case ClientPhone => TextValue(d.clientPhone)
    case Description => TextValue(d.description)
    case OpenDate => TextValue(d.openDate)
    case CloseDate => DateValue(d.closeDate)
    case Value => AmountValue(d.value)
    case Status => StatusValue(d.status)
    case Payment => PaymentValue(d.paymentMethod)
    case Observations => TextValue(d.observations)
  }

  /** Two drafts that agree on every field are equal: `Get` sees the whole draft. */
  lemma FieldsDetermineDraft(a: Draft, b: Draft)
    requires forall f: Field :: Get(a, f) == Get(b, f)
    ensures a == b
  {
    assert Get(a, ClientName) == Get(b, ClientName) && Get(a, ClientPhone) == Get(b, ClientPhone);
    assert Get(a, Description) == Get(b, Description) && Get(a, OpenDate) == Get(b, OpenDate);
    assert Get(a, CloseDate) == Get(b, CloseDate) && Get(a, Value) == Get(b, Value);
    assert Get(a, Status) == Get(b, Status) && Get(a, Payment) == Get(b, Payment);
    assert Get(a, Observations) == Get(b, Observations);
  }

  /** `{ ...prev, [name]: value }`: the named field takes the new value and every other field keeps its own. */
  function Set(d: Draft, f: Field, v: FieldValue): (r: Draft)
    requires Fits(f, v)
    ensures Get(r, f) == v
    ensures forall g: Field :: g != f ==> Get(r, g) == Get(d, g)
  {
    match f
    case ClientName => d.(clientName := v.text)
    case ClientPhone => d.(clientPhone := v.text)
    case Description => d.(description := v.text)
    case OpenDate => d.(openDate := v.text)
    case CloseDate => d.(closeDate := v.date)
    case Value => d.(value := v.amount)
    case Status => d.(status := v.status)
    case Payment => d.(paymentMethod := v.payment)
    case Observations => d.(observations := v.text)
  }

  // ----- Submit -----

  /** The two required fields are filled in. */
  predicate Validates(d: Draft) {
    d.clientName != "" && d.description != ""
  }

  /** A blank form cannot be submitted. */
  lemma EmptyOrderRejected(nowIso: string)
    ensures !Validates(EmptyOrder(nowIso))
  {
  }

  /** `if (editId)`: a present, non-zero id. */
  predicate Truthy(editId: Option<int>) {
    editId.Some? && editId.value != 0
  }

  datatype SaveCall = UpdateCall(order: ServiceOrder) | CreateCall(draft: Draft)

  /** The `alert` shown, if any. */
  datatype Notice = NoNotice | MissingFieldsAlert | SaveFailedAlert

  /** What a submit asks of the store: nothing for an invalid form, else an update under `editId` or a create. */
  function SubmitCall(d: Draft, editId: Option<int>): (c: Option<SaveCall>)
    ensures c.None? <==> !Validates(d)
    ensures c.Some? && Truthy(editId) ==> c.value == UpdateCall(WithId(d, editId.value))
    ensures c.Some? && !Truthy(editId) ==> c.value == CreateCall(d)
  {
    if !Validates(d) then None
    else if Truthy(editId) then Some(UpdateCall(WithId(d, editId.value)))
    else Some(CreateCall(d))
  }

  class Form {
    const editId: Option<int>
    var formData: Draft
    var loading: bool
    var saving: bool

    constructor(editId: Option<int>, nowIso: string)
      ensures this.editId == editId && formData == EmptyOrder(nowIso) && !loading && !saving
    {
      this.editId := editId;
      formData := EmptyOrder(nowIso);
      loading := false;
      saving := false;
    }

    /** The mount effect: with a truthy `editId`, loads the reply of `getById` into the form. */
    method OnMount(existing: Option<ServiceOrder>)
      modifies this
      ensures formData == if Truthy(editId) && existing.Some? then Loaded(existing.value) else old(formData)
      ensures loading == if Truthy(editId) then false else old(loading)
      ensures saving == old(saving)
    {
      if Truthy(editId) {
        loading := true;
        if existing.Some? {
          formData := Loaded(existing.value);
        }
        loading := false;
      }
    }

    method HandleChange(f: Field, v: FieldValue)
      requires Fits(f, v)
      modifies this
      ensures formData == Set(old(formData), f, v)
      ensures loading == old(loading) && saving == old(saving)
    {
      formData := Set(formData, f, v);
    }

    /**
     * `handleSubmit`. `persisted` is whether the store call completed. `onSave` is called only after a
     * successful store call, and `saving` ends false whenever a call was made.
     */
    method HandleSubmit(persisted: bool) returns (call: Option<SaveCall>, onSave: bool, notice: Notice)
      modifies this
      ensures call == SubmitCall(old(formData), editId)
      ensures onSave <==> call.Some? && persisted
      ensures notice == if call.None? then MissingFieldsAlert else if persisted then NoNotice else SaveFailedAlert
      ensures saving == if call.None? then old(saving) else false
      ensures formData == old(formData) && loading == old(loading)
    {
      if formData.clientName == "" || formData.description == "" {
        call, onSave, notice := None, false, MissingFieldsAlert;
        return;
      }
      saving := true;
      if Truthy(editId) {
        call := Some(UpdateCall(WithId(formData, editId.value)));
      } else {
        call := Some(CreateCall(formData));
      }
      if persisted {
        onSave, notice := true, NoNotice;
      } else {
        onSave, notice := false, SaveFailedAlert;
      }
      saving := false;
    }
  }
}
