/** The medicine edit form: it checks the route id and the stored warehouse
    id, asks whether the warehouse is trusted, loads the medicine's quantity
    and discount into a two-field form, validates them, and submits. */
module MedicineEditPage {
  import opened Common

  const InvalidMedicineIdMessage: string := "معرف الدواء غير صحيح"
  const MissingWarehouseMessage: string := "معرف المستودع غير موجود"
  const UntrustedMessage: string := "عذراً، المستودع غير موثوق. لا يمكن تعديل الأدوية."
  const TrustCheckFailedMessage: string := "فشل في التحقق من حالة الثقة للمستودع"
  const LoadFailedMessage: string := "تعذر تحميل بيانات الدواء. تأكد من صحة المعرف."

  /** The value of a numeric form control: empty (`''`, `null` or
      `undefined`) or a number. */
  datatype FieldValue = Empty | Number(n: int)

  /** The errors the `required`, `min` and `max` validators report. */
  datatype ControlErrors = ControlErrors(required: bool, min: bool, max: bool) {
    predicate Any() {
      required || min || max
    }
  }

  /** What the three validators report for a value and the bounds `lo`, `hi`:
      `min` and `max` pass an empty value and leave it to `required`. */
  function Validate(v: FieldValue, lo: int, hi: int): (r: ControlErrors)
    ensures !r.Any() <==> v.Number? && lo <= v.n <= hi
    ensures r.required <==> v.Empty?
    ensures r.required ==> !r.min && !r.max
    ensures lo <= hi ==> !(r.min && r.max)
  {
    ControlErrors(v.Empty?, v.Number? && v.n < lo, v.Number? && v.n > hi)
  }

  const MaxQuantity: int := 999999
  const MaxDiscount: int := 100

  /** The form is valid when neither control reports an error. */
  function FormValid(quantity: FieldValue, discount: FieldValue): (r: bool)
    ensures r <==> quantity.Number? && 0 <= quantity.n <= MaxQuantity &&
                   discount.Number? && 0 <= discount.n <= MaxDiscount
  {
    !Validate(quantity, 0, MaxQuantity).Any() && !Validate(discount, 0, MaxDiscount).Any()
  }

  /** The three messages of one control. */
  datatype ErrorTexts = ErrorTexts(required: string, min: string, max: string)

  const QuantityTexts: ErrorTexts :=
    ErrorTexts("الكمية مطلوبة", "الكمية يجب أن تكون أكبر من أو تساوي 0", "الكمية كبيرة جداً")
  const DiscountTexts: ErrorTexts :=
    ErrorTexts("الخصم مطلوب", "الخصم يجب أن يكون أكبر من أو يساوي 0", "الخصم يجب أن يكون أقل من أو يساوي 100%")

  /** The message under a control: nothing until it is touched and has an
      error; then `required` before `min` before `max`. */
  function ErrorText(errors: ControlErrors, touched: bool, texts: ErrorTexts): (r: string)
    ensures !touched || !errors.Any() ==> r == ""
    ensures touched && errors.required ==> r == texts.required
    ensures touched && !errors.required && errors.min ==> r == texts.min
    ensures touched && !errors.required && !errors.min && errors.max ==> r == texts.max
  {
    if errors.Any() && touched then
      if errors.required then texts.required
      else if errors.min then texts.min
      else texts.max
    else ""
  }

  function QuantityError(v: FieldValue, touched: bool): (r: string)
    ensures r == "" <==> !touched || (v.Number? && 0 <= v.n <= MaxQuantity)
    ensures touched && v.Empty? ==> r == QuantityTexts.required
    ensures touched && v.Number? && v.n < 0 ==> r == QuantityTexts.min
    ensures touched && v.Number? && v.n > MaxQuantity ==> r == QuantityTexts.max
  {
    ErrorText(Validate(v, 0, MaxQuantity), touched, QuantityTexts)
  }

  function DiscountError(v: FieldValue, touched: bool): (r: string)
    ensures r == "" <==> !touched || (v.Number? && 0 <= v.n <= MaxDiscount)
    ensures touched && v.Empty? ==> r == DiscountTexts.required
    ensures touched && v.Number? && v.n < 0 ==> r == DiscountTexts.min
    ensures touched && v.Number? && v.n > MaxDiscount ==> r == DiscountTexts.max
  {
    ErrorText(Validate(v, 0, MaxDiscount), touched, DiscountTexts)
  }

  /** The medicine record as far as `fetchMedicine` reads it. */
  datatype MedicineRecord = MedicineRecord(
    quantity: Option<int>,
    discount: Option<int>,
    discountPercentage: Option<int>,
    discountPercent: Option<int>,
    discountValue: Option<int>)

  /** `a || b || ... || 0` over numbers that may be missing: the first
      present non-zero one, else 0. */
  function FirstTruthy(xs: seq<Option<int>>): (r: int)
    ensures r == 0 <==> forall k :: 0 <= k < |xs| ==> xs[k].None? || xs[k].value == 0
    ensures r != 0 ==> exists k :: 0 <= k < |xs| && xs[k] == Some(r) &&
                                   forall j :: 0 <= j < k ==> xs[j].None? || xs[j].value == 0
  {
    if xs == [] then 0
    else if xs[0].Some? && xs[0].value != 0 then xs[0].value
    else
      var r := FirstTruthy(xs[1..]);
      assert forall k :: 0 <= k < |xs| - 1 ==> xs[1..][k] == xs[k + 1];
      r
  }

  /** The discount the record gives: `discount` unless it is missing, then
      the first non-zero of the three other names, else 0. */
  function DiscountOf(data: MedicineRecord): (r: int)
    ensures data.discount.Some? ==> r == data.discount.value
    ensures data.discount.None? ==>
              r == FirstTruthy([data.discountPercentage, data.discountPercent, data.discountValue])
  {
    match data.discount
    case Some(d) => d
    case None => FirstTruthy([data.discountPercentage, data.discountPercent, data.discountValue])
  }

  /** A discount of at most 1 is read as a fraction and scaled to a percentage. */
  function AsPercent(d: int): (r: int)
    ensures d > 1 ==> r == d
    ensures d <= 1 ==> r == d * 100
    ensures 0 <= d ==> d <= r
    ensures 0 <= d <= 1 ==> 0 <= r <= MaxDiscount
  {
    if d <= 1 then d * 100 else d
  }

  const CheckingMessage: string := "جاري التحقق من حالة الثقة..."
  const TrustedMessage: string := "المستودع موثوق - يمكن تعديل الأدوية"
  const UntrustedBanner: string := "المستودع غير موثوق - لا يمكن تعديل الأدوية"

  /** The trust banner: while the check runs it says so whatever the flag. */
  function TrustStatusMessage(checking: bool, trusted: bool): (r: string)
    ensures r == CheckingMessage <==> checking
    ensures r == TrustedMessage <==> !checking && trusted
    ensures r == UntrustedBanner <==> !checking && !trusted
  {
    if checking then CheckingMessage
    else if trusted then TrustedMessage
    else UntrustedBanner
  }

  /** The update request `onSubmit` sends. */
  datatype UpdateRequest = UpdateRequest(medicineId: JsNumber, warehouseId: Option<string>, quantity: int, discount: int)

  datatype SubmitOutcome =
    | RefusedUntrusted        // alert only
    | MarkedTouched           // the form was invalid
    | Sent(request: UpdateRequest)

  class MedicineEditFormComponent {
    var medicineId: JsNumber
    var warehouseId: Option<string>
    var loading: bool
    var error: Option<string>
    var submitting: bool
    var isWarehouseTrusted: bool
    var checkingTrustStatus: bool
    var quantity: FieldValue
    var discount: FieldValue
    var quantityTouched: bool
    var discountTouched: bool

    constructor ()
      ensures medicineId == Finite(0) && warehouseId == None && loading && error == None
      ensures !submitting && !isWarehouseTrusted && checkingTrustStatus
      ensures quantity == Empty && discount == Empty && !quantityTouched && !discountTouched
    {
      medicineId := Finite(0);
      warehouseId := None;
      loading := true;
      error := None;
      submitting := false;
      isWarehouseTrusted := false;
      checkingTrustStatus := true;
      quantity := Empty;
      discount := Empty;
      quantityTouched := false;
      discountTouched := false;
    }

    /** `ngOnInit`: the medicine id is checked first, then the stored
        warehouse id; the trust check starts only when both pass. */
    method NgOnInit(medicineIdParam: JsNumber, storedWarehouseId: Option<string>) returns (trustCheckStarted: bool)
      modifies this`medicineId, this`warehouseId, this`error, this`loading
      ensures medicineId == medicineIdParam && warehouseId == storedWarehouseId
      ensures trustCheckStarted <==> medicineIdParam.Truthy() && TruthyString(storedWarehouseId)
      ensures trustCheckStarted ==> error == old(error) && loading == old(loading)
      ensures !medicineIdParam.Truthy() ==> error == Some(InvalidMedicineIdMessage) && !loading
      ensures medicineIdParam.Truthy() && !TruthyString(storedWarehouseId) ==>
                error == Some(MissingWarehouseMessage) && !loading
    {
      medicineId := medicineIdParam;
      warehouseId := storedWarehouseId;
      if !medicineId.Truthy() {
        error := Some(InvalidMedicineIdMessage);
        loading := false;
        return false;
      }
      if !TruthyString(warehouseId) {
        error := Some(MissingWarehouseMessage);
        loading := false;
        return false;
      }
      trustCheckStarted := true;
    }

    /** The outcome of the trust check: only a trusted warehouse goes on to
        load the medicine. A failed check leaves the trust flag as it was. */
    method OnTrustChecked(resp: Response<WarehouseRecord>) returns (fetchStarted: bool)
      modifies this`isWarehouseTrusted, this`checkingTrustStatus, this`error, this`loading
      ensures !checkingTrustStatus
      ensures fetchStarted <==> resp.Ok? && TrustedBy(resp.body)
      ensures resp.Ok? ==> isWarehouseTrusted == TrustedBy(resp.body)
      ensures resp.Failed? ==> isWarehouseTrusted == old(isWarehouseTrusted) &&
                               error == Some(TrustCheckFailedMessage) && !loading
      ensures resp.Ok? && !TrustedBy(resp.body) ==> error == Some(UntrustedMessage) && !loading
      ensures fetchStarted ==> error == old(error) && loading == old(loading)
    {
      match resp
      case Ok(record) =>
        isWarehouseTrusted := TrustedBy(record);
        checkingTrustStatus := false;
        if !isWarehouseTrusted {
          error := Some(UntrustedMessage);
          loading := false;
          return false;
        }
        fetchStarted := true;
      case Failed(_) =>
        error := Some(TrustCheckFailedMessage);
        checkingTrustStatus := false;
        loading := false;
        fetchStarted := false;
    }

    /** The outcome of `fetchMedicine`: the quantity and the (scaled)
        discount are patched into the form. */
    method OnMedicineFetched(resp: Response<MedicineRecord>)
      modifies this`quantity, this`discount, this`error, this`loading
      ensures !loading
      ensures resp.Ok? ==>
                quantity == (if resp.body.quantity.Some? then Number(resp.body.quantity.value) else Empty) &&
                discount == Number(AsPercent(DiscountOf(resp.body))) && error == old(error)
      ensures resp.Failed? ==>
                quantity == old(quantity) && discount == old(discount) && error == Some(LoadFailedMessage)
    {
      match resp
      case Ok(data) =>
        quantity := if data.quantity.Some? then Number(data.quantity.value) else Empty;
        discount := Number(AsPercent(DiscountOf(data)));
        loading := false;
      case Failed(_) =>
        error := Some(LoadFailedMessage);
        loading := false;
    }

    /** `onSubmit`: an untrusted warehouse changes nothing; an invalid form
        only marks both controls touched; otherwise the update is sent. */
    method OnSubmit() returns (outcome: SubmitOutcome)
      modifies this`quantityTouched, this`discountTouched, this`submitting
      ensures !isWarehouseTrusted ==>
                outcome == RefusedUntrusted && submitting == old(submitting) &&
                quantityTouched == old(quantityTouched) && discountTouched == old(discountTouched)
      ensures isWarehouseTrusted && !FormValid(quantity, discount) ==>
                outcome == MarkedTouched && quantityTouched && discountTouched && submitting == old(submitting)
      ensures isWarehouseTrusted && FormValid(quantity, discount) ==>
                outcome == Sent(UpdateRequest(medicineId, warehouseId, quantity.n, discount.n)) && submitting &&
                quantityTouched == old(quantityTouched) && discountTouched == old(discountTouched)
      ensures submitting != old(submitting) ==> outcome.Sent?
    {
      if !isWarehouseTrusted {
        return RefusedUntrusted;
      }
      if !FormValid(quantity, discount) {
        quantityTouched := true;
        discountTouched := true;
        return MarkedTouched;
      }
      submitting := true;
      outcome := Sent(UpdateRequest(medicineId, warehouseId, quantity.n, discount.n));
    }

    /** The outcome of the update request: a failure re-enables the form; a
        success navigates away. */
    method OnSubmitResponse(ok: bool)
      modifies this`submitting
      ensures submitting == (ok && old(submitting))
    {
      if !ok {
        submitting := false;
      }
    }
  }
}
