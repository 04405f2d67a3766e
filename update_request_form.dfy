/** The update form for an existing product request: its initial state taken
    from the current request, field-wise change, validation, and the merge
    handed to `onUpdate`. */
module UpdateRequestForm {
  import opened Wrappers
  import opened JsText
  import opened FormRules

  /** A product request as the dashboard holds it. */
  datatype ProductRequest = ProductRequest(
    id: string, productUrl: string, priority: Option<int>,
    requestDate: string, requiredByDate: string, imageUrl: Option<string>)

  /** The form state: the two fields a request may change. */
  datatype UpdateData = UpdateData(priority: Option<int>, requiredByDate: string)

  datatype Field = Priority | RequiredByDate

  datatype Input = PriorityInput(priority: Option<int>) | RequiredByDateInput(date: string)

  /** The initial state: the request's priority, and the date part of its
      required-by timestamp (`toISOString().split("T")[0]`). */
  function InitialData(current: ProductRequest): (d: UpdateData)
    ensures d.priority == current.priority
    ensures 'T' !in d.requiredByDate
    ensures |d.requiredByDate| <= |current.requiredByDate|
    ensures d.requiredByDate == current.requiredByDate[..|d.requiredByDate|]
    ensures |d.requiredByDate| < |current.requiredByDate| ==> current.requiredByDate[|d.requiredByDate|] == 'T'
  {
    UpdateData(current.priority, DatePart(current.requiredByDate))
  }

  /** `{ ...formData, [name]: value }`. */
  function Changed(d: UpdateData, e: Input): (r: UpdateData)
    ensures r.priority == if e.PriorityInput? then e.priority else d.priority
    ensures r.requiredByDate == if e.RequiredByDateInput? then e.date else d.requiredByDate
  {
    match e
    case PriorityInput(p) => d.(priority := p)
    case RequiredByDateInput(date) => d.(requiredByDate := date)
  }

  /** `{ ...currentRequest, ...formData }`: the form's two fields override the
      request's, and every other field of the request is kept. */
  function Merge(current: ProductRequest, d: UpdateData): (r: ProductRequest)
    ensures r.priority == d.priority && r.requiredByDate == d.requiredByDate
    ensures r.id == current.id && r.productUrl == current.productUrl
    ensures r.requestDate == current.requestDate && r.imageUrl == current.imageUrl
  {
    current.(priority := d.priority, requiredByDate := d.requiredByDate)
  }

  /** Reopening the form on a merged request shows the values that were merged,
      when the required-by date is a plain date. */
  lemma {:induction false} ReopenAfterMerge(current: ProductRequest, d: UpdateData)
    requires 'T' !in d.requiredByDate
    ensures InitialData(Merge(current, d)) == d
  {
    DatePartOfDate(d.requiredByDate);
  }

  /** Submitting the untouched form changes a request only by cutting the time
      off its required-by timestamp. */
  lemma {:induction false} UntouchedSubmit(current: ProductRequest, date: string, time: string)
    requires 'T' !in date && current.requiredByDate == date + "T" + time
    ensures Merge(current, InitialData(current)) == current.(requiredByDate := date)
  {
    DatePartOfTimestamp(date, time);
  }

  /** Merging the same form twice is merging it once. */
  lemma MergeIdempotent(current: ProductRequest, d: UpdateData)
    ensures Merge(Merge(current, d), d) == Merge(current, d)
  {
  }

  /** The error map `validate` builds for `d`. */
  predicate Describes(errors: map<Field, string>, d: UpdateData) {
    && (Priority in errors <==> PriorityRejected(d.priority))
    && (RequiredByDate in errors <==> Blank(d.requiredByDate))
    && (Priority in errors ==> errors[Priority] == PriorityMessage)
    && (RequiredByDate in errors ==> errors[RequiredByDate] == RequiredByMessage)
  }

  /** The checks of `validate`: a priority error when it is absent or outside
      1..10, a date error when the date is blank; valid when neither was recorded. */
  method CollectErrors(d: UpdateData) returns (newErrors: map<Field, string>, valid: bool)
    ensures Describes(newErrors, d)
    ensures valid <==> newErrors == map[]
    ensures valid <==> !PriorityRejected(d.priority) && !Blank(d.requiredByDate)
  {
    newErrors := map[];
    if PriorityRejected(d.priority) {
      newErrors := newErrors[Priority := PriorityMessage];
    }
    if Blank(d.requiredByDate) {
      newErrors := newErrors[RequiredByDate := RequiredByMessage];
    }
    valid := |newErrors.Keys| == 0;
  }

  class Form {
    const currentRequest: ProductRequest
    var formData: UpdateData
    var errors: map<Field, string>

    constructor (currentRequest: ProductRequest)
      ensures this.currentRequest == currentRequest
      ensures formData == InitialData(currentRequest) && errors == map[]
    {
      this.currentRequest := currentRequest;
      formData := InitialData(currentRequest);
      errors := map[];
    }

    method HandleChange(e: Input)
      modifies this`formData
      ensures formData == Changed(old(formData), e)
    {
      formData := Changed(formData, e);
    }

    /** `validate`: collects the errors and commits them with `setErrors`. */
    method Validate() returns (valid: bool)
      modifies this`errors
      ensures Describes(errors, formData)
      ensures valid <==> errors == map[]
      ensures valid <==> !PriorityRejected(formData.priority) && !Blank(formData.requiredByDate)
    {
      var newErrors;
      newErrors, valid := CollectErrors(formData);
      errors := newErrors;
    }

    /** `handleSubmit`: `onUpdate` receives the merged request, and only when
        `validate` passes; `None` means it was not called. */
    method HandleSubmit() returns (update: Option<ProductRequest>)
      modifies this`errors
      ensures Describes(errors, formData)
      ensures update.Some? <==> errors == map[]
      ensures update.Some? <==> !PriorityRejected(formData.priority) && !Blank(formData.requiredByDate)
      ensures update.Some? ==> update.value == Merge(currentRequest, formData)
    {
      var valid := Validate();
      if !valid {
        return None;
      }
      update := Some(Merge(currentRequest, formData));
    }
  }

  /** A request handed to `onUpdate` has its priority in 1..10 and a
      required-by date that is not blank. */
  lemma UpdateIsInRange(current: ProductRequest, d: UpdateData)
    requires !PriorityRejected(d.priority) && !Blank(d.requiredByDate)
    ensures var r := Merge(current, d);
            r.priority.Some? && 1 <= r.priority.value <= 10 && !AllSpace(r.requiredByDate)
  {
    BlankIffAllSpace(d.requiredByDate);
  }
}
