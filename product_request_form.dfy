/** The product-request form: its field-wise change handler, the validation
    that fills an error map field by field, and the submit guard. */
module ProductRequestForm {
  import opened Wrappers
  import opened JsText
  import opened FormRules

  /** The form state; `priority` is `None` while the number input is empty. */
  datatype RequestData = RequestData(productUrl: string, priority: Option<int>, requestDate: string, requiredByDate: string)

  datatype Field = ProductUrl | Priority | RequestDate | RequiredByDate

  /** A change event of one of the three editable inputs; `requestDate` is read-only. */
  datatype Input = ProductUrlInput(url: string) | PriorityInput(priority: Option<int>) | RequiredByDateInput(date: string)

  const UrlMessage := "Product URL is required."

  /** `{ ...formData, [name]: value }`: the named field takes the value, the others stay. */
  function Changed(d: RequestData, e: Input): (r: RequestData)
    ensures r.productUrl == if e.ProductUrlInput? then e.url else d.productUrl
    ensures r.priority == if e.PriorityInput? then e.priority else d.priority
    ensures r.requiredByDate == if e.RequiredByDateInput? then e.date else d.requiredByDate
    ensures r.requestDate == d.requestDate
  {
    match e
    case ProductUrlInput(url) => d.(productUrl := url)
    case PriorityInput(p) => d.(priority := p)
    case RequiredByDateInput(date) => d.(requiredByDate := date)
  }

  /** The state after a sequence of change events. */
  function ChangedAll(d: RequestData, es: seq<Input>): RequestData
    decreases |es|
  {
    if es == [] then d else ChangedAll(Changed(d, es[0]), es[1..])
  }

  /** No sequence of edits moves the auto-filled request date. */
  lemma {:induction false} RequestDateFixed(d: RequestData, es: seq<Input>)
    ensures ChangedAll(d, es).requestDate == d.requestDate
    decreases |es|
  {
    if es != [] {
      RequestDateFixed(Changed(d, es[0]), es[1..]);
    }
  }

  /** The field an input event names. */
  function Target(e: Input): Field {
    match e
    case ProductUrlInput(_) => ProductUrl
    case PriorityInput(_) => Priority
    case RequiredByDateInput(_) => RequiredByDate
  }

  /** A second change of the same input overrides the first. */
  lemma LastChangeWins(d: RequestData, e1: Input, e2: Input)
    requires Target(e1) == Target(e2)
    ensures Changed(Changed(d, e1), e2) == Changed(d, e2)
  {
  }

  /** Whether `validate` records an error for field `f`. */
  predicate FieldRejected(d: RequestData, f: Field) {
    match f
    case ProductUrl => Blank(d.productUrl)
    case Priority => PriorityRejected(d.priority)
    case RequestDate => false
    case RequiredByDate => Blank(d.requiredByDate)
  }

  /** The error map `validate` builds for `d`: one entry, with its message, for
      each rejected field and none for the others. */
  predicate Describes(errors: map<Field, string>, d: RequestData) {
    && (ProductUrl in errors <==> FieldRejected(d, ProductUrl))
    && (Priority in errors <==> FieldRejected(d, Priority))
    && (RequiredByDate in errors <==> FieldRejected(d, RequiredByDate))
    && RequestDate !in errors
    && (ProductUrl in errors ==> errors[ProductUrl] == UrlMessage)
    && (Priority in errors ==> errors[Priority] == PriorityMessage)
    && (RequiredByDate in errors ==> errors[RequiredByDate] == RequiredByMessage)
  }

  /** The checks of `validate`: fills `newErrors` one field at a time and
      reports whether it stayed empty. */
  method CollectErrors(d: RequestData) returns (newErrors: map<Field, string>, valid: bool)
    ensures Describes(newErrors, d)
    ensures valid <==> newErrors == map[]
    ensures valid <==> !FieldRejected(d, ProductUrl) && !FieldRejected(d, Priority) && !FieldRejected(d, RequiredByDate)
  {
    newErrors := map[];
    if Blank(d.productUrl) {
      newErrors := newErrors[ProductUrl := UrlMessage];
    }
    if PriorityRejected(d.priority) {
      newErrors := newErrors[Priority := PriorityMessage];
    }
    if Blank(d.requiredByDate) {
      newErrors := newErrors[RequiredByDate := RequiredByMessage];
    }
    valid := |newErrors.Keys| == 0;
  }

  class Form {
    var formData: RequestData
    var errors: map<Field, string>

    /** The initial state; `todayIso` is `new Date().toISOString()`. */
    constructor (todayIso: string)
      ensures formData == RequestData("", None, DatePart(todayIso), "")
      ensures errors == map[]
    {
      formData := RequestData("", None, DatePart(todayIso), "");
      errors := map[];
    }

    method HandleChange(e: Input)
      modifies this`formData
      ensures formData == Changed(old(formData), e)
    {
      formData := Changed(formData, e);
    }

    /** `validate`: collects the errors and commits them with `setErrors`. */
    method Validate() returns (valid: bool)
      modifies this`errors
      ensures Describes(errors, formData)
      ensures valid <==> errors == map[]
      ensures valid <==> !FieldRejected(formData, ProductUrl) && !FieldRejected(formData, Priority)
                         && !FieldRejected(formData, RequiredByDate)
    {
      var newErrors;
      newErrors, valid := CollectErrors(formData);
      errors := newErrors;
    }

    /** `handleSubmit`: nothing is submitted unless `validate` passes. */
    method HandleSubmit() returns (submitted: bool)
      modifies this`errors
      ensures Describes(errors, formData)
      ensures submitted <==> errors == map[]
      ensures submitted <==>
                !Blank(formData.productUrl) && !PriorityRejected(formData.priority) && !Blank(formData.requiredByDate)
    {
      var valid := Validate();
      if !valid {
        return false;
      }
      submitted := true;
    }
  }

  /** Each field's error depends on that field alone: editing one input leaves
      every other field's verdict as it was. */
  lemma ChangeKeepsOtherVerdicts(d: RequestData, e: Input, f: Field)
    requires f != Target(e)
    ensures FieldRejected(Changed(d, e), f) == FieldRejected(d, f)
  {
  }

  /** A URL or required-by date that is empty or all spaces is reported; a
      priority is reported exactly when absent or outside 1..10. */
  lemma FieldRules(d: RequestData)
    ensures FieldRejected(d, ProductUrl) <==> AllSpace(d.productUrl)
    ensures FieldRejected(d, RequiredByDate) <==> AllSpace(d.requiredByDate)
    ensures FieldRejected(d, Priority) <==> !(d.priority.Some? && 1 <= d.priority.value <= 10)
  {
    BlankIffAllSpace(d.productUrl);
    BlankIffAllSpace(d.requiredByDate);
  }
}
