/** The alert template-set form's hand-written `template_id` validator (FORM_RULES.item.template_id). */
module TemplateSetRules {

  /** The values a form field can hold, with JavaScript's strict-equality distinctions. */
  datatype JsValue = Undefined | Null | Num(n: int) | Str(s: string) | Bool(b: bool) | Other

  /** What the validator passes to `callback`: nothing, or an error with a message. */
  datatype CallbackArg = Pass | Fail(message: string)

  const TemplateRequired: string := "请选择模板"

  /** The validator: the list of `callback` invocations for one validation of `value`. */
  function ValidateTemplateId(value: JsValue): (calls: seq<CallbackArg>)
    ensures |calls| == 1
    ensures calls[0].Fail? <==> value == Undefined || value == Null || value == Num(0)
    ensures calls[0].Fail? ==> calls[0].message == TemplateRequired
  {
    if value.Undefined? || value.Null? || (value.Num? && value.n == 0) then [Fail(TemplateRequired)]
    else [Pass]
  }

  /** Strict comparison: "0", "", negative ids and false all pass. */
  lemma StrictComparisonPasses(n: int)
    requires n != 0
    ensures ValidateTemplateId(Str("0")) == [Pass]
    ensures ValidateTemplateId(Str("")) == [Pass]
    ensures ValidateTemplateId(Num(n)) == [Pass]
    ensures ValidateTemplateId(Bool(false)) == [Pass]
  {
  }
}
