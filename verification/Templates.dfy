/** Tool results, and the templates that answer some of them without a second model call. */
module Templates {
  import opened Wrappers
  import opened Json

  /** One entry of the result list: an `output`, an `error`, or both keys. */
  datatype ToolResult = ToolResult(id: Option<string>, name: string, output: Option<Json>, error: Option<string>)

  /** Each registered template needs one field; `mustBeTrue` is its condition, `shown` whether it prints the field. */
  datatype TemplateSpec = TemplateSpec(key: string, field: string, mustBeTrue: bool, text: string, shown: bool)

  datatype TemplateResult = TemplateResult(response: string, skipReason: string)

  const TEMPLATES: seq<TemplateSpec> := [
    TemplateSpec("booking_created", "booking_id", false, "تم الحجز بنجاح ✅\nرقم الحجز: ", true),
    TemplateSpec("availability_true", "available", true, "التذاكر متاحة ✅", false),
    TemplateSpec("cancellation_success", "cancelled", true, "تم إلغاء الحجز بنجاح ✅", false)
  ]

  const SAVED_RENDERER_TOKENS: nat := 600

  predicate Fires(spec: TemplateSpec, output: map<string, Json>) {
    && spec.field in output && output[spec.field] != Null
    && (spec.mustBeTrue ==> output[spec.field] == Bool(true))
  }

  function Render(spec: TemplateSpec, output: map<string, Json>, show: Json -> string): string
    requires Fires(spec, output)
  {
    spec.text + if spec.shown then show(output[spec.field]) else ""
  }

  function FirstFiring(specs: seq<TemplateSpec>, output: map<string, Json>): (r: Option<TemplateSpec>)
    ensures r.Some? ==> Fires(r.value, output)
  {
    if specs == [] then None
    else if Fires(specs[0], output) then Some(specs[0])
    else FirstFiring(specs[1..], output)
  }

  function Match(results: seq<ToolResult>, show: Json -> string): Option<TemplateResult> {
    if |results| != 1 then None
    else
      match results[0].output
      case Some(Obj(output)) =>
        (match FirstFiring(TEMPLATES, output)
         case Some(spec) => Some(TemplateResult(Render(spec, output, show), spec.key))
         case None => None)
      case _ => None
  }

  predicate IsTrue(output: map<string, Json>, field: string) {
    field in output && output[field] == Bool(true)
  }

  predicate Present(output: map<string, Json>, field: string) {
    field in output && output[field] != Null
  }

  /**
    Which outputs skip the renderer, with which words and under which key: a booking id, shown,
    wins over the other two.
  */
  lemma MatchMeaning(results: seq<ToolResult>, show: Json -> string)
    ensures Match(results, show) ==
            if |results| != 1 || results[0].output.None? || !results[0].output.value.Obj? then None
            else
              var o := results[0].output.value.fields;
              if Present(o, "booking_id") then
                Some(TemplateResult("تم الحجز بنجاح ✅\nرقم الحجز: " + show(o["booking_id"]), "booking_created"))
              else if IsTrue(o, "available") then Some(TemplateResult("التذاكر متاحة ✅", "availability_true"))
              else if IsTrue(o, "cancelled") then Some(TemplateResult("تم إلغاء الحجز بنجاح ✅", "cancellation_success"))
              else None
  {
    if |results| == 1 && results[0].output.Some? && results[0].output.value.Obj? {
      var o := results[0].output.value.fields;
      var rest, last := TEMPLATES[1..], TEMPLATES[2..];
      assert rest[1..] == last && last[1..] == [];
      assert TEMPLATES[1].text + "" == TEMPLATES[1].text && TEMPLATES[2].text + "" == TEMPLATES[2].text;
      assert FirstFiring(last, o) == if Fires(TEMPLATES[2], o) then Some(TEMPLATES[2]) else None;
      assert FirstFiring(rest, o) == if Fires(TEMPLATES[1], o) then Some(TEMPLATES[1]) else FirstFiring(last, o);
      assert FirstFiring(TEMPLATES, o) == if Fires(TEMPLATES[0], o) then Some(TEMPLATES[0]) else FirstFiring(rest, o);
    }
  }
}
