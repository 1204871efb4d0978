/**
 * The "check" action without its page reads: the form readings become
 * dimensions, an empty state selection falls back to Oklahoma, and each
 * selected state gets one result row, in selection order.
 */
module Check {
  import opened Rules
  import opened Evaluator
  import Units

  /** The form's numeric readings, already sanitised (an invalid entry reads as 0). */
  datatype Form = Form(widthFt: int, widthIn: int, heightFt: int, heightIn: int,
                       lengthFt: int, lengthIn: int, grossLbs: int, roadType: RoadType)

  datatype Row = Row(state: string, verdict: Verdict)

  /** Lengths are combined and clamped at zero; the gross weight is taken as read, without clamping. */
  function FormDims(f: Form): (d: Dims)
    ensures d.widthIn >= 0 && d.heightIn >= 0 && d.lengthIn >= 0
    ensures f.widthFt * 12 + f.widthIn >= 0 ==> d.widthIn == f.widthFt * 12 + f.widthIn
    ensures f.heightFt * 12 + f.heightIn >= 0 ==> d.heightIn == f.heightFt * 12 + f.heightIn
    ensures f.lengthFt * 12 + f.lengthIn >= 0 ==> d.lengthIn == f.lengthFt * 12 + f.lengthIn
    ensures f.widthFt * 12 + f.widthIn < 0 ==> d.widthIn == 0
    ensures f.heightFt * 12 + f.heightIn < 0 ==> d.heightIn == 0
    ensures f.lengthFt * 12 + f.lengthIn < 0 ==> d.lengthIn == 0
    ensures d.grossLbs == f.grossLbs && d.roadType == f.roadType
  {
    Dims(Units.ToInches(f.widthFt, f.widthIn), Units.ToInches(f.heightFt, f.heightIn),
         Units.ToInches(f.lengthFt, f.lengthIn), f.grossLbs, f.roadType)
  }

  /** One row per selected state, in selection order; no selection means Oklahoma alone. */
  method CheckSelected(rules: map<string, Rule>, form: Form, selected: seq<string>) returns (rows: seq<Row>)
    ensures |selected| == 0 ==> rows == [Row("OK", Evaluate(rules, "OK", FormDims(form)))]
    ensures |selected| > 0 ==> |rows| == |selected|
    ensures |selected| > 0 ==>
              forall i :: 0 <= i < |rows| ==> rows[i] == Row(selected[i], Evaluate(rules, selected[i], FormDims(form)))
  {
    var dims := FormDims(form);
    var sel := selected;
    if |sel| == 0 {
      sel := sel + ["OK"];
    }
    rows := [];
    for i := 0 to |sel|
      invariant |rows| == i
      invariant forall k :: 0 <= k < i ==> rows[k] == Row(sel[k], Evaluate(rules, sel[k], dims))
    {
      var res := NeedsPermitForState(rules, sel[i], dims);
      rows := rows + [Row(sel[i], res)];
    }
  }

  /** Under the shipped table only Oklahoma yields a verdict with data; every other code, listed or not, yields "no data". */
  lemma OnlyOklahomaHasData(code: string, dims: Dims)
    ensures Evaluate(STATE_RULES, code, dims).OkVerdict? <==> code == "OK"
    ensures code != "OK" ==> Evaluate(STATE_RULES, code, dims) == NoDataVerdict
  {
    StateRulesComplete();
  }
}
