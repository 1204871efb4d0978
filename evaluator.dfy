/**
 * The permit evaluator: for one state and one set of dimensions, whether a
 * permit is needed, which limits are exceeded, which escort tiers apply and
 * whether a high-pole vehicle is indicated.
 */
module Evaluator {
  import opened Wrappers
  import opened Rules

  /** Vehicle dimensions in inches, gross weight in pounds, and the road type. */
  datatype Dims = Dims(widthIn: int, heightIn: int, lengthIn: int, grossLbs: int, roadType: RoadType)

  datatype Over = Over(overWidth: bool, overHeight: bool, overLength: bool, overWeight: bool)

  datatype Verdict =
    | NoDataVerdict
    | OkVerdict(permit: bool, over: Over, escort: string, highPole: string,
                travel: string, legalMax: LegalMax, sources: seq<string>)

  const NO_ESCORT: string := "None indicated by current table"
  const HIGH_POLE_YES: string := "Yes (high-pole advised/required)"
  const HIGH_POLE_NO: string := "No"
  const HIGH_POLE_UNKNOWN: string := "Not indicated"
  const NO_TRAVEL: string := "--"

  predicate IsPrefix(p: string, s: string) {
    |p| <= |s| && s[..|p|] == p
  }

  predicate IsSuffix(p: string, s: string) {
    |p| <= |s| && s[|s| - |p|..] == p
  }

  /** One tier's escort text: the escorts, " + flags" when flags are required, then the notes if any. */
  function FormatTier(t: Tier): (r: string)
    ensures IsPrefix(t.escorts, r)
    ensures t.flags ==> IsPrefix(t.escorts + " + flags", r)
    ensures t.notes != "" ==> IsSuffix(" -- " + t.notes, r)
    ensures !t.flags && t.notes == "" ==> r == t.escorts
    ensures |r| == |t.escorts| + (if t.flags then 8 else 0) + (if t.notes != "" then 4 + |t.notes| else 0)
  {
    t.escorts + (if t.flags then " + flags" else "") + (if t.notes != "" then " -- " + t.notes else "")
  }

  /** The first tier, in list order, whose threshold `d` is strictly over. */
  function FirstMatch(tiers: seq<Tier>, d: int): (r: Option<nat>)
    ensures r.Some? ==> r.value < |tiers| && d > tiers[r.value].overIn
    ensures r.Some? ==> forall j :: 0 <= j < r.value ==> d <= tiers[j].overIn
    ensures r.None? <==> forall j :: 0 <= j < |tiers| ==> d <= tiers[j].overIn
  {
    if |tiers| == 0 then None
    else if d > tiers[0].overIn then Some(0)
    else match FirstMatch(tiers[1..], d)
      case None => None
      case Some(k) => Some(k + 1)
  }

  /** What one axis adds to the escort summary: at most the first matching tier. */
  function AxisPart(tiers: seq<Tier>, d: int): (part: seq<string>)
    ensures |part| <= 1
    ensures part == [] <==> forall j :: 0 <= j < |tiers| ==> d <= tiers[j].overIn
  {
    match FirstMatch(tiers, d)
    case None => []
    case Some(i) => [FormatTier(tiers[i])]
  }

  /** The escort parts of all three axes, in width, length, height order. */
  function EscortParts(e: EscortTable, dims: Dims): (parts: seq<string>)
    ensures |parts| <= 3
    ensures parts == [] <==>
              (forall j :: 0 <= j < |TiersFor(e.width, dims.roadType)| ==>
                 dims.widthIn <= TiersFor(e.width, dims.roadType)[j].overIn)
              && (forall j :: 0 <= j < |TiersFor(e.length, dims.roadType)| ==>
                    dims.lengthIn <= TiersFor(e.length, dims.roadType)[j].overIn)
              && (forall j :: 0 <= j < |TiersFor(e.height, dims.roadType)| ==>
                    dims.heightIn <= TiersFor(e.height, dims.roadType)[j].overIn)
  {
    AxisPart(TiersFor(e.width, dims.roadType), dims.widthIn)
      + AxisPart(TiersFor(e.length, dims.roadType), dims.lengthIn)
      + AxisPart(TiersFor(e.height, dims.roadType), dims.heightIn)
  }

  /**
   * The parts separated by `sep`, as an array join does: the text starts with
   * the first part, ends with the last, and adds one separator between each
   * two neighbours.
   */
  function Join(parts: seq<string>, sep: string): (r: string)
    ensures |parts| > 0 ==> IsPrefix(parts[0], r) && IsSuffix(parts[|parts| - 1], r)
    ensures |parts| > 0 ==> |r| == TotalLength(parts) + (|parts| - 1) * |sep|
  {
    if |parts| == 0 then ""
    else if |parts| == 1 then parts[0]
    else parts[0] + sep + Join(parts[1..], sep)
  }

  /** The summed lengths of the parts. */
  function TotalLength(parts: seq<string>): nat {
    if |parts| == 0 then 0 else |parts[0]| + TotalLength(parts[1..])
  }

  /** Joining a list of two or more parts: the first part, the separator, then the join of the rest. */
  lemma JoinStep(parts: seq<string>, sep: string)
    requires |parts| >= 2
    ensures Join(parts, sep) == parts[0] + sep + Join(parts[1..], sep)
  {
  }

  lemma JoinUpToThree(a: string, b: string, c: string, sep: string)
    ensures Join([a], sep) == a
    ensures Join([a, b], sep) == a + sep + b
    ensures Join([a, b, c], sep) == a + sep + b + sep + c
  {
    JoinStep([b, c], sep);
    assert [b, c][1..] == [c];
    JoinStep([a, b], sep);
    assert [a, b][1..] == [b];
    JoinStep([a, b, c], sep);
    assert [a, b, c][1..] == [b, c];
  }

  /**
   * The escort summary: the fixed "none" text when no axis has a part,
   * otherwise the parts joined by "; ", starting with the first axis's part
   * and ending with the last one's.
   */
  function EscortSummary(e: EscortTable, dims: Dims): (r: string)
    ensures EscortParts(e, dims) == [] ==> r == NO_ESCORT
    ensures var p := EscortParts(e, dims); |p| > 0 ==> IsPrefix(p[0], r) && IsSuffix(p[|p| - 1], r)
    ensures var p := EscortParts(e, dims); |p| > 0 ==> |r| == TotalLength(p) + 2 * (|p| - 1)
  {
    var parts := EscortParts(e, dims);
    if |parts| > 0 then Join(parts, "; ") else NO_ESCORT
  }

  /**
   * The high-pole text: "Not indicated" without a threshold; otherwise "Yes ..."
   * exactly when the height is strictly over it, else "No"; then the notes.
   */
  function HighPoleSummary(hp: Option<HighPole>, heightIn: int): (r: string)
    ensures hp.None? ==> r == HIGH_POLE_UNKNOWN
    ensures IsPrefix(HIGH_POLE_YES, r) <==> hp.Some? && heightIn > hp.value.requiredOverHeightIn
    ensures hp.Some? && heightIn <= hp.value.requiredOverHeightIn ==> IsPrefix(HIGH_POLE_NO, r)
    ensures hp.Some? && hp.value.notes == "" ==> r == HIGH_POLE_YES || r == HIGH_POLE_NO
    ensures hp.Some? && hp.value.notes != "" ==> IsSuffix(" -- " + hp.value.notes, r)
    ensures hp.Some? ==>
              |r| == (if heightIn > hp.value.requiredOverHeightIn then |HIGH_POLE_YES| else |HIGH_POLE_NO|)
                     + (if hp.value.notes != "" then 4 + |hp.value.notes| else 0)
  {
    match hp
    case None => HIGH_POLE_UNKNOWN
    case Some(p) =>
      var base := if heightIn > p.requiredOverHeightIn then HIGH_POLE_YES else HIGH_POLE_NO;
      var r := if p.notes != "" then base + " -- " + p.notes else base;
      assert r[0] == base[0] && r[..|base|] == base;
      assert base == HIGH_POLE_YES <==> base[0] == 'Y';
      assert IsPrefix(HIGH_POLE_YES, r) ==> r[0] == 'Y' by {
        if IsPrefix(HIGH_POLE_YES, r) {
          assert r[..|HIGH_POLE_YES|][0] == r[0];
        }
      }
      r
  }

  /** The verdict for `code` under `rules`: the reference definition of the evaluator. */
  function Evaluate(rules: map<string, Rule>, code: string, dims: Dims): (v: Verdict)
    ensures v.NoDataVerdict? <==> code !in rules || rules[code].NoData?
    ensures v.OkVerdict? ==> (v.permit <==> v.over.overWidth || v.over.overHeight || v.over.overLength || v.over.overWeight)
    ensures v.OkVerdict? ==> v.over.overWidth == (dims.widthIn > rules[code].legalMax.widthIn)
    ensures v.OkVerdict? ==> v.over.overHeight == (dims.heightIn > rules[code].legalMax.heightIn)
    ensures v.OkVerdict? ==> v.over.overLength == (dims.lengthIn > rules[code].legalMax.lengthIn)
    ensures v.OkVerdict? ==> v.over.overWeight == (dims.grossLbs > rules[code].legalMax.grossLbs)
    ensures v.OkVerdict? ==> v.escort == EscortSummary(rules[code].escort, dims)
    ensures v.OkVerdict? ==> v.highPole == HighPoleSummary(rules[code].highPole, dims.heightIn)
  {
    if code !in rules || rules[code].NoData? then NoDataVerdict
    else
      var r := rules[code];
      var lm := r.legalMax;
      var over := Over(dims.widthIn > lm.widthIn, dims.heightIn > lm.heightIn,
                       dims.lengthIn > lm.lengthIn, dims.grossLbs > lm.grossLbs);
      OkVerdict(
        over.overWidth || over.overHeight || over.overLength || over.overWeight,
        over,
        EscortSummary(r.escort, dims),
        HighPoleSummary(r.highPole, dims.heightIn),
        if r.travel != "" then r.travel else NO_TRAVEL,
        lm,
        r.sources)
  }

  /** Scans the tiers in order and appends the text of the first one that `d` is strictly over. */
  method PushFirstMatch(tiers: seq<Tier>, d: int, bits: seq<string>) returns (bits': seq<string>)
    ensures FirstMatch(tiers, d).None? ==> bits' == bits
    ensures FirstMatch(tiers, d).Some? ==> bits' == bits + [FormatTier(tiers[FirstMatch(tiers, d).value])]
    ensures bits' == bits + AxisPart(tiers, d)
  {
    bits' := bits;
    var i := 0;
    while i < |tiers|
      invariant 0 <= i <= |tiers|
      invariant forall j :: 0 <= j < i ==> d <= tiers[j].overIn
      invariant bits' == bits
    {
      if d > tiers[i].overIn {
        bits' := bits' + [FormatTier(tiers[i])];
        break;
      }
      i := i + 1;
    }
  }

  /** The escort text: one tier scan per axis, in width, length, height order. */
  method EscortText(e: EscortTable, dims: Dims) returns (escort: string)
    ensures escort == EscortSummary(e, dims)
  {
    var rt := dims.roadType;
    var escortBits: seq<string> := [];
    escortBits := PushFirstMatch(TiersFor(e.width, rt), dims.widthIn, escortBits);
    escortBits := PushFirstMatch(TiersFor(e.length, rt), dims.lengthIn, escortBits);
    escortBits := PushFirstMatch(TiersFor(e.height, rt), dims.heightIn, escortBits);
    assert escortBits == EscortParts(e, dims);
    escort := if |escortBits| > 0 then Join(escortBits, "; ") else NO_ESCORT;
  }

  /** The high-pole text, built by reassigning and then appending the notes. */
  method HighPoleText(hp: Option<HighPole>, heightIn: int) returns (highPole: string)
    ensures highPole == HighPoleSummary(hp, heightIn)
  {
    highPole := HIGH_POLE_UNKNOWN;
    if hp.Some? {
      highPole := if heightIn > hp.value.requiredOverHeightIn then HIGH_POLE_YES else HIGH_POLE_NO;
      if hp.value.notes != "" {
        highPole := highPole + " -- " + hp.value.notes;
      }
    }
  }

  /** The evaluator as the checker runs it: three tier scans and a high-pole check. */
  method NeedsPermitForState(rules: map<string, Rule>, stateCode: string, dims: Dims) returns (v: Verdict)
    ensures v == Evaluate(rules, stateCode, dims)
  {
    if stateCode !in rules || rules[stateCode].NoData? {
      return NoDataVerdict;
    }
    var r := rules[stateCode];
    var lm := r.legalMax;
    var overWidth := dims.widthIn > lm.widthIn;
    var overHeight := dims.heightIn > lm.heightIn;
    var overLength := dims.lengthIn > lm.lengthIn;
    var overWeight := dims.grossLbs > lm.grossLbs;
    var permit := overWidth || overHeight || overLength || overWeight;

    var escort := EscortText(r.escort, dims);

    var highPole := HighPoleText(r.highPole, dims.heightIn);
    v := OkVerdict(
      permit,
      Over(overWidth, overHeight, overLength, overWeight),
      escort,
      highPole,
      if r.travel != "" then r.travel else NO_TRAVEL,
      lm,
      r.sources);
  }

  /** A state without data yields exactly the "no data" verdict, whatever the dimensions. */
  lemma NoDataShortCircuit(rules: map<string, Rule>, code: string, dims: Dims, other: Dims)
    ensures Evaluate(rules, code, dims).NoDataVerdict? <==> code !in rules || rules[code].NoData?
    ensures code !in rules || rules[code].NoData? ==>
              Evaluate(rules, code, dims) == NoDataVerdict && Evaluate(rules, code, other) == NoDataVerdict
  {
  }

  /**
   * For a state with data: each limit test is strictly-greater, a permit is
   * needed exactly when some limit is exceeded, and the legal maximums,
   * sources and travel notes are echoed.
   */
  lemma OkVerdictFields(rules: map<string, Rule>, code: string, dims: Dims)
    requires code in rules && rules[code].Ok?
    ensures var v, r := Evaluate(rules, code, dims), rules[code];
      && v.OkVerdict?
      && v.over.overWidth == (dims.widthIn > r.legalMax.widthIn)
      && v.over.overHeight == (dims.heightIn > r.legalMax.heightIn)
      && v.over.overLength == (dims.lengthIn > r.legalMax.lengthIn)
      && v.over.overWeight == (dims.grossLbs > r.legalMax.grossLbs)
      && (v.permit <==> v.over.overWidth || v.over.overHeight || v.over.overLength || v.over.overWeight)
      && v.legalMax == r.legalMax
      && v.sources == r.sources
      && v.travel == (if r.travel == "" then NO_TRAVEL else r.travel)
  {
  }

  /** Dimensions at or under every legal maximum, equality included, need no permit. */
  lemma WithinLegalMaxNoPermit(rules: map<string, Rule>, code: string, dims: Dims)
    requires code in rules && rules[code].Ok?
    requires dims.widthIn <= rules[code].legalMax.widthIn
    requires dims.heightIn <= rules[code].legalMax.heightIn
    requires dims.lengthIn <= rules[code].legalMax.lengthIn
    requires dims.grossLbs <= rules[code].legalMax.grossLbs
    ensures Evaluate(rules, code, dims).OkVerdict?
    ensures !Evaluate(rules, code, dims).permit
    ensures Evaluate(rules, code, dims).over == Over(false, false, false, false)
  {
  }

  /**
   * Raising a dimension never loses a match: the tier selected at the larger
   * value is the same one or an earlier one in the list.
   */
  lemma FirstMatchMonotone(tiers: seq<Tier>, d: int, d': int)
    requires d <= d'
    requires FirstMatch(tiers, d).Some?
    ensures FirstMatch(tiers, d').Some?
    ensures FirstMatch(tiers, d').value <= FirstMatch(tiers, d).value
  {
  }

  /** In a descending list the first match is the tier with the largest threshold the dimension exceeds. */
  lemma FirstMatchDescending(tiers: seq<Tier>, d: int)
    requires Descending(tiers)
    requires FirstMatch(tiers, d).Some?
    ensures forall j :: 0 <= j < |tiers| && d > tiers[j].overIn ==>
              tiers[j].overIn <= tiers[FirstMatch(tiers, d).value].overIn
  {
  }

  /**
   * The escort summary: each axis contributes at most the text of its first
   * matching tier, the parts come in width, length, height order joined by
   * "; ", and with no part the summary is the fixed "none" text.
   */
  lemma EscortSummaryShape(e: EscortTable, dims: Dims)
    ensures var w := AxisPart(TiersFor(e.width, dims.roadType), dims.widthIn);
      var l := AxisPart(TiersFor(e.length, dims.roadType), dims.lengthIn);
      var h := AxisPart(TiersFor(e.height, dims.roadType), dims.heightIn);
      var p, s := w + l + h, EscortSummary(e, dims);
      && |p| <= 3
      && (p == [] ==> s == NO_ESCORT)
      && (|p| == 1 ==> s == p[0])
      && (|p| == 2 ==> s == p[0] + "; " + p[1])
      && (|p| == 3 ==> s == w[0] + "; " + l[0] + "; " + h[0])
  {
    var w := AxisPart(TiersFor(e.width, dims.roadType), dims.widthIn);
    var l := AxisPart(TiersFor(e.length, dims.roadType), dims.lengthIn);
    var h := AxisPart(TiersFor(e.height, dims.roadType), dims.heightIn);
    var p := w + l + h;
    assert p == EscortParts(e, dims);
    if |p| == 1 {
      assert p == [p[0]];
      JoinUpToThree(p[0], "", "", "; ");
    } else if |p| == 2 {
      assert p == [p[0], p[1]];
      JoinUpToThree(p[0], p[1], "", "; ");
    } else if |p| == 3 {
      assert p == [w[0], l[0], h[0]];
      JoinUpToThree(w[0], l[0], h[0], "; ");
    }
  }

  /** With every dimension at or under every tier threshold, no escort is indicated. */
  lemma NoEscortUnderAllTiers(e: EscortTable, dims: Dims)
    requires forall j :: 0 <= j < |TiersFor(e.width, dims.roadType)| ==>
               dims.widthIn <= TiersFor(e.width, dims.roadType)[j].overIn
    requires forall j :: 0 <= j < |TiersFor(e.length, dims.roadType)| ==>
               dims.lengthIn <= TiersFor(e.length, dims.roadType)[j].overIn
    requires forall j :: 0 <= j < |TiersFor(e.height, dims.roadType)| ==>
               dims.heightIn <= TiersFor(e.height, dims.roadType)[j].overIn
    ensures EscortSummary(e, dims) == NO_ESCORT
  {
  }
}
