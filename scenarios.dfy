/**
 * Oklahoma's table at the sample dimensions the checker is meant for, each
 * stated for the whole range of dimensions that behave alike.
 */
module Scenarios {
  import opened Wrappers
  import opened Rules
  import opened Evaluator

  const OK_HIGH_POLE_NOTES: string := OK_RULE.highPole.value.notes

  // Escort parts of Oklahoma's tiers, written as the pieces they are formatted from.
  const ONE_FRONT: string := "1F" + " + flags"
  const HIGH_POLE_ESCORT: string := "1F (high-pole)" + " + flags"
  const VERY_WIDE: string := "1F+1R" + " + flags" + " -- " + "Very wide on 2-lane."

  /** Oklahoma's verdict, with the escort and high-pole texts left to the summary functions. */
  lemma OklahomaVerdict(dims: Dims)
    ensures Evaluate(STATE_RULES, "OK", dims) == OkVerdict(
      dims.widthIn > 102 || dims.heightIn > 168 || dims.lengthIn > 960 || dims.grossLbs > 80000,
      Over(dims.widthIn > 102, dims.heightIn > 168, dims.lengthIn > 960, dims.grossLbs > 80000),
      EscortSummary(OK_RULE.escort, dims),
      HighPoleSummary(OK_RULE.highPole, dims.heightIn),
      OK_RULE.travel,
      LegalMax(102, 168, 960, 80000),
      ["https://www.ok.gov/"])
  {
    StateRulesComplete();
  }

  /** Oklahoma's high-pole text: "Yes" strictly over 15 ft, "No" otherwise, each followed by the note. */
  lemma OklahomaHighPole(heightIn: int)
    ensures heightIn > 180 ==> HighPoleSummary(OK_RULE.highPole, heightIn) == HIGH_POLE_YES + " -- " + OK_HIGH_POLE_NOTES
    ensures heightIn <= 180 ==> HighPoleSummary(OK_RULE.highPole, heightIn) == HIGH_POLE_NO + " -- " + OK_HIGH_POLE_NOTES
  {
  }

  /** At or under every legal maximum (equality included): no permit, no escort, no high pole. */
  lemma WithinOklahomaLimits(dims: Dims)
    requires dims.widthIn <= 102 && dims.heightIn <= 168 && dims.lengthIn <= 960 && dims.grossLbs <= 80000
    ensures var v := Evaluate(STATE_RULES, "OK", dims);
      && v.OkVerdict? && !v.permit && v.over == Over(false, false, false, false)
      && v.escort == NO_ESCORT
      && v.highPole == HIGH_POLE_NO + " -- " + OK_HIGH_POLE_NOTES
  {
    NoEscortUnderAllTiers(OK_RULE.escort, dims);
    OklahomaHighPole(dims.heightIn);
    OklahomaVerdict(dims);
  }

  /** Over 8 ft 6 in but at most 10 ft wide on a two-lane road: a permit, but no width escort (not strictly over 10 ft). */
  lemma OverWidthUnescortedTwoLane(dims: Dims)
    requires dims.roadType == Two
    requires 102 < dims.widthIn <= 120 && dims.heightIn <= 180 && dims.lengthIn <= 1020
    ensures var v := Evaluate(STATE_RULES, "OK", dims);
      v.OkVerdict? && v.permit && v.over.overWidth && v.escort == NO_ESCORT
  {
    NoEscortUnderAllTiers(OK_RULE.escort, dims);
    OklahomaVerdict(dims);
  }

  /** A width-only part: the summary is that part alone. */
  lemma WidthOnlySummary(dims: Dims, part: string)
    requires AxisPart(TiersFor(OK_RULE.escort.width, dims.roadType), dims.widthIn) == [part]
    requires dims.lengthIn <= 1020 && dims.heightIn <= 180
    ensures EscortSummary(OK_RULE.escort, dims) == part
  {
    assert AxisPart(TiersFor(OK_RULE.escort.length, dims.roadType), dims.lengthIn) == [];
    assert AxisPart(TiersFor(OK_RULE.escort.height, dims.roadType), dims.heightIn) == [];
    assert EscortParts(OK_RULE.escort, dims) == [part];
    JoinUpToThree(part, "", "", "; ");
  }

  /** Over 10 ft and at most 12 ft wide on a two-lane road: the second width tier applies. */
  lemma SecondWidthTierTwoLane(dims: Dims)
    requires dims.roadType == Two
    requires 120 < dims.widthIn <= 144 && dims.heightIn <= 180 && dims.lengthIn <= 1020
    ensures var v := Evaluate(STATE_RULES, "OK", dims);
      v.OkVerdict? && v.permit && v.escort == ONE_FRONT
  {
    assert AxisPart(OK_RULE.escort.width.two, dims.widthIn) == [ONE_FRONT] by {
      assert FirstMatch(OK_RULE.escort.width.two, dims.widthIn) == Some(1);
      assert FormatTier(OK_RULE.escort.width.two[1]) == ONE_FRONT;
    }
    WidthOnlySummary(dims, ONE_FRONT);
    OklahomaVerdict(dims);
  }

  /** Over 12 ft wide on a two-lane road, the first and stricter width tier is the only escort part. */
  lemma FirstWidthTierSummary(dims: Dims)
    requires dims.roadType == Two
    requires dims.widthIn > 144 && dims.heightIn <= 180 && dims.lengthIn <= 1020
    ensures EscortSummary(OK_RULE.escort, dims) == VERY_WIDE
  {
    assert AxisPart(OK_RULE.escort.width.two, dims.widthIn) == [VERY_WIDE] by {
      assert FirstMatch(OK_RULE.escort.width.two, dims.widthIn) == Some(0);
      assert FormatTier(OK_RULE.escort.width.two[0]) == VERY_WIDE;
    }
    WidthOnlySummary(dims, VERY_WIDE);
  }

  /** Over 12 ft wide on a two-lane road: the first, stricter tier wins, with its note. */
  lemma FirstWidthTierTwoLane(dims: Dims)
    requires dims.roadType == Two
    requires dims.widthIn > 144 && dims.heightIn <= 180 && dims.lengthIn <= 1020
    ensures var v := Evaluate(STATE_RULES, "OK", dims);
      v.OkVerdict? && v.permit && v.escort == VERY_WIDE
  {
    FirstWidthTierSummary(dims);
    OklahomaVerdict(dims);
  }

  /** Over 15 ft high (and not wide or long enough for an escort): high pole indicated and the height tier applies. */
  lemma OverFifteenFeetHigh(dims: Dims)
    requires dims.heightIn > 180 && dims.widthIn <= 120 && dims.lengthIn <= 1020
    ensures var v := Evaluate(STATE_RULES, "OK", dims);
      && v.OkVerdict? && v.permit && v.over.overHeight
      && v.highPole == HIGH_POLE_YES + " -- " + OK_HIGH_POLE_NOTES
      && v.escort == HIGH_POLE_ESCORT
  {
    var tiers := TiersFor(OK_RULE.escort.height, dims.roadType);
    assert AxisPart(tiers, dims.heightIn) == [HIGH_POLE_ESCORT] by {
      assert FirstMatch(tiers, dims.heightIn) == Some(0);
      assert FormatTier(tiers[0]) == HIGH_POLE_ESCORT;
    }
    assert AxisPart(TiersFor(OK_RULE.escort.width, dims.roadType), dims.widthIn) == [];
    assert AxisPart(TiersFor(OK_RULE.escort.length, dims.roadType), dims.lengthIn) == [];
    assert EscortParts(OK_RULE.escort, dims) == [HIGH_POLE_ESCORT];
    JoinUpToThree(HIGH_POLE_ESCORT, "", "", "; ");
    OklahomaHighPole(dims.heightIn);
    OklahomaVerdict(dims);
  }

  /** The three escort parts on a multi-lane road, in width, length, height order. */
  lemma AllThreeAxesParts(dims: Dims)
    requires dims.roadType == Multi
    requires 138 < dims.widthIn <= 144 && dims.lengthIn > 1140 && dims.heightIn > 180
    ensures EscortParts(OK_RULE.escort, dims) == [ONE_FRONT, "1R", HIGH_POLE_ESCORT]
  {
    assert AxisPart(OK_RULE.escort.width.multi, dims.widthIn) == [ONE_FRONT] by {
      assert FirstMatch(OK_RULE.escort.width.multi, dims.widthIn) == Some(1);
      assert FormatTier(OK_RULE.escort.width.multi[1]) == ONE_FRONT;
    }
    assert AxisPart(OK_RULE.escort.length.multi, dims.lengthIn) == ["1R"] by {
      assert FirstMatch(OK_RULE.escort.length.multi, dims.lengthIn) == Some(0);
      assert FormatTier(OK_RULE.escort.length.multi[0]) == "1R";
    }
    assert AxisPart(OK_RULE.escort.height.multi, dims.heightIn) == [HIGH_POLE_ESCORT] by {
      assert FirstMatch(OK_RULE.escort.height.multi, dims.heightIn) == Some(0);
      assert FormatTier(OK_RULE.escort.height.multi[0]) == HIGH_POLE_ESCORT;
    }
  }

  /** On the same range the summary joins the three parts with "; ". */
  lemma AllThreeAxesSummary(dims: Dims)
    requires dims.roadType == Multi
    requires 138 < dims.widthIn <= 144 && dims.lengthIn > 1140 && dims.heightIn > 180
    ensures EscortSummary(OK_RULE.escort, dims) == ONE_FRONT + "; " + "1R" + "; " + HIGH_POLE_ESCORT
  {
    AllThreeAxesParts(dims);
    JoinUpToThree(ONE_FRONT, "1R", HIGH_POLE_ESCORT, "; ");
  }

  /** Over every limit at once on a multi-lane road: a permit, and all three escort parts. */
  lemma AllThreeAxesMultiLane(dims: Dims)
    requires dims.roadType == Multi
    requires 138 < dims.widthIn <= 144 && dims.lengthIn > 1140 && dims.heightIn > 180
    ensures var v := Evaluate(STATE_RULES, "OK", dims);
      v.OkVerdict? && v.permit
      && v.escort == ONE_FRONT + "; " + "1R" + "; " + HIGH_POLE_ESCORT
  {
    AllThreeAxesSummary(dims);
    OklahomaVerdict(dims);
  }
}
