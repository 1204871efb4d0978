# Permit checker rule evaluator, in Dafny

This project models the core of a static oversize-load permit checker for
the 48 contiguous U.S. states. Given a vehicle's width, height and length
(feet and inches), its gross weight and a road type (two-lane or
multi-lane), the checker looks each selected state up in a rule table. It
reports whether a permit is likely needed, which legal maximums are
exceeded, which escort tier applies on each axis, and whether a high-pole
vehicle is indicated. Only Oklahoma has data. Every other state has a
"no data" stub.

Modules, one per part of `app.js`:

- `Units` (units.dfy): `toInches` and `fmtInches`, plus the decimal
  rendering of integers that `fmtInches` relies on.
- `Rules` (rules.dfy): the rule datatypes, `STATES_48`, Oklahoma's entry
  and the table built from them.
- `Evaluator` (evaluator.dfy): `needsPermitForState`. The reference
  definition is the function `Evaluate`. The method `NeedsPermitForState`
  does what the source does: a tier-scan loop with `break` per axis, an
  escort list it appends to, and a high-pole string it reassigns and
  extends. Its postcondition ties it to `Evaluate`.
- `Check` (check.dfy): the click handler minus its page reads. Form readings
  become dimensions, an empty selection defaults to `"OK"`, and each state
  gets one row, in the order the page passes the selected codes.
- `Scenarios` (scenarios.dfy): Oklahoma's table checked over ranges of
  dimensions.
- `Wrappers` (wrappers.dfy): `Option`.

Oklahoma's values are modelled as the code gives them, not as its comments
say. The legal height is `14*12` = 168 in, although the comment says 13′6″.
The legal length is `80*12` = 960 in, although the comment says 65′.

Inches and pounds are `int`. There is no JavaScript number coercion. The
form reads an invalid entry as 0 before the model sees it.

## Model

| member | source | states |
|---|---|---|
| `Units.ToInches` | app.js:18-21 | The total is never negative. It equals `ft*12 + inch` whenever that sum is non-negative, and is 0 otherwise. |
| `Units.FeetPart` | app.js:25 | The feet are the floor of inches/12: `ft*12 <= inches < ft*12 + 12`. |
| `Units.InchPart` | app.js:26 | For non-negative totals the inches are in [0, 12) and recombine with the feet to the total. For negative totals the remainder keeps the sign, as JavaScript's `%` does. |
| `Units.DecimalString` | app.js:27 | An interpolated integer prints as a minus sign exactly when it is negative, followed by decimal digits. It always has at least one digit: every character after the first is a digit, the first is a digit for non-negative numbers, and a negative number prints with two or more characters. |
| `Units.NatDecimal` | app.js:27 | A natural number prints as one or more decimal digits, with a leading zero only for 0 itself. |
| `Units.NatDecimalRoundTrip` | app.js:27 | Reading the printed digits of a natural number back gives the number. |
| `Units.DecimalRoundTrip` | app.js:27 | Reading a printed integer back, sign included, gives the integer. |
| `Units.DecimalStringInjective` | app.js:27 | Distinct integers print differently. |
| `Units.FeetInchesRoundTrip` | app.js:18-28 | For `ft >= 0` and `0 <= inch < 12`, formatting `toInches(ft, inch)` gives back exactly `ft` feet and `inch` inches, and prints them. |
| `Units.SplitRecombine` | app.js:18-28 | For a non-negative total, `toInches` of its feet and inches parts gives the total back. |
| `Units.FmtInches` | app.js:24-28 | The printed feet, the floor of inches/12, are exactly the text before the first ′. After the ′ come a space, the printed inches (the remainder, whose sign follows the total) and the ″. |
| `Units.FmtInchesInjective` | app.js:24-28 | Distinct non-negative lengths format to distinct texts, so the legal baseline display is unambiguous. |
| `Rules.WithStubs` | app.js:53-106 | The table has an entry for every listed state and for "OK", and for nothing else. The explicit "OK" entry survives the stub overlay. Every other entry is "no data". |
| `Rules.StateRulesComplete` | app.js:11-106 | In `Rules.STATE_RULES`, built from `Rules.STATES_48` and `Rules.OK_RULE`, the keys are exactly the 48 listed states. "OK" maps to Oklahoma's rule and is the only state with data. |
| `Rules.OkTiersDescending` | app.js:64-91 | Each of Oklahoma's tier lists, on both road types, is in non-increasing threshold order. |
| `Evaluator.FormatTier` | app.js:149 | The text is exactly the escorts, then " + flags" when flags are set, then " -- notes" when notes are non-empty. The prefix, suffix and length clauses together pin it, so nothing else can appear in between. |
| `Evaluator.FirstMatch` | app.js:147-152 | The selected index is a tier the dimension is strictly over, and every earlier tier is not exceeded. There is no match exactly when no tier is exceeded. |
| `Evaluator.AxisPart` | app.js:147-152 | An axis contributes at most one part. It contributes none exactly when the dimension is at or under every threshold. |
| `Evaluator.Join` | app.js:181 | A join of one or more parts starts with the first part and ends with the last. Its length is the parts' total plus one separator for each neighbouring pair. |
| `Evaluator.JoinUpToThree` | app.js:181 | Joining one, two or three parts with a separator puts the separator only between parts. |
| `Evaluator.HighPoleSummary` | app.js:168-175 | "Not indicated" without a threshold. Otherwise the text starts with "Yes (high-pole advised/required)" exactly when the height is strictly over the threshold, and with "No" otherwise. It ends in " -- notes" when notes are present. Its length is that of the chosen answer plus " -- notes", so nothing else appears in between. |
| `Evaluator.EscortParts` | app.js:143-166 | Each axis's tiers are taken for the road type, which is the `[rt]` lookup. There are at most three parts. There are none exactly when every dimension is at or under every threshold of its own axis. |
| `Evaluator.EscortSummary` | app.js:181 | The fixed "None indicated by current table" when there are no parts. Otherwise the text starts with the first part and ends with the last. Its length leaves exactly one two-character separator between each neighbouring pair. `Evaluator.EscortSummaryShape` gives the exact "; "-joined text. |
| `Evaluator.PushFirstMatch` | app.js:147-166 | The scan appends the text of the first tier the dimension is strictly over, and nothing when there is none. |
| `Evaluator.EscortText` | app.js:143-181 | The three scans, width then length then height, followed by the join or the fixed "None indicated by current table". The result equals `EscortSummary`. |
| `Evaluator.HighPoleText` | app.js:168-175 | Reassigning and then appending to the high-pole text yields `HighPoleSummary`. |
| `Evaluator.Evaluate` | app.js:130-187 | The verdict is "no data" exactly for a missing or stub entry. Otherwise each over flag is the strict test against the legal maximum. The permit is the OR of the four flags. The escort and high-pole texts are those of their summaries. |
| `Evaluator.NeedsPermitForState` | app.js:130-187 | The method's verdict equals the reference `Evaluate`, whose properties are the lemmas below. |
| `Evaluator.NoDataShortCircuit` | app.js:131-132 | The verdict is "no data" exactly when the state has no entry or a "no data" entry. It is then the same for all dimensions. |
| `Evaluator.OkVerdictFields` | app.js:134-186 | For a state with data, each over flag is the strict test `dims.X > legal_max.X`. The permit is the OR of the four flags. The legal maximums and sources are echoed unchanged. Empty travel notes become "--". |
| `Evaluator.WithinLegalMaxNoPermit` | app.js:135-140 | Dimensions at or under every legal maximum, equality included, raise no flag and need no permit. |
| `Evaluator.FirstMatchMonotone` | app.js:147-152 | Increasing a dimension never loses a match. The selected tier stays the same or moves earlier. |
| `Evaluator.FirstMatchDescending` | app.js:147-152 | In a descending tier list, the first match has the largest threshold among the tiers the dimension exceeds. |
| `Evaluator.EscortSummaryShape` | app.js:144-181 | Each axis gives at most one part, so there are at most three. The parts appear in width, length, height order, joined by "; ". With no part the summary is "None indicated by current table". |
| `Evaluator.NoEscortUnderAllTiers` | app.js:144-181 | A dimension at or under every threshold of its axis on every axis gives the "none indicated" summary. |
| `Check.FormDims` | app.js:256-269 | Width, height and length each equal feet*12+inches when that sum is non-negative, and 0 when it is negative. The gross weight and road type pass through unclamped. |
| `Check.CheckSelected` | app.js:263-274 | An empty selection yields exactly one row, for "OK". Otherwise there is one row per selected code, in the order of `selected` as the page passes them (the list order of the options), each carrying its code and that code's verdict. |
| `Check.OnlyOklahomaHasData` | app.js:53-132 | Under the shipped table, a code yields a verdict with data exactly when it is "OK". Every other code, listed or not, gets "no data". |
| `Scenarios.OklahomaVerdict` | app.js:55-98 | Oklahoma's verdict (`Rules.OK_RULE`) checks 102 in, 168 in, 960 in and 80000 lbs, and echoes its travel notes, legal maximums and source. |
| `Scenarios.OklahomaHighPole` | app.js:92-95 | In Oklahoma the high-pole text is "Yes" strictly over 180 in and "No" otherwise, each followed by the note. |
| `Scenarios.WithinOklahomaLimits` | app.js:57-62 | At or under Oklahoma's limits, including exactly 102/168/960/80000: no permit, no flag, no escort, and a "No" high-pole text. |
| `Scenarios.OverWidthUnescortedTwoLane` | app.js:66-69 | On a two-lane road, a vehicle more than 102 in but at most 120 in wide (120 in itself included) needs a permit but gets no escort. This holds when it is at most 180 in high and at most 1020 in long. |
| `Scenarios.SecondWidthTierTwoLane` | app.js:66-69 | On a two-lane road, a vehicle more than 120 in and at most 144 in wide (121 in included) needs a permit and gets exactly "1F + flags". This holds when it is at most 180 in high and at most 1020 in long. |
| `Scenarios.FirstWidthTierSummary` | app.js:67 | On a two-lane road, a vehicle more than 144 in wide gets the stricter first tier's text together with its note. This holds when it is at most 180 in high and at most 1020 in long. |
| `Scenarios.FirstWidthTierTwoLane` | app.js:66-69 | On a two-lane road, a vehicle more than 144 in wide needs a permit and gets "1F+1R + flags -- Very wide on 2-lane.". This holds when it is at most 180 in high and at most 1020 in long. |
| `Scenarios.OverFifteenFeetHigh` | app.js:83-95 | A vehicle more than 180 in high (181 in included) is over height and gets the "Yes" high-pole text with its note. Its only escort is the height tier "1F (high-pole) + flags". This holds when it is at most 120 in wide and at most 1020 in long. |
| `Scenarios.AllThreeAxesParts` | app.js:64-91 | On a multi-lane road, for a vehicle more than 138 in and at most 144 in wide, more than 1140 in long and more than 180 in high: the width, length and height parts are "1F + flags", "1R" and "1F (high-pole) + flags". |
| `Scenarios.AllThreeAxesSummary` | app.js:64-91 | On a multi-lane road, for a vehicle more than 138 in and at most 144 in wide, more than 1140 in long and more than 180 in high: the summary is "1F + flags; 1R; 1F (high-pole) + flags". |
| `Scenarios.AllThreeAxesMultiLane` | app.js:64-91 | On a multi-lane road, for a vehicle more than 138 in and at most 144 in wide, more than 1140 in long and more than 180 in high: a permit is needed, and the escort text lists the three parts in width, length, height order. |

## Left out

- The service worker (sw.js): asset caching, activation clean-up and network fallback are browser I/O, with no evaluation logic.
- Page access and rendering: `readNumber`'s element lookup, `fillStates`, the HTML table built by `renderResults`, and the button wiring. `Check.CheckSelected` takes the form readings and the selected codes as parameters.
- The locale-dependent formatting of the gross weight (`toLocaleString`) in the legal-baseline text.
- JavaScript number handling: `Number()` coercion, `NaN`, `isFinite` and fractional values. Inputs are integers, and an invalid reading is 0.
- `Math.round` on a fractional remainder, which can print 12″ for 11.6 in. On integers it changes nothing, so `fmtInches` is modelled on integers only.
- The exponent form JavaScript uses to print integers of 10^21 and above. Integers print as plain decimal digits.
- The optional-chaining defaults for missing escort data. A missing tier list is an empty sequence. A missing high-pole threshold is `None`. Missing sources are an empty sequence.
- Road-type values other than two-lane and multi-lane, which the page's selector never produces. The source would treat them as having no tiers.
- Status strings other than "ok" and "noData". The only statuses the table holds are those two, modelled as `Ok` and `NoData`.
