/**
 * The per-state rule table: legal maximum dimensions and weight, escort
 * tiers per axis and road type, a high-pole threshold, travel notes and
 * sources. Oklahoma is the only state with data; every other state of the
 * 48 contiguous states gets a "no data" stub.
 */
module Rules {
  import opened Wrappers

  datatype RoadType = Two | Multi

  /** One escort tier: applies once a dimension is strictly over `overIn` inches. */
  datatype Tier = Tier(overIn: int, escorts: string, flags: bool, notes: string)

  /** The tiers of one axis, listed in priority order for each road type. */
  datatype RoadTiers = RoadTiers(two: seq<Tier>, multi: seq<Tier>)

  datatype EscortTable = EscortTable(width: RoadTiers, length: RoadTiers, height: RoadTiers)

  datatype LegalMax = LegalMax(widthIn: int, heightIn: int, lengthIn: int, grossLbs: int)

  datatype HighPole = HighPole(requiredOverHeightIn: int, notes: string)

  /**
   * A state's entry. An empty `travel` stands for travel notes that are
   * absent; a state without a high-pole threshold has `highPole == None`.
   */
  datatype Rule =
    | NoData
    | Ok(legalMax: LegalMax, escort: EscortTable, highPole: Option<HighPole>,
         travel: string, sources: seq<string>)

  function TiersFor(tiers: RoadTiers, road: RoadType): seq<Tier> {
    match road
    case Two => tiers.two
    case Multi => tiers.multi
  }

  /** The 48 contiguous states (no AK, HI). */
  const STATES_48: seq<string> := [
    "AL","AZ","AR","CA","CO","CT","DE","FL","GA","ID","IL","IN","IA","KS","KY","LA","ME",
    "MD","MA","MI","MN","MS","MO","MT","NE","NV","NH","NJ","NM","NY","NC","ND","OH","OK",
    "OR","PA","RI","SC","SD","TN","TX","UT","VT","VA","WA","WV","WI","WY"
  ]

  /** Oklahoma's placeholder baseline, with the values as the table gives them. */
  const OK_RULE: Rule := Ok(
    LegalMax(8 * 12 + 6, 14 * 12 + 0, 80 * 12, 80000),
    EscortTable(
      RoadTiers(
        [Tier(12 * 12, "1F+1R", true, "Very wide on 2-lane."), Tier(10 * 12, "1F", true, "")],
        [Tier(12 * 12, "1F+1R", true, ""), Tier(12 * 12 - 6, "1F", true, "")]),
      RoadTiers(
        [Tier(85 * 12, "1R", false, "")],
        [Tier(95 * 12, "1R", false, "")]),
      RoadTiers(
        [Tier(15 * 12, "1F (high-pole)", true, "")],
        [Tier(15 * 12, "1F (high-pole)", true, "")])),
    Some(HighPole(15 * 12, "High-pole recommended/required for extreme height and route checks.")),
    "Daylight only when escorted or extreme dimensions; check curfews for metro areas.",
    ["https://www.ok.gov/"])

  /**
   * The table: the explicit "OK" entry, then a "no data" stub for every
   * listed state other than "OK". Later entries override earlier ones, and
   * the filter keeps the stubs away from "OK".
   */
  function WithStubs(ok: Rule, states: seq<string>): (m: map<string, Rule>)
    ensures forall s :: s in m <==> s in states || s == "OK"
    ensures "OK" in m && m["OK"] == ok
    ensures forall s :: s in m && s != "OK" ==> m[s] == NoData
  {
    map["OK" := ok] + map s | s in states && s != "OK" :: NoData
  }

  const STATE_RULES: map<string, Rule> := WithStubs(OK_RULE, STATES_48)

  /** Every listed state has an entry, nothing else does, and only Oklahoma has data. */
  lemma StateRulesComplete()
    ensures forall s :: s in STATE_RULES <==> s in STATES_48
    ensures STATE_RULES["OK"] == OK_RULE
    ensures forall s :: s in STATE_RULES ==> (STATE_RULES[s].Ok? <==> s == "OK")
  {
    assert STATES_48[33] == "OK";
  }

  /** Tiers in non-increasing threshold order: the authoring convention of the table. */
  predicate Descending(tiers: seq<Tier>) {
    forall i, j :: 0 <= i < j < |tiers| ==> tiers[i].overIn >= tiers[j].overIn
  }

  /** Oklahoma's tier lists all follow the descending convention. */
  lemma OkTiersDescending(road: RoadType)
    ensures OK_RULE.Ok?
    ensures Descending(TiersFor(OK_RULE.escort.width, road))
    ensures Descending(TiersFor(OK_RULE.escort.length, road))
    ensures Descending(TiersFor(OK_RULE.escort.height, road))
  {
  }
}
