/**
 * The jurisdiction risk classifier: a country is checked against a fixed priority chain
 * (the sovereign country, then the high-risk list, then the safe list) and the first test
 * that holds decides the risk level and the auditor's note.
 */
module Risk {
  import opened Wrappers
  import opened Probes

  // The four risk levels the classifier can return.
  const LOW := "LOW (Sovereign)"
  const HIGH := "HIGH (Cloud Act Risk)"
  const MEDIUM := "MEDIUM (GDPR Aligned)"
  const UNKNOWN := "UNKNOWN"

  // The auditor's notes; the high-risk and safe notes name the country between a prefix and a suffix.
  const SOVEREIGN_COUNTRY := "Australia"
  const SOVEREIGN_NOTE := "Data resides within Australian jurisdiction."
  const NOTE_PREFIX := "Server in "
  const HIGH_NOTE_SUFFIX := ". Requires detailed APP 8.1 assessment."
  const SAFE_NOTE_SUFFIX := ". Likely compatible with APPs."
  const MANUAL_REVIEW_NOTE := "Manual review required."

  /** Jurisdictions whose laws reach data held by cloud providers (the "red flag" list). */
  const HIGH_RISK_JURISDICTIONS: seq<string> := ["United States", "China", "Russia", "India"]

  /** Jurisdictions with protections comparable to the Privacy Act 1988 (the "green list"). */
  const SAFE_JURISDICTIONS: seq<string> :=
    ["Australia", "Switzerland", "United Kingdom", "Germany", "New Zealand"]

  /** The two configurable lists the classifier consults. */
  datatype Jurisdictions = Jurisdictions(highRisk: seq<string>, safe: seq<string>)

  /** The lists the tool ships with. */
  const DEFAULT_JURISDICTIONS := Jurisdictions(HIGH_RISK_JURISDICTIONS, SAFE_JURISDICTIONS)

  /** A (risk level, reason) pair. */
  datatype Assessment = Assessment(level: string, reason: string)

  predicate IsLevel(s: string) {
    s == LOW || s == HIGH || s == MEDIUM || s == UNKNOWN
  }

  /** Python's `country in names` when `country` may be None: None is equal to no string. */
  function Listed(country: Option<string>, names: seq<string>): (listed: bool)
    ensures listed <==> exists i :: 0 <= i < |names| && country == Some(names[i])
  {
    country.Some? && country.value in names
  }

  /** The note `f"Server in {country}{suffix}"`: the country spelled out between prefix and suffix. */
  function ServerNote(country: string, suffix: string): (note: string)
    ensures |note| == |NOTE_PREFIX| + |country| + |suffix|
    ensures note[..|NOTE_PREFIX|] == NOTE_PREFIX
    ensures note[|NOTE_PREFIX|..|NOTE_PREFIX| + |country|] == country
    ensures note[|NOTE_PREFIX| + |country|..] == suffix
  {
    var note := NOTE_PREFIX + country + suffix;
    assert note == NOTE_PREFIX + (country + suffix);
    note
  }

  /** The four levels are pairwise different strings. */
  lemma LevelsDistinct()
    ensures LOW != HIGH && LOW != MEDIUM && LOW != UNKNOWN
    ensures HIGH != MEDIUM && HIGH != UNKNOWN && MEDIUM != UNKNOWN
  {
  }

  /**
   * The classifier on the value of the country key. The level is one of four, and each level
   * holds exactly when its test holds and no earlier test in the chain does.
   */
  function Classify(cfg: Jurisdictions, country: Option<string>): (r: Assessment)
    ensures IsLevel(r.level)
    ensures r.level == LOW <==> country == Some(SOVEREIGN_COUNTRY)
    ensures r.level == HIGH <==>
      country != Some(SOVEREIGN_COUNTRY) && Listed(country, cfg.highRisk)
    ensures r.level == MEDIUM <==>
      country != Some(SOVEREIGN_COUNTRY) && !Listed(country, cfg.highRisk) && Listed(country, cfg.safe)
    ensures r.level == UNKNOWN <==>
      country != Some(SOVEREIGN_COUNTRY) && !Listed(country, cfg.highRisk) && !Listed(country, cfg.safe)
    ensures r.level == LOW ==> r.reason == SOVEREIGN_NOTE
    ensures r.level == HIGH ==> r.reason == ServerNote(country.value, HIGH_NOTE_SUFFIX)
    ensures r.level == MEDIUM ==> r.reason == ServerNote(country.value, SAFE_NOTE_SUFFIX)
    ensures r.level == UNKNOWN ==> r.reason == MANUAL_REVIEW_NOTE
  {
    LevelsDistinct();
    if country == Some(SOVEREIGN_COUNTRY) then Assessment(LOW, SOVEREIGN_NOTE)
    else if Listed(country, cfg.highRisk) then Assessment(HIGH, ServerNote(country.value, HIGH_NOTE_SUFFIX))
    else if Listed(country, cfg.safe) then Assessment(MEDIUM, ServerNote(country.value, SAFE_NOTE_SUFFIX))
    else Assessment(UNKNOWN, MANUAL_REVIEW_NOTE)
  }

  /**
   * `generate_risk_score(geo_data)`: classifies the record's country key. A record without one
   * (the error record of a failed lookup) is assessed UNKNOWN and left for manual review.
   */
  function GenerateRiskScore(cfg: Jurisdictions, geo: GeoResult): (r: Assessment)
    ensures geo.GeoError? ==> r == Assessment(UNKNOWN, MANUAL_REVIEW_NOTE)
    ensures r.level == LOW <==> geo.Located? && geo.country == SOVEREIGN_COUNTRY
    ensures geo.Located? ==> r == Classify(cfg, Some(geo.country))
  {
    Classify(cfg, CountryField(geo))
  }

  // ---------------------------------------------------------------------------------------
  // An independent reference: the classifier as "first matching rule" over a rule list.

  /** The test of one rule: an exact match on a name, or membership in a list of names. */
  datatype Test = Is(name: string) | Among(names: seq<string>)

  /** The note of one rule: a fixed text, or one naming the country before a suffix. */
  datatype Note = Fixed(text: string) | Naming(suffix: string)

  datatype Rule = Rule(test: Test, level: string, note: Note)

  predicate Passes(t: Test, country: Option<string>) {
    match t
    case Is(name) => country == Some(name)
    case Among(names) => Listed(country, names)
  }

  function Render(n: Note, country: string): string {
    match n
    case Fixed(text) => text
    case Naming(suffix) => ServerNote(country, suffix)
  }

  /** What a rule assigns to a country it accepts. */
  function Apply(rule: Rule, country: string): Assessment {
    Assessment(rule.level, Render(rule.note, country))
  }

  /** The default of a chain in which no rule accepts the country. */
  const NO_MATCH := Assessment(UNKNOWN, MANUAL_REVIEW_NOTE)

  /** Rule `i` is the first rule of the chain that accepts the country. */
  predicate Decides(rules: seq<Rule>, i: nat, country: Option<string>)
    requires i < |rules|
  {
    Passes(rules[i].test, country) && forall j :: 0 <= j < i ==> !Passes(rules[j].test, country)
  }

  /** The assessment of the first rule that accepts the country; the default when none does. */
  function FirstMatch(rules: seq<Rule>, country: Option<string>): (r: Assessment)
    ensures forall i: nat :: i < |rules| && Decides(rules, i, country) ==> r == Apply(rules[i], country.value)
    ensures (forall i :: 0 <= i < |rules| ==> !Passes(rules[i].test, country)) ==> r == NO_MATCH
    decreases |rules|
  {
    if rules == [] then NO_MATCH
    else if Passes(rules[0].test, country) then Apply(rules[0], country.value)
    else
      var rest := FirstMatch(rules[1..], country);
      assert forall i: nat :: 0 < i < |rules| && Decides(rules, i, country) ==> Decides(rules[1..], i - 1, country);
      rest
  }

  /** The source's chain: sovereign country, then the high-risk list, then the safe list. */
  function PriorityChain(cfg: Jurisdictions): (rules: seq<Rule>)
    ensures |rules| == 3
  {
    [ Rule(Is(SOVEREIGN_COUNTRY), LOW, Fixed(SOVEREIGN_NOTE)),
      Rule(Among(cfg.highRisk), HIGH, Naming(HIGH_NOTE_SUFFIX)),
      Rule(Among(cfg.safe), MEDIUM, Naming(SAFE_NOTE_SUFFIX)) ]
  }

  /** The classifier is the first-match reading of its priority chain, for any lists. */
  lemma ClassifyIsFirstMatch(cfg: Jurisdictions, country: Option<string>)
    ensures Classify(cfg, country) == FirstMatch(PriorityChain(cfg), country)
  {
    var rules := PriorityChain(cfg);
    if Passes(rules[0].test, country) {
    } else if Passes(rules[1].test, country) {
      assert Decides(rules, 1, country);
    } else if Passes(rules[2].test, country) {
      assert Decides(rules, 2, country);
    } else {
      assert forall i :: 0 <= i < 3 ==> !Passes(rules[i].test, country);
    }
  }

  /**
   * Australia is on the safe list too, so the order of the chain decides its level: checked
   * first it is LOW, while a chain that consults the safe list first would call it MEDIUM.
   */
  lemma SovereignCheckComesFirst()
    ensures SOVEREIGN_COUNTRY in SAFE_JURISDICTIONS
    ensures Classify(DEFAULT_JURISDICTIONS, Some(SOVEREIGN_COUNTRY)) == Assessment(LOW, SOVEREIGN_NOTE)
    ensures var chain := PriorityChain(DEFAULT_JURISDICTIONS);
      FirstMatch([chain[2], chain[0], chain[1]], Some(SOVEREIGN_COUNTRY)).level == MEDIUM
  {
  }

  /** The shipped lists do not overlap, and the sovereign country is not on the high-risk list. */
  lemma DefaultListsDisjoint()
    ensures SOVEREIGN_COUNTRY !in HIGH_RISK_JURISDICTIONS
    ensures forall c :: c in HIGH_RISK_JURISDICTIONS ==> c !in SAFE_JURISDICTIONS
  {
  }

  /**
   * With the shipped lists each level is decided by one list alone: HIGH exactly for the
   * four high-risk countries, MEDIUM exactly for the safe countries other than Australia.
   */
  lemma DefaultClassification(country: Option<string>)
    ensures Classify(DEFAULT_JURISDICTIONS, country).level == HIGH <==>
      Listed(country, HIGH_RISK_JURISDICTIONS)
    ensures Classify(DEFAULT_JURISDICTIONS, country).level == MEDIUM <==>
      Listed(country, SAFE_JURISDICTIONS) && country != Some(SOVEREIGN_COUNTRY)
    ensures Classify(DEFAULT_JURISDICTIONS, country).level == UNKNOWN <==>
      !Listed(country, HIGH_RISK_JURISDICTIONS) && !Listed(country, SAFE_JURISDICTIONS)
  {
    DefaultListsDisjoint();
  }

  /**
   * A HIGH or MEDIUM assessment identifies its country: two countries that receive the same
   * such assessment are the same country.
   */
  lemma AssessmentIdentifiesCountry(cfg: Jurisdictions, c1: string, c2: string)
    requires Classify(cfg, Some(c1)) == Classify(cfg, Some(c2))
    requires Classify(cfg, Some(c1)).level in {HIGH, MEDIUM}
    ensures c1 == c2
  {
    var suffix := if Classify(cfg, Some(c1)).level == HIGH then HIGH_NOTE_SUFFIX else SAFE_NOTE_SUFFIX;
    var n1, n2 := ServerNote(c1, suffix), ServerNote(c2, suffix);
    assert |c1| == |c2|;
  }
}
