/**
 * The audit of one vendor endpoint: the target is reduced to the URL's network location, or
 * kept whole when it has none; that host is located and probed for encrypted transport, and
 * the results are assembled into one compliance report.
 * A failed lookup or handshake is recorded in the report, never raised.
 */
module Audit {
  import opened Wrappers
  import opened Probes
  import opened Risk

  /** The frameworks every report is filed under. */
  const COMPLIANCE_FRAMEWORKS: seq<string> := ["Privacy Act 1988 (Cth)", "APP 8", "SOCI Act 2018"]

  const PROCEED := "PROCEED"
  const STOP_AND_ASSESS := "STOP & ASSESS"

  /** The prefix of the risk level that triggers the penalty warning after the report. */
  const WARNING_PREFIX := "HIGH"

  /** The report's `data_sovereignty` section. */
  datatype Sovereignty = Sovereignty(physicalLocation: string, jurisdictionRisk: string, auditorNote: string)

  /** The report's `app_11_security` section. */
  datatype TransitSecurity = TransitSecurity(encryptedTransit: bool, cipherStrength: Option<Cipher>)

  /** The compliance artifact of one audit. */
  datatype AuditReport = AuditReport(
    timestamp: string,
    target: string,
    complianceFrameworks: seq<string>,
    dataSovereignty: Sovereignty,
    app11Security: TransitSecurity,
    recommendation: string)

  /** Python's `str()` of a value that is a string or None. */
  function Show(v: Option<string>): (s: string)
    ensures v.None? ==> s == "None"
    ensures v.Some? ==> s == v.value
  {
    match v
    case Some(text) => text
    case None => "None"
  }

  /** Python's `s.startswith(prefix)`: `s` is `prefix` followed by something. */
  function StartsWith(s: string, prefix: string): (starts: bool)
    ensures starts <==> exists rest :: s == prefix + rest
  {
    if |prefix| <= |s| && s[..|prefix|] == prefix then
      assert s == prefix + s[|prefix|..];
      true
    else
      false
  }

  /**
   * The host the audit probes: the network location parsed from the target, or the target
   * itself when it has none (for example a bare domain). The host is empty only when the input was.
   */
  function CleanTarget(targetUrl: string, netloc: string): (domain: string)
    ensures netloc != "" ==> domain == netloc
    ensures domain == netloc || domain == targetUrl
    ensures domain == "" <==> netloc == "" && targetUrl == ""
  {
    if netloc != "" then netloc else targetUrl
  }

  /** The `physical_location` line: "region, country", where a missing key shows as None. */
  function PhysicalLocation(geo: GeoResult): (s: string)
    ensures geo.Located? ==> s == geo.region + ", " + geo.country
    ensures geo.GeoError? ==> s == "None, None"
  {
    Show(RegionField(geo)) + ", " + Show(CountryField(geo))
  }

  /**
   * The report assembled from the probed host, the two probe records and the time of the audit.
   * Every probe outcome, failed ones included, yields a report.
   */
  function BuildReport(cfg: Jurisdictions, domain: string, geo: GeoResult,
                       security: SecurityResult, timestamp: string): (r: AuditReport)
    ensures r.timestamp == timestamp && r.target == domain
    ensures r.complianceFrameworks == COMPLIANCE_FRAMEWORKS
    ensures r.dataSovereignty.physicalLocation == PhysicalLocation(geo)
    ensures Assessment(r.dataSovereignty.jurisdictionRisk, r.dataSovereignty.auditorNote)
      == GenerateRiskScore(cfg, geo)
    ensures r.app11Security.encryptedTransit <==> security.Secure?
    ensures r.app11Security.cipherStrength == CipherField(security)
    ensures r.recommendation in {PROCEED, STOP_AND_ASSESS}
    ensures r.recommendation == PROCEED <==> geo.Located? && geo.country == SOVEREIGN_COUNTRY
  {
    var assessment := GenerateRiskScore(cfg, geo);
    AuditReport(
      timestamp,
      domain,
      COMPLIANCE_FRAMEWORKS,
      Sovereignty(PhysicalLocation(geo), assessment.level, assessment.reason),
      TransitSecurity(security.Secure?, CipherField(security)),
      if assessment.level == LOW then PROCEED else STOP_AND_ASSESS)
  }

  /**
   * `run_audit(target_url)`: the parser, the two probes and the clock are parameters. Both
   * probes are aimed at the host recorded as the report's target.
   */
  function RunAudit(cfg: Jurisdictions, targetUrl: string, netlocOf: string -> string,
                    locate: string -> GeoResult, inspect: string -> SecurityResult,
                    timestamp: string): (r: AuditReport)
    ensures r.timestamp == timestamp
    ensures r.target == CleanTarget(targetUrl, netlocOf(targetUrl))
    ensures r.target == "" <==> netlocOf(targetUrl) == "" && targetUrl == ""
    ensures r.complianceFrameworks == COMPLIANCE_FRAMEWORKS
    ensures r.dataSovereignty.physicalLocation == PhysicalLocation(locate(r.target))
    ensures Assessment(r.dataSovereignty.jurisdictionRisk, r.dataSovereignty.auditorNote)
      == GenerateRiskScore(cfg, locate(r.target))
    ensures r.app11Security.encryptedTransit <==> inspect(r.target).Secure?
    ensures r.app11Security.cipherStrength == CipherField(inspect(r.target))
    ensures r.recommendation in {PROCEED, STOP_AND_ASSESS}
    ensures r.recommendation == PROCEED <==> CountryField(locate(r.target)) == Some(SOVEREIGN_COUNTRY)
  {
    var domain := CleanTarget(targetUrl, netlocOf(targetUrl));
    BuildReport(cfg, domain, locate(domain), inspect(domain), timestamp)
  }

  /**
   * The penalty warning printed after the report: its risk level starts with "HIGH". On a risk
   * level the classifier can produce, that is exactly the HIGH level.
   */
  function HighRiskWarning(report: AuditReport): (fires: bool)
    ensures var risk := report.dataSovereignty.jurisdictionRisk;
      IsLevel(risk) ==> (fires <==> risk == HIGH)
  {
    OnlyHighLevelWarns(report.dataSovereignty.jurisdictionRisk);
    StartsWith(report.dataSovereignty.jurisdictionRisk, WARNING_PREFIX)
  }

  /** Of the four levels, only the HIGH level starts with "HIGH". */
  lemma OnlyHighLevelWarns(level: string)
    ensures IsLevel(level) ==> (StartsWith(level, WARNING_PREFIX) <==> level == HIGH)
  {
    if !IsLevel(level) {
    } else if level == LOW {
      assert level[0] != WARNING_PREFIX[0];
    } else if level == MEDIUM {
      assert level[0] != WARNING_PREFIX[0];
    } else if level == UNKNOWN {
      assert level[0] != WARNING_PREFIX[0];
    } else {
      assert level[..4] == WARNING_PREFIX;
    }
  }

  /**
   * The warning fires exactly when the located country is, after the sovereign check, on the
   * high-risk list; with the shipped lists, exactly when it is one of the four high-risk countries.
   */
  lemma WarningIffHighRisk(cfg: Jurisdictions, targetUrl: string, netlocOf: string -> string,
                           locate: string -> GeoResult, inspect: string -> SecurityResult,
                           timestamp: string)
    ensures var r := RunAudit(cfg, targetUrl, netlocOf, locate, inspect, timestamp);
      var country := CountryField(locate(r.target));
      (HighRiskWarning(r) <==> country != Some(SOVEREIGN_COUNTRY) && Listed(country, cfg.highRisk))
      && (cfg == DEFAULT_JURISDICTIONS ==>
            (HighRiskWarning(r) <==> Listed(country, HIGH_RISK_JURISDICTIONS)))
  {
    var r := RunAudit(cfg, targetUrl, netlocOf, locate, inspect, timestamp);
    var country := CountryField(locate(r.target));
    OnlyHighLevelWarns(Classify(cfg, country).level);
    DefaultClassification(country);
  }

  /**
   * Failure is data: a failed lookup still yields a report, assessed UNKNOWN with a call for
   * manual review and not cleared to proceed; a failed handshake is recorded as unencrypted
   * transit with no cipher. Neither raises the penalty warning by itself.
   */
  lemma FailureIsRecorded(cfg: Jurisdictions, targetUrl: string, netlocOf: string -> string,
                          locate: string -> GeoResult, inspect: string -> SecurityResult,
                          timestamp: string)
    ensures var r := RunAudit(cfg, targetUrl, netlocOf, locate, inspect, timestamp);
      locate(r.target).GeoError? ==>
        r.dataSovereignty == Sovereignty("None, None", UNKNOWN, MANUAL_REVIEW_NOTE)
        && r.recommendation == STOP_AND_ASSESS
        && !HighRiskWarning(r)
    ensures var r := RunAudit(cfg, targetUrl, netlocOf, locate, inspect, timestamp);
      inspect(r.target).Insecure? ==> r.app11Security == TransitSecurity(false, None)
  {
    var r := RunAudit(cfg, targetUrl, netlocOf, locate, inspect, timestamp);
    OnlyHighLevelWarns(r.dataSovereignty.jurisdictionRisk);
    LevelsDistinct();
  }

  /**
   * The transport probe has no say in the rating: two audits that differ only in the TLS
   * outcome agree on the target, the sovereignty section, the recommendation and the warning.
   */
  lemma RatingIgnoresTransport(cfg: Jurisdictions, targetUrl: string, netlocOf: string -> string,
                               locate: string -> GeoResult, inspect1: string -> SecurityResult,
                               inspect2: string -> SecurityResult, timestamp: string)
    ensures var r1 := RunAudit(cfg, targetUrl, netlocOf, locate, inspect1, timestamp);
      var r2 := RunAudit(cfg, targetUrl, netlocOf, locate, inspect2, timestamp);
      r1.target == r2.target
      && r1.dataSovereignty == r2.dataSovereignty
      && r1.recommendation == r2.recommendation
      && (HighRiskWarning(r1) <==> HighRiskWarning(r2))
  {
  }

  /** An Australian-hosted endpoint with working TLS is cleared to proceed, without a warning. */
  lemma AustralianScenario(cipher: Cipher, issuer: map<string, string>, timestamp: string)
    ensures var r := RunAudit(DEFAULT_JURISDICTIONS, "https://example.com.au", _ => "example.com.au",
                              _ => Located("203.0.113.7", "Australia", "NSW", "Example ISP"),
                              _ => Secure(cipher, issuer), timestamp);
      r.target == "example.com.au"
      && r.dataSovereignty == Sovereignty("NSW, Australia", LOW, SOVEREIGN_NOTE)
      && r.app11Security == TransitSecurity(true, Some(cipher))
      && r.recommendation == PROCEED
      && !HighRiskWarning(r)
  {
    var geo := Located("203.0.113.7", "Australia", "NSW", "Example ISP");
    var r := BuildReport(DEFAULT_JURISDICTIONS, "example.com.au", geo, Secure(cipher, issuer), timestamp);
    assert GenerateRiskScore(DEFAULT_JURISDICTIONS, geo) == Assessment(LOW, SOVEREIGN_NOTE);
    assert PhysicalLocation(geo) == "NSW, Australia";
    OnlyHighLevelWarns(LOW);
    assert !HighRiskWarning(r);
  }

  /**
   * An Australian-hosted endpoint whose handshake failed is recorded as unencrypted, yet it is
   * still rated LOW and cleared to proceed: the recommendation looks at the location only.
   */
  lemma AustralianUnencryptedScenario(timestamp: string)
    ensures var r := RunAudit(DEFAULT_JURISDICTIONS, "https://example.com.au", _ => "example.com.au",
                              _ => Located("203.0.113.7", "Australia", "NSW", "Example ISP"),
                              _ => Insecure, timestamp);
      r.dataSovereignty.jurisdictionRisk == LOW
      && r.app11Security == TransitSecurity(false, None)
      && r.recommendation == PROCEED
  {
    var geo := Located("203.0.113.7", "Australia", "NSW", "Example ISP");
    assert GenerateRiskScore(DEFAULT_JURISDICTIONS, geo).level == LOW;
  }

  /** An endpoint hosted in the United States must be assessed, and raises the warning. */
  lemma UnitedStatesScenario(security: SecurityResult, timestamp: string)
    ensures var r := RunAudit(DEFAULT_JURISDICTIONS, "https://example.com", _ => "example.com",
                              _ => Located("198.51.100.7", "United States", "Virginia", "Example ISP"),
                              _ => security, timestamp);
      r.dataSovereignty.jurisdictionRisk == HIGH
      && r.dataSovereignty.auditorNote == ServerNote("United States", HIGH_NOTE_SUFFIX)
      && r.recommendation == STOP_AND_ASSESS
      && HighRiskWarning(r)
  {
  }
}
