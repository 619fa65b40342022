# Wattle-Guard audit decision logic in Dafny

Wattle-Guard audits one vendor endpoint for an Australian compliance officer. It takes the
URL's network location, or the raw input unchanged when the URL has none, so a scheme-less
input keeps any path or port. It then locates the server through DNS and a geo-IP service, tries a TLS
handshake on port 443, and classifies the hosting country against two lists: the high-risk
("Cloud Act") jurisdictions and the safe ("GDPR aligned") ones. It then assembles a report
with a recommendation, and prints a penalty warning when the risk is HIGH.

This project models the decision part of that pipeline as pure functions:

- `wrappers.dfy`, module `Wrappers`: `Option`, standing for a Python value that may be `None`.
- `probes.dfy`, module `Probes`: the two record shapes each probe can return (success or
  error) and the `dict.get` reads the report makes of them.
- `risk.dfy`, module `Risk`: the classifier over a configurable pair of lists, with the
  shipped lists as `DEFAULT_JURISDICTIONS`. A second, rule-list definition of the classifier
  ("the first rule that accepts the country wins") serves as its reference.
- `audit.dfy`, module `Audit`: the target clean-up, report assembly, `run_audit` with the URL
  parser, both probes and the clock passed in as parameters, and the HIGH warning condition.

What is proved:

- the priority order: Australia is on the safe list, yet it is rated LOW because the
  sovereign check comes first;
- each of the four levels holds exactly when its test holds and no earlier test does;
- with the shipped lists, HIGH holds exactly for the four high-risk countries;
- the report copies the probe results through unchanged and always carries the same three
  frameworks;
- the recommendation is `PROCEED` exactly when the server is located in Australia;
- the warning fires exactly on a HIGH rating;
- a failed lookup still yields a report, rated `UNKNOWN` and not cleared;
- a failed handshake still yields a report with unencrypted transit and no cipher, and has no
  effect on the rating or the recommendation: an Australian server with a failed handshake is
  rated LOW and cleared to `PROCEED`.

The `"Unknown"` defaults of the location probe (wattle_guard.py:26-28) apply only when the
lookup succeeds and the service leaves a field out. A failed lookup returns the error record
(wattle_guard.py:31), which has no `country` or `region` key at all. There
`geo.get("country")` is `None`: the rating is still `UNKNOWN`, and the report's physical
location reads `"None, None"`, which is how Python prints two `None` values.

The host fallback (wattle_guard.py:72-73) is a second place where the code does less than the
tool appears to intend. A scheme-less input with a path, such as `example.com/about`, has an
empty network location, so the whole raw input becomes the host. Both probes are then aimed at
`example.com/about`, and the model, like the code, does not strip the path.

## Model

| member | source | states |
|---|---|---|
| `Probes.CountryField` | wattle_guard.py:55 | the country key is present exactly for a located server and then holds its country; an error record has none |
| `Probes.RegionField` | wattle_guard.py:90 | the region key is present exactly for a located server and then holds its region |
| `Probes.CipherField` | wattle_guard.py:96 | the cipher is present exactly after a completed handshake and is the negotiated one |
| `Risk.Listed` | wattle_guard.py:60-63 | Python's `country in names`: true iff some entry of the list equals the country; a None country is in no list |
| `Risk.ServerNote` | wattle_guard.py:61-64 | the f-string note is "Server in ", then the country, then the suffix, each at its fixed position |
| `Risk.LevelsDistinct` | wattle_guard.py:57-66 | the four risk levels are pairwise different strings |
| `Risk.Classify` | wattle_guard.py:57-66 | always one of the four levels; LOW iff the country is Australia; HIGH iff not Australia and on the high-risk list; MEDIUM iff neither and on the safe list; UNKNOWN otherwise, None included; each level with its note |
| `Risk.GenerateRiskScore` | wattle_guard.py:51-66 | an error record is rated UNKNOWN with "Manual review required."; LOW iff the located country is Australia; a located record is classified by its country |
| `Risk.FirstMatch` | wattle_guard.py:57-66 | reference evaluator: the result is the assessment of the first rule that accepts the country, and the UNKNOWN default when no rule does |
| `Risk.PriorityChain` | wattle_guard.py:57-64 | the chain has three rules: sovereign country, then high-risk list, then safe list; `Risk.ClassifyIsFirstMatch` proves that this order is the classifier's |
| `Risk.ClassifyIsFirstMatch` | wattle_guard.py:57-66 | for any lists, the classifier equals the first-match reading of the chain sovereign, then high-risk, then safe |
| `Risk.SovereignCheckComesFirst` | wattle_guard.py:57-64 | Australia is on the safe list (line 13), yet it is rated LOW; a chain that consulted the safe list first would rate it MEDIUM |
| `Risk.DefaultListsDisjoint` | wattle_guard.py:10-13 | the shipped lists share no country, and Australia is not high-risk |
| `Risk.DefaultClassification` | wattle_guard.py:10-66 | with the shipped lists: HIGH iff one of the four high-risk countries; MEDIUM iff a safe country other than Australia; UNKNOWN iff on neither list |
| `Risk.AssessmentIdentifiesCountry` | wattle_guard.py:60-64 | two countries with the same HIGH or MEDIUM assessment are the same country |
| `Audit.Show` | wattle_guard.py:90 | a missing value prints as "None"; a present string prints as itself |
| `Audit.CleanTarget` | wattle_guard.py:72-73 | the probed host is the parsed network location when that is non-empty, else the raw input; it is empty only when both are |
| `Audit.PhysicalLocation` | wattle_guard.py:90 | "region, country" for a located server, "None, None" for an error record |
| `Audit.BuildReport` | wattle_guard.py:85-99 | the timestamp and target are the given ones; the frameworks are the fixed three; the risk and note are the classifier's; transit is encrypted iff the handshake completed; the cipher is copied; the recommendation is PROCEED iff the server is in Australia, else STOP & ASSESS |
| `Audit.RunAudit` | wattle_guard.py:68-101 | the timestamp is the given one; the target is the cleaned host; both probes are aimed at that host; the physical location, risk, note, encryption flag and cipher follow from their records; the recommendation is PROCEED iff the located country is Australia and STOP & ASSESS otherwise; the frameworks are the fixed three |
| `Audit.StartsWith` | wattle_guard.py:111 | Python's `s.startswith(prefix)`: true iff `s` is `prefix` followed by some string |
| `Audit.HighRiskWarning` | wattle_guard.py:111 | the warning condition: the risk level starts with "HIGH", which for any of the four levels holds iff it is the HIGH level |
| `Audit.OnlyHighLevelWarns` | wattle_guard.py:111 | of the four levels, only the HIGH one starts with "HIGH" |
| `Audit.WarningIffHighRisk` | wattle_guard.py:111 | the warning fires iff the located country is not Australia and is on the high-risk list; with the shipped lists, iff it is one of the four high-risk countries |
| `Audit.FailureIsRecorded` | wattle_guard.py:82-96 | a failed lookup gives location "None, None", risk UNKNOWN, a manual-review note, STOP & ASSESS and no warning; a failed handshake gives unencrypted transit and no cipher |
| `Audit.RatingIgnoresTransport` | wattle_guard.py:82-98 | the TLS outcome changes neither the target, the sovereignty section, the recommendation nor the warning |
| `Audit.AustralianUnencryptedScenario` | wattle_guard.py:94-98 | an Australian server whose handshake failed has unencrypted transit and no cipher, yet is rated LOW and cleared to PROCEED |
| `Audit.AustralianScenario` | wattle_guard.py:85-98 | an Australian server with TLS is rated LOW with the sovereign note, shows "NSW, Australia", keeps its cipher and is cleared to PROCEED, with no warning |
| `Audit.UnitedStatesScenario` | wattle_guard.py:85-111 | a United States server is rated HIGH with the note naming the country, must STOP & ASSESS, and raises the warning |

## Left out

- `get_server_location` (wattle_guard.py:15-31): the DNS query and the geo-IP web request are not modelled. Only the two record shapes are, and `RunAudit` takes the lookup as a function parameter. The `"Unknown"` defaults for missing service fields are inside that lookup, so they are not modelled. A non-string `country` value in the service's JSON is not modelled either.
- `check_ssl_security` (wattle_guard.py:33-49): the socket, the TLS handshake and the issuer-field parsing are not modelled. Only the two record shapes are, and the probe is a function parameter. A completed handshake is taken to always report a cipher. The failure record's fixed note is not kept, since the report never reads it.
- `urlparse(...).netloc` (wattle_guard.py:72): the URL parser is a function parameter. Only the empty-netloc fallback is modelled.
- `Audit.RunAudit`: the parser parameter is total, so the model assumes parsing never raises. In the source, `urlparse` raises `ValueError` on some inputs (such as a URL with an unclosed IPv6 bracket), nothing in `run_audit` catches it, and the audit aborts without a report.
- `datetime.datetime.now()` (wattle_guard.py:86): the timestamp is a string parameter.
- Console I/O (wattle_guard.py:69, :105-115): the banner, the prompt, the JSON pretty-printing and the penalty text are not modelled. Only the condition that triggers the warning is (`Audit.HighRiskWarning`).
- The report is a Dafny datatype rather than a Python dictionary, so its key names and JSON layout are not modelled.
