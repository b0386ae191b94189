# clustercheck — verified model of the health-gate decision layer

clustercheck asks a Prometheus server, the Kubernetes API and the Flux
controllers about a cluster. It then prints per-check verdicts (display
mode) or folds everything into a scored pass/fail gate (gate mode). This
project models the pure decision layer under that glue, in Dafny:

- `Prometheus`: how one query reply becomes a scalar string (`QueryPrometheus`).
- `Classify`: the two metric verdict rules. The gate uses the exact string "1".
  The display loops use "1" XOR a "FLUENT" name prefix.
- `Pods`: the pod-phase probe (`CheckPods`).
- `Flux`: the HelmRelease/Kustomization Ready-condition probe (`CheckFlux`).
- `Cluster`: cluster-identifier resolution, the credential and request types, and
  the four query tables with their PromQL templates.
- `Gate`: `GateCheck` and `runPrometheusChecks` of the gate package. This covers
  counters, score, the 80 threshold, bands and the error return.
- `LegacyGate`: the older `GateCheck`/`runPrometheusChecks` copy in
  `pkg/monitoringcheck/clustercheck.go`, with its 4-entry table.
- `Display`: `Run` in `pkg/monitoringcheck/clustercheck.go` and `main` in `main.go`.
- `Agreement`: how the gate copies and `Run` relate entry by entry.

Every external call is an input value. The input kinds are:

- an `Exchange` for each HTTP query;
- a `Step` or `Listing` for each Kubernetes call;
- a `ContextLookup` for the kube context;
- a `SecretLookup` for the Bitwarden item;
- an `Environment` and `Flags` record for environment variables and flags.

The metric backend is a function parameter from `Request` to the reply. A
`Request` holds what the server sees: the endpoint, the PromQL text with the
cluster string filled in, and the login.

The score is a real number. The model proves it reaches 80 exactly when
`total > 0 && 5*passed >= 4*total`.

Behaviours of the program worth knowing, each stated by a member:

- A Flux resource whose conditions are non-empty but contain no `Ready`
  condition is neither ready nor failed. It never causes an error
  (`Flux.UnjudgedResourcePasses`), although fewer resources are then ready
  than were listed.
- Gate mode does not apply the FLUENT polarity inversion. Only the display
  loops do. The gate table's `FLUENTBIT_OK`/`FLUENTD_OK` pass on "1" only.
- If the kube context cannot be read, the gate copies use "unknown". `Run` and
  `main` keep the empty string.
- A failed Bitwarden lookup in gate mode records one failed
  "Prometheus Authentication" check and runs no queries. `Run` and `main` carry
  on with the empty or partial item as credentials.
- `Run` and `main` send different PromQL for APISERVER and STORAGECHECK, so
  their lines for those two entries can differ (`Display.ApiserverLinesCanDiffer`).

`pkg/monitoringcheck/clustercheck.go` also holds copies of `CheckPods`
(lines 162-221) and `CheckFlux` (lines 224-346). Their decision logic is the
same as the `podcheck` and `fluxcheck` packages, without debug tracing. The
same `Pods.CheckPods` and `Flux.CheckFlux` model them, and `LegacyGate.GateCheck`
uses them.

## Model

| member | source | states |
|---|---|---|
| `Basics.Decimal` | pkg/podcheck/podcheck.go:92 | the %d rendering of a count: non-empty, digits only, no leading zero except for 0 |
| `Basics.DecimalRoundTrip` | pkg/podcheck/podcheck.go:92 | reading the rendered digits back gives the count |
| `Basics.DecimalInjective` | pkg/fluxcheck/fluxcheck.go:168 | two different counts never render alike |
| `Prometheus.Query` | pkg/monitoringcheck/clustercheck.go:92-149 | an error is returned exactly on the four failure paths (request build, transport, body read, decode), always with value "0"; on success the value is the first sample, or "0" for an empty vector, and is never anything but "0" or a sample |
| `Prometheus.FirstSampleWins` | main.go:136-141 | main's identical `queryPrometheus` returns the first sample without error, whatever samples follow it |
| `Prometheus.FailuresShareValue` | pkg/monitoringcheck/clustercheck.go:98-141 | every failure stage yields the same value "0" with a non-nil error, so callers can tell failures apart only by the error |
| `Prometheus.EmptyLooksLikeZero` | pkg/monitoringcheck/clustercheck.go:143-148 | an empty result vector gives the same reply as a vector whose first sample is "0" ("0", nil) |
| `Prometheus.HealthyIffFirstSampleOne` | pkg/monitoringcheck/clustercheck.go:92-149 | a reply reads as error-free "1" exactly when the exchange decoded and its first sample is "1" |
| `Classify.GatePasses` | pkg/gatecheck/gatecheck.go:290 | definition: the gate's verdict is exact string equality with "1"; its consequences are stated by `Classify.LexicalNotNumeric` and `Classify.GateDoesNotInvertFluent` |
| `Classify.Inverted` | pkg/monitoringcheck/clustercheck.go:719-731 | definition: a description is inverted iff it starts with "FLUENT"; which table entries are inverted is stated by `Agreement.OnlyFluentEntriesInverted` |
| `Classify.DisplayOk` | pkg/monitoringcheck/clustercheck.go:719-731 | display verdict: without the FLUENT prefix OK iff the value is "1"; with it OK iff the value is not "1" |
| `Classify.DisplayRefinesGateOffPrefix` | main.go:252-264 | main's display verdict equals the gate's exact-"1" verdict exactly on descriptions without the FLUENT prefix |
| `Classify.LexicalNotNumeric` | pkg/gatecheck/gatecheck.go:290-305 | any value other than the literal "1" ("1.0", "0.5", "") is classified like "0" in both modes |
| `Classify.DisplayExamples` | pkg/monitoringcheck/clustercheck_test.go:574-588 | the cases of the source's output-logic test table: APISERVER OK on "1", FAIL on "0"; FLUENTBITERRORS/FLUENTDERRORS inverted; KUBELET FAIL on "0.5" |
| `Classify.GateDoesNotInvertFluent` | pkg/gatecheck/gatecheck.go:236-243 | FLUENTBIT_OK and FLUENTD_OK start with "FLUENT", yet the gate passes only "1" and fails "0" and "1.0", where display mode would invert |
| `Pods.Tally` | pkg/podcheck/podcheck.go:63-83 | the loop counts exactly the Running/Succeeded pods, collects "namespace/name (phase)" for every other pod in list order, and the two add up to the number of pods |
| `Pods.CountsPartition` | pkg/podcheck/podcheck.go:69-85 | healthy plus unhealthy equals the pod count, and there is one failure line per unhealthy pod |
| `Pods.NoFailuresIffAllHealthy` | pkg/podcheck/podcheck.go:76-87 | the failure list is empty iff every pod's phase is exactly "Running" or "Succeeded" |
| `Pods.FailedEntriesAppend` | pkg/podcheck/podcheck.go:72-81 | one more pod appends its line at the end iff it is unhealthy, so list order is kept |
| `Pods.CheckPods` | pkg/podcheck/podcheck.go:22-95 | config, clientset and list failures are returned in that order before any classification; otherwise nil iff every pod is healthy, and the error's count is the number of unhealthy pods |
| `Pods.ErrorText` | pkg/podcheck/podcheck.go:25-92 | each setup failure's message is its stage prefix ("failed to build config: ", "failed to create clientset: ", "failed to list pods: ") followed by the cause verbatim; only the count message starts with a digit |
| `Pods.CountMessageInjective` | pkg/podcheck/podcheck.go:92 | the "%d pods not in Running or Succeeded state" message determines the count |
| `Pods.EmptyListIsHealthy` | pkg/podcheck/podcheck.go:63-95 | an empty pod list returns nil |
| `Pods.ErrorCountsUnhealthy` | pkg/podcheck/podcheck.go:87-93 | with at least one unhealthy pod the error reports exactly the number of unhealthy pods |
| `Flux.FirstReady` | pkg/fluxcheck/fluxcheck.go:93-94 | finds the first condition of type "Ready": none before it has that type, and it is past the end only if there is none |
| `Flux.Judge` | pkg/fluxcheck/fluxcheck.go:93-110 | ready iff the first Ready condition has status True; failing with that condition's message iff its status is anything else; "No conditions set" iff the list is empty; unjudged iff non-empty with no Ready type |
| `Flux.OnlyFirstReadyCounts` | pkg/fluxcheck/fluxcheck.go:93-104 | conditions after the first Ready condition never change the verdict (the loop breaks) |
| `Flux.FirstReadyPrefix` | pkg/fluxcheck/fluxcheck.go:93-103 | conditions appended after a Ready condition never move the first Ready condition |
| `Flux.Scan` | pkg/fluxcheck/fluxcheck.go:87-111 | definition of the classification loop over one kind; its counts are stated by `Flux.ScanCounts` and `Flux.NoLinesIffNoneFailing` |
| `Flux.Summary` | pkg/fluxcheck/fluxcheck.go:56-161 | definition: HelmReleases then Kustomizations into the same counters; bounds stated by `Flux.SummaryBounds` |
| `Flux.ScanCounts` | pkg/fluxcheck/fluxcheck.go:87-111 | every listed resource is counted in the total, one failure line per failing or condition-less resource, ready plus failed at most the total |
| `Flux.NoLinesIffNoneFailing` | pkg/fluxcheck/fluxcheck.go:99-110 | no failure line is recorded iff every resource is ready or unjudged |
| `Flux.KindsClassifiedAlike` | pkg/fluxcheck/fluxcheck.go:135-159 | Kustomizations are counted exactly like HelmReleases (same total, ready and failure counts) |
| `Flux.SummaryBounds` | pkg/fluxcheck/fluxcheck.go:56-161 | totalResources is the sum of the two list sizes and readyResources plus the failures never exceeds it |
| `Flux.CheckFlux` | pkg/fluxcheck/fluxcheck.go:26-175 | config, client, HelmRelease-list and Kustomization-list failures are returned in that order; with both lists read the result is nil when no resource of either kind is failing or condition-less, and otherwise NotReady with exactly the number of such resources |
| `Flux.ErrorText` | pkg/fluxcheck/fluxcheck.go:29-168 | each setup or list failure's message is its stage prefix followed by the cause verbatim; only the count message starts with a digit |
| `Flux.CountMessageInjective` | pkg/fluxcheck/fluxcheck.go:168 | the "%d resources not Ready" message determines the count |
| `Flux.HelmListFailureShortCircuits` | pkg/fluxcheck/fluxcheck.go:76-79 | a HelmRelease list failure decides the result whatever the Kustomization listing would have been |
| `Flux.NoResourcesIsHealthy` | pkg/fluxcheck/fluxcheck.go:163-175 | zero resources returns nil |
| `Flux.ErrorIffSomeFailing` | pkg/fluxcheck/fluxcheck.go:163-169 | the probe errs iff some resource of either kind is failing or has no conditions |
| `Flux.UnjudgedResourcePasses` | pkg/fluxcheck/fluxcheck.go:107 | a HelmRelease whose only condition is "Reconciling" is unjudged, the probe returns nil, and fewer resources are ready than listed |
| `Cluster.Endpoint` | main.go:188-190 | a non-empty PROMETHEUS_URL replaces the default https://127.0.0.1:9090 |
| `Cluster.Resolve` | pkg/gatecheck/gatecheck.go:209-225 | short name is the base before any suffix; a non-empty CLUSTER replaces the full name only; otherwise the full name extends the base, equals it when no FQDN is set, starts with base + "." + flag FQDN when that is set, and has room for exactly one "." + environment FQDN at the end when that is set |
| `Cluster.SuffixOrder` | main.go:180-186 | without override the cluster is exactly the context, then "." + flag FQDN if set, then "." + environment FQDN if set, in all four combinations |
| `Cluster.ShortIgnoresSuffixes` | pkg/monitoringcheck/clustercheck.go:644-660 | the short name does not depend on the FQDNs or on CLUSTER |
| `Cluster.GateNames` | pkg/gatecheck/gatecheck.go:204-209 | the gate copy falls back to "unknown" when the context cannot be read |
| `Cluster.DisplayNames` | pkg/monitoringcheck/clustercheck.go:639-644 | Run keeps the empty name returned with a context error |
| `Cluster.GateAndDisplayNames` | pkg/monitoringcheck/clustercheck.go:538-541 | gate and display resolutions agree when the context is found; on a failure with no suffix or override they give "unknown" and "" |
| `Cluster.GateTable` | pkg/gatecheck/gatecheck.go:227-276 | definition of the gate's 12 entries; shape in `Cluster.GateTableShape`, relation to Run's table in `Cluster.GateAndRunTables` |
| `Cluster.RunTable` | pkg/monitoringcheck/clustercheck.go:662-711 | definition of Run's 12 entries; shape in `Cluster.RunTableShape` |
| `Cluster.MainTable` | main.go:195-244 | definition of main's 12 entries; shape in `Cluster.MainTableShape`, relation to Run's table in `Cluster.RunAndMainTables` |
| `Cluster.LegacyGateTable` | pkg/monitoringcheck/clustercheck.go:559-576 | definition of the older gate's 4 entries; shape in `Cluster.LegacyGateTableShape`, relation to Run's table in `Cluster.LegacyGateTableInRunTable` |
| `Cluster.Fill` | pkg/monitoringcheck/clustercheck.go:662-711 | a query text built by concatenation starts with the template's first literal piece; its length is stated by `Cluster.FillLength` |
| `Cluster.RequestFor` | pkg/monitoringcheck/clustercheck.go:715 | definition: a table entry is sent as its filled-in PromQL text to the endpoint with the login |
| `Cluster.GateTableShape` | pkg/gatecheck/gatecheck.go:227-276 | 12 entries in fixed order; only entry 1 (CLUSTER) interpolates the short name |
| `Cluster.RunTableShape` | pkg/monitoringcheck/clustercheck.go:662-711 | 12 entries in fixed order; only entry 1 (CLUSTER) interpolates the short name |
| `Cluster.MainTableShape` | main.go:195-244 | 12 entries; every entry, CLUSTER included, interpolates the one final cluster string |
| `Cluster.LegacyGateTableShape` | pkg/monitoringcheck/clustercheck.go:559-576 | 4 entries (API Server, Kubelet, Node Status, System Pods), all on the full name |
| `Cluster.RunAndMainTables` | main.go:195-244 | with short and full names equal, Run's and main's tables send the same query at every index except APISERVER (0) and STORAGECHECK (9); at those two, for any names, the expressions and filled-in PromQL texts differ (pkg/monitoringcheck/clustercheck.go:665, :701 against main.go:198, :234) |
| `Cluster.GateAndRunTables` | pkg/gatecheck/gatecheck.go:227-276 | the gate table and Run's table use the same cluster string at every index and the same query except at the two Fluent entries (2 and 3), where the expressions differ |
| `Cluster.LegacyGateTableInRunTable` | pkg/monitoringcheck/clustercheck.go:559-576 | the older gate table's four entries send the expressions of Run's entries 0, 6, 8 and 11, on the same full name |
| `Cluster.FillLength` | pkg/monitoringcheck/clustercheck.go:701 | a filled template is as long as its pieces plus one cluster string per hole (STORAGECHECK fills two holes) |
| `Gate.Record` | pkg/gatecheck/gatecheck.go:96-104 | one append keeps total = passed + failed = length and passed = number of passed results |
| `Gate.RecordAllSpec` | pkg/gatecheck/gatecheck.go:96-104 | recording the metric results keeps the invariant, appends them in order, adds their count to the total and their passes to passed |
| `Gate.Score` | pkg/gatecheck/gatecheck.go:113-116 | definition of 100 * passed / total, 0 with no checks; its range is stated by `Gate.ScoreRange`, its threshold by `Gate.ScoreThreshold`, and score * total = 100 * passed by `Gate.Finalize` |
| `Gate.ScoreRange` | pkg/gatecheck/gatecheck.go:113-116 | the health score lies in [0, 100] |
| `Gate.ScoreThreshold` | pkg/gatecheck/gatecheck.go:113-117 | score >= 80 iff total > 0 and 5 * passed >= 4 * total |
| `Gate.Finalize` | pkg/gatecheck/gatecheck.go:113-117 | score * total = 100 * passed when total > 0, score 0 otherwise; OverallPassed iff score >= 80, in integers 5*passed >= 4*total with total > 0; counters and results untouched |
| `Gate.FinalizeIdempotent` | pkg/gatecheck/gatecheck.go:113-117 | finalizing twice gives the same result |
| `Gate.BandOf` | pkg/gatecheck/gatecheck.go:148-156 | the band is EXCELLENT or GOOD exactly when the score reaches the 80 threshold |
| `Gate.BandAgreesWithGate` | pkg/gatecheck/gatecheck.go:148-156 | the band is EXCELLENT or GOOD exactly when the gate passes |
| `Gate.ProbeResult` | pkg/gatecheck/gatecheck.go:50-66 | a probe's entry passes iff the probe returned nil; on failure its message is the error text |
| `Gate.Aggregate` | pkg/gatecheck/gatecheck.go:47-163 | results are Pod Health, Flux Resources, then the metric results in order; counters consistent; total = 2 + metric count; HealthScore is `Gate.Score` (100 * passed / total, 0 with no checks) of the final counters; error returned iff OverallPassed is false, carrying that HealthScore |
| `Gate.GateAuth` | pkg/gatecheck/gatecheck.go:177-202 | without Bitwarden the environment login is used; with it a parsed item's login replaces it, a failed lookup fails with "Failed to get Bitwarden credentials: <e>" and a failed parse with "Failed to parse Bitwarden JSON: <e>" |
| `Gate.MetricCheck` | pkg/gatecheck/gatecheck.go:281-305 | passes iff no query error and the value is exactly "1"; "Query error: <e>" or "Value: <v> (expected: 1)" otherwise |
| `Gate.QueryAll` | pkg/gatecheck/gatecheck.go:278-307 | one result per table entry, in table order, named by its description, whatever earlier queries returned; each passes iff its own reply has no error and value "1", with message "Healthy" when it passes, "Query error: <e>" on an error and "Value: <v> (expected: 1)" on any other value |
| `Gate.AllPassedIffCount` | pkg/gatecheck/gatecheck.go:278-309 | allPassed holds iff the passed count equals the number of results |
| `Gate.PrometheusChecks` | pkg/gatecheck/gatecheck.go:167-310 | a credential failure yields the single failed "Prometheus Authentication" entry; otherwise 12 entries in table order, each passing iff its reply has no error and value "1" |
| `Gate.GateCheck` | pkg/gatecheck/gatecheck.go:31-164 | counters consistent; entry 0 is Pod Health and entry 1 Flux Resources, each passing iff its probe returns nil and otherwise carrying the probe's error text; entries from 2 on are exactly runPrometheusChecks' results; OverallPassed iff 5 * passed >= 4 * total; HealthScore is `Gate.Score` of the final counters and is the value the error carries; a credential failure gives 3 checks and a failed gate, otherwise 14 checks; error iff the gate fails |
| `Gate.AuthFailureFailsGate` | pkg/gatecheck/gatecheck.go:177-198 | a credential failure gives total 3 and the gate can never pass |
| `Gate.FullRunHasFourteenChecks` | pkg/gatecheck/gatecheck.go:94-104 | without credential failure a run records 14 checks |
| `Gate.FourteenChecksThreshold` | pkg/gatecheck/gatecheck.go:113-117 | with 14 checks the gate passes iff at most 2 fail |
| `Gate.ThresholdBoundary` | pkg/gatecheck/gatecheck.go:117 | exactly 80 passes; zero checks gives score 0 and fails |
| `Gate.PodFailureStillPasses` | pkg/gatecheck/gatecheck.go:50-66 | a failed pod probe with everything else passing gives 13 of 14, a passing gate, and a first entry carrying the error |
| `LegacyGate.PrometheusChecks` | pkg/monitoringcheck/clustercheck.go:501-610 | a credential failure yields the single authentication entry; otherwise 4 entries in table order, each passing iff the exchange decoded with first sample "1" |
| `LegacyGate.GateCheck` | pkg/monitoringcheck/clustercheck.go:366-498 | same aggregation over the file's own probes: counters consistent; Pod Health and Flux Resources pass iff the probes return nil and otherwise carry the probe's error text; entries from 2 on are exactly the file's runPrometheusChecks results; OverallPassed iff 5 * passed >= 4 * total; HealthScore is `Gate.Score` of the final counters and is the value the error carries; a credential failure gives 3 checks and a failed gate, otherwise 6 checks; error iff the gate fails |
| `LegacyGate.FullRunHasSixChecks` | pkg/monitoringcheck/clustercheck.go:428-451 | a full run of the older copy has 6 checks and passes iff at most one fails |
| `LegacyGate.ExchangeFailureRecorded` | pkg/monitoringcheck/clustercheck.go:578-588 | a failed exchange becomes one failed "Query error: <e>" entry; the table still yields all 4 entries |
| `Display.DisplayLogin` | pkg/monitoringcheck/clustercheck.go:621-636 | without Bitwarden the environment login; with it the item's fields always overwrite the login: the parsed login, the partially filled one after a parse failure, empty credentials after a failed lookup |
| `Display.LineFor` | pkg/monitoringcheck/clustercheck.go:714-731 | an error line without verdict iff the query failed; otherwise OK iff (value == "1") XOR the FLUENT prefix |
| `Display.Lines` | pkg/monitoringcheck/clustercheck.go:714-733 | one line per table entry in order, carrying its description; an error line with the cause iff that entry's exchange failed, otherwise OK iff (first sample is "1") XOR the FLUENT prefix, an empty vector reading as not "1" |
| `Display.Run` | pkg/monitoringcheck/clustercheck.go:613-734 | the header names the resolved cluster, and 12 lines are printed |
| `Display.MainReport` | main.go:144-267 | the header names the resolved cluster, and 12 lines are printed |
| `Display.RunLineSpec` | pkg/monitoringcheck/clustercheck.go:714-731 | line i has entry i's description; it is an error line iff that exchange failed; otherwise OK iff DisplayOk of the extracted value |
| `Display.RunClusterQueryUsesShortName` | pkg/monitoringcheck/clustercheck.go:668-669 | Run's CLUSTER query uses the context name before suffixes ("" on error); all others use the full name |
| `Display.MainUsesOneClusterString` | main.go:195-251 | every one of main's requests interpolates the same final cluster string, and its line is computed from that request's reply |
| `Display.RunMatchesMain` | main.go:175-244 | with no FQDN and no override, Run and main print the same header and the same line for every entry except APISERVER and STORAGECHECK |
| `Display.ApiserverLinesCanDiffer` | main.go:198 | against a server that has job="kube-apiserver" series but no application="apiserver" series, Run prints APISERVER OK and main prints it FAIL |
| `Display.FailedLookupOverwritesLogin` | pkg/monitoringcheck/clustercheck.go:624-636 | a failed lookup replaces even a non-empty PROM_USER with empty credentials |
| `Agreement.OnlyFluentEntriesInverted` | pkg/monitoringcheck/clustercheck.go:662-731 | of the 12 display descriptions exactly FLUENTBITERRORS and FLUENTDERRORS (2 and 3) carry the inverted prefix |
| `Agreement.SameLogin` | pkg/gatecheck/gatecheck.go:177-202 | whenever the gate obtains credentials they are the ones the display run uses |
| `Agreement.GateAgreesWithRun` | pkg/gatecheck/gatecheck.go:278-307 | for every entry but the two Fluent ones and any server answers, the gate passes the entry iff Run prints it OK, given a readable context, credentials, and that the gate's replies are QueryPrometheus applied to the same answers |
| `Agreement.LegacyGateAgreesWithRun` | pkg/monitoringcheck/clustercheck.go:578-609 | the older gate copy's entry k passes iff Run prints OK for the entry sending the same expression |
| `Agreement.FluentEntriesDisagreeOnOne` | pkg/gatecheck/gatecheck.go:236-243 | when the server answers "1" everywhere and the gate's replies are QueryPrometheus applied to those answers, the gate passes FLUENTBIT_OK/FLUENTD_OK while Run prints FAIL for FLUENTBITERRORS/FLUENTDERRORS |

## Left out

- HTTP transport is not modelled: the TLS-insecure client, proxy, 10 s timeout,
  URL encoding and basic auth are library I/O. A query is an `Exchange` input.
- JSON decoding and the `.(string)` type assertion on the sample value are left
  out. A non-string sample would panic in the source. The model takes samples
  as already-decoded strings.
- The 5-argument `QueryPrometheus` and `GetBitwardenItemJSON` that
  `pkg/gatecheck/gatecheck.go` calls are not part of this model. The gate's
  replies come from the `backend` parameter.
- `Agreement.GateAgreesWithRun`: holds only under the stated assumption that
  the gate's replies are QueryPrometheus of clustercheck.go applied to the
  same answers. The gate's own 5-argument QueryPrometheus is not part of this
  model, so the model does not promise agreement for other reply functions.
- `Agreement.FluentEntriesDisagreeOnOne`: rests on the same assumption about
  the gate's replies.
- The Kubernetes clients, scheme setup, kubeconfig loading and namespace list
  options are left out. Pods and resources are input sequences. The namespace
  argument is folded into those inputs.
- The Bitwarden subprocess and environment reads are left out. Their results
  are the `SecretLookup` and `Environment` inputs.
- pkg/common/utils.go (kubeconfig path precedence) is not part of this model.
- PromQL is not interpreted. Each table entry records its expression as a
  template and the cluster string filled into it. The server's answer to an
  expression is the `backend` input.
- Terminal output is left out: ANSI colours, emoji, banners, debug tracing, and
  the display of the context name in probe headers.
- `Gate.Finalize`: the score is an exact real, not a float64. At the 80
  boundary the two agree. `p/t` with `p/t = 0.8` rounds to the same double for
  every `t`. Rounding could only matter for totals far beyond any check count.
- `Gate.GateCheck`: the error carries the score as a real instead of the
  `%.1f`-formatted message "cluster health check failed with score …".
- `Display.DisplayLogin`: on a parse failure the model uses whatever login the
  `ParseFailed` input carries. It does not model which fields `json.Unmarshal`
  fills before failing.
- `main` in main.go runs only the display loop. It has no mode switch and sets
  no exit code, and the model reports only its lines.
