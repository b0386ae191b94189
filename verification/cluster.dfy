/**
 Cluster-identifier resolution and query-table instantiation.

 Three copies of the resolution code exist and differ in small ways:
 - runPrometheusChecks in pkg/gatecheck/gatecheck.go and in
   pkg/monitoringcheck/clustercheck.go fall back to "unknown" when the
   kube context cannot be read;
 - Run in pkg/monitoringcheck/clustercheck.go and main in main.go keep the
   empty string that GetCurrentContext returns with its error;
 - gatecheck.go and Run also keep a short name taken BEFORE the FQDN
   suffixes, used only by the CLUSTER query; main.go has no short name.

 A table entry records its description, its PromQL template (the literal
 pieces between which the cluster string is inserted, as the source's string
 concatenation does) and the cluster string it interpolates. PromQL itself is
 not interpreted: two entries ask the same question exactly when their
 templates and cluster strings are equal.
 */
module Cluster {
  import opened Basics

  /** The result of reading the current kube context. */
  datatype ContextLookup = ContextFound(name: string) | ContextFailed(cause: string)

  /** The environment variables the metric checks read, "" when unset. */
  datatype Environment = Environment(
    promUser: string,         // PROM_USER
    promPass: string,         // PROM_PASS
    bitwarden: string,        // CLUSTERCHECK_BW
    fqdn: string,             // CLUSTERCHECK_FQDN
    prometheusUrl: string,    // PROMETHEUS_URL
    cluster: string           // CLUSTER
  )

  /** The command-line flags the metric checks read. */
  datatype Flags = Flags(bitwarden: bool, fqdn: string)

  /** The resolved identifiers: the full one and the one taken before any suffix. */
  datatype ClusterNames = ClusterNames(cluster: string, short: string)

  /** A query-table entry: description, PromQL template, and the cluster string filled into it. */
  datatype MetricQuery = MetricQuery(description: string, template: seq<string>, cluster: string)

  /** The Prometheus credentials. */
  datatype Login = Login(username: string, password: string)

  /**
   The Bitwarden item lookup: the CLI call fails, or its output does not
   parse (leaving whatever fields were filled), or it yields a login.
   */
  datatype SecretLookup = LookupFailed(cause: string) | ParseFailed(cause: string, partial: Login) | Parsed(login: Login)

  /**
   One call to the metric backend, as the server sees it: the endpoint, the
   PromQL text with the cluster filled in, and the credentials. The entry's
   description never leaves the program.
   */
  datatype Request = Request(endpoint: string, promql: string, login: Login)

  /** The endpoint used when PROMETHEUS_URL is unset. */
  const DefaultEndpoint: string := "https://127.0.0.1:9090"

  /** The identifier used by the gate copies when the context cannot be read. */
  const UnknownCluster: string := "unknown"

  /** The Prometheus endpoint: a non-empty PROMETHEUS_URL replaces the default. */
  function Endpoint(env: Environment): (url: string)
    ensures env.prometheusUrl != "" ==> url == env.prometheusUrl
    ensures env.prometheusUrl == "" ==> url == DefaultEndpoint
    ensures url != ""
  {
    if env.prometheusUrl != "" then env.prometheusUrl else DefaultEndpoint
  }

  /** The context name, or `fallback` when the lookup failed. */
  function ContextOr(ctx: ContextLookup, fallback: string): string
  {
    match ctx
    case ContextFound(n) => n
    case ContextFailed(_) => fallback
  }

  /** Appends "." + `suffix` when the suffix is non-empty, as the source does for each FQDN. */
  function AddSuffix(name: string, suffix: string): string
  {
    if suffix != "" then name + "." + suffix else name
  }

  /**
   The resolution steps shared by every copy: capture the short name, append
   the flag FQDN, then the environment FQDN, then let a non-empty CLUSTER
   replace the full name (and only the full name).
   */
  function Resolve(base: string, flags: Flags, env: Environment): (r: ClusterNames)
    ensures r.short == base
    ensures env.cluster != "" ==> r.cluster == env.cluster
    ensures env.cluster == "" ==> HasPrefix(r.cluster, base)
    ensures env.cluster == "" && flags.fqdn == "" && env.fqdn == "" ==> r.cluster == base
    ensures env.cluster == "" && flags.fqdn != "" ==> HasPrefix(r.cluster, base + "." + flags.fqdn)
    ensures env.cluster == "" && env.fqdn != "" ==> |r.cluster| == |base| + (if flags.fqdn != "" then |flags.fqdn| + 1 else 0) + 1 + |env.fqdn|
  {
    var withFlag := AddSuffix(base, flags.fqdn);
    var withEnv := AddSuffix(withFlag, env.fqdn);
    assert withEnv[..|withFlag|] == withFlag;
    assert withFlag[..|base|] == base;
    ClusterNames(if env.cluster != "" then env.cluster else withEnv, base)
  }

  /** Each set FQDN is appended with a ".", the flag FQDN before the environment FQDN. */
  lemma SuffixOrder(base: string, flags: Flags, env: Environment)
    requires env.cluster == ""
    ensures flags.fqdn != "" && env.fqdn != "" ==> Resolve(base, flags, env).cluster == base + "." + flags.fqdn + "." + env.fqdn
    ensures flags.fqdn != "" && env.fqdn == "" ==> Resolve(base, flags, env).cluster == base + "." + flags.fqdn
    ensures flags.fqdn == "" && env.fqdn != "" ==> Resolve(base, flags, env).cluster == base + "." + env.fqdn
    ensures flags.fqdn == "" && env.fqdn == "" ==> Resolve(base, flags, env).cluster == base
  {
  }

  /** The short name depends on the context alone: no suffix and no override reach it. */
  lemma ShortIgnoresSuffixes(base: string, f1: Flags, e1: Environment, f2: Flags, e2: Environment)
    ensures Resolve(base, f1, e1).short == Resolve(base, f2, e2).short
  {
  }

  /** Resolution in the gate copies: "unknown" when the context cannot be read. */
  function GateNames(ctx: ContextLookup, flags: Flags, env: Environment): (r: ClusterNames)
    ensures ctx.ContextFailed? ==> r.short == UnknownCluster
    ensures ctx.ContextFound? ==> r.short == ctx.name
  {
    Resolve(ContextOr(ctx, UnknownCluster), flags, env)
  }

  /** Resolution in Run and in main: the empty name survives a context error. */
  function DisplayNames(ctx: ContextLookup, flags: Flags, env: Environment): (r: ClusterNames)
    ensures ctx.ContextFailed? ==> r.short == ""
    ensures ctx.ContextFound? ==> r.short == ctx.name
  {
    Resolve(ContextOr(ctx, ""), flags, env)
  }

  /** The gate and display resolutions differ only when the context lookup failed. */
  lemma GateAndDisplayNames(ctx: ContextLookup, flags: Flags, env: Environment)
    ensures ctx.ContextFound? ==> GateNames(ctx, flags, env) == DisplayNames(ctx, flags, env)
    ensures ctx.ContextFailed? && flags.fqdn == "" && env.fqdn == "" && env.cluster == "" ==>
              GateNames(ctx, flags, env).cluster == "unknown" && DisplayNames(ctx, flags, env).cluster == ""
  {
  }

  /** The PromQL text of an entry: the template's pieces joined by the cluster string. */
  function Fill(pieces: seq<string>, cluster: string): (r: string)
    ensures |pieces| > 0 ==> HasPrefix(r, pieces[0])
  {
    if |pieces| == 0 then ""
    else if |pieces| == 1 then pieces[0]
    else pieces[0] + cluster + Fill(pieces[1..], cluster)
  }

  /** The sum of the lengths of the pieces. */
  function PiecesLength(pieces: seq<string>): nat
  {
    if |pieces| == 0 then 0 else |pieces[0]| + PiecesLength(pieces[1..])
  }

  /** A filled template is its pieces plus one copy of the cluster string per hole. */
  lemma {:induction false} FillLength(pieces: seq<string>, cluster: string)
    requires |pieces| > 0
    ensures |Fill(pieces, cluster)| == PiecesLength(pieces) + (|pieces| - 1) * |cluster|
  {
    if |pieces| > 1 {
      FillLength(pieces[1..], cluster);
    } else {
      assert pieces[1..] == [];
    }
  }

  /** The request sent for a table entry. */
  function RequestFor(endpoint: string, q: MetricQuery, login: Login): Request
  {
    Request(endpoint, Fill(q.template, q.cluster), login)
  }

  // The PromQL templates of the four tables. Where two tables use the same
  // expression they share the template; where they differ, so do the names.
  const ApiserverJob: seq<string> := ["avg(up{job=\"kube-apiserver\",cluster=\"", "\"})"]
  const ApiserverApplication: seq<string> := ["avg(up{application=\"apiserver\",cluster=\"", "\"})"]
  const ClusterPhase: seq<string> := ["capi_cluster_status_phase{phase=\"Provisioned\", tenantcluster=\"", "\"} == 1"]
  const FluentbitOk: seq<string> := ["count(max(fluentbit_output_errors_total{cluster=\"", "\"}) + 1)"]
  const FluentdOk: seq<string> := ["count(max(fluentd_output_status_num_errors{cluster=\"", "\"}) + 1)"]
  const FluentbitErrors: seq<string> := ["rate(fluentbit_output_errors_total{cluster=\"", "\"}[1h])) > 0"]
  const FluentdErrors: seq<string> := ["avg(fluentd_output_status_num_errors{cluster=\"", "\"}) > 0"]
  const Goldpinger: seq<string> := ["avg(goldpinger_cluster_health_total{cluster=\"", "\"})"]
  const KubeDns: seq<string> := ["avg(up{job=\"kube-dns\", cluster=\"", "\"})"]
  const Kubelet: seq<string> := ["clamp((count(up{job=\"kubelet\", cluster=\"", "\"}) > 3),1,1)"]
  const NetworkOperator: seq<string> := ["clamp(avg(nwop_netlink_routes_fib{protocol=\"bgp\",vrf=\"main\",cluster=\"", "\"}),1,1)"]
  const NodeReady: seq<string> := ["min(kube_node_status_condition{condition=\"Ready\",status=\"true\",cluster=\"", "\"})"]
  const StorageIncrease: seq<string> := [
    "clamp((increase(storage_check_success_total{cluster=\"",
    "\"}[1h]) > 1),1,1) OR (storage_check_failure_total{cluster=\"",
    "\"} > 0)"]
  const StorageBoth: seq<string> := [
    "clamp((storage_check_success_total{cluster=\"",
    "\"} > 0 AND storage_check_failure_total{cluster=\"",
    "\"} == 0),1,1)"]
  const PrometheusAgent: seq<string> := ["avg(up{job=\"prometheus-agent\",cluster=\"", "\"})"]
  const SystemPods: seq<string> :=
    ["clamp(sum(kube_pod_status_phase{namespace=~\".*-system\", phase!~\"Running|Succeeded\",cluster=\"", "\"} == 0),1,1)"]

  /** Descriptions of the 12 entries of the gate table in gatecheck.go. */
  const GateDescriptions: seq<string> := [
    "APISERVER", "CLUSTER", "FLUENTBIT_OK", "FLUENTD_OK", "GOLDPINGER", "KUBEDNS",
    "KUBELET", "NETWORKOPERATOR", "NODE", "STORAGECHECK", "PROMETHEUSAGENT", "SYSTEMPODS"]

  /** Descriptions of the 12 entries of the display tables in Run and main. */
  const DisplayDescriptions: seq<string> := [
    "APISERVER", "CLUSTER", "FLUENTBITERRORS", "FLUENTDERRORS", "GOLDPINGER", "KUBEDNS",
    "KUBELET", "NETWORKOPERATOR", "NODE", "STORAGECHECK", "PROMETHEUSAGENT", "SYSTEMPODS"]

  /** Descriptions of the 4 entries of the older gate table in clustercheck.go. */
  const LegacyGateDescriptions: seq<string> := ["API Server", "Kubelet", "Node Status", "System Pods"]

  /** The gate table of gatecheck.go: the CLUSTER entry reads the short name. */
  function GateTable(n: ClusterNames): seq<MetricQuery>
  {
    var c := n.cluster;
    [ MetricQuery("APISERVER", ApiserverJob, c),
      MetricQuery("CLUSTER", ClusterPhase, n.short),
      MetricQuery("FLUENTBIT_OK", FluentbitOk, c),
      MetricQuery("FLUENTD_OK", FluentdOk, c),
      MetricQuery("GOLDPINGER", Goldpinger, c),
      MetricQuery("KUBEDNS", KubeDns, c),
      MetricQuery("KUBELET", Kubelet, c),
      MetricQuery("NETWORKOPERATOR", NetworkOperator, c),
      MetricQuery("NODE", NodeReady, c),
      MetricQuery("STORAGECHECK", StorageIncrease, c),
      MetricQuery("PROMETHEUSAGENT", PrometheusAgent, c),
      MetricQuery("SYSTEMPODS", SystemPods, c) ]
  }

  /** The older gate table of clustercheck.go: four entries, all on the full name. */
  function LegacyGateTable(cluster: string): seq<MetricQuery>
  {
    [ MetricQuery("API Server", ApiserverJob, cluster),
      MetricQuery("Kubelet", Kubelet, cluster),
      MetricQuery("Node Status", NodeReady, cluster),
      MetricQuery("System Pods", SystemPods, cluster) ]
  }

  /** The table of Run in clustercheck.go: the CLUSTER entry reads the short name. */
  function RunTable(n: ClusterNames): seq<MetricQuery>
  {
    var c := n.cluster;
    [ MetricQuery("APISERVER", ApiserverJob, c),
      MetricQuery("CLUSTER", ClusterPhase, n.short),
      MetricQuery("FLUENTBITERRORS", FluentbitErrors, c),
      MetricQuery("FLUENTDERRORS", FluentdErrors, c),
      MetricQuery("GOLDPINGER", Goldpinger, c),
      MetricQuery("KUBEDNS", KubeDns, c),
      MetricQuery("KUBELET", Kubelet, c),
      MetricQuery("NETWORKOPERATOR", NetworkOperator, c),
      MetricQuery("NODE", NodeReady, c),
      MetricQuery("STORAGECHECK", StorageIncrease, c),
      MetricQuery("PROMETHEUSAGENT", PrometheusAgent, c),
      MetricQuery("SYSTEMPODS", SystemPods, c) ]
  }

  /** The table of main.go: every entry, CLUSTER included, reads the same name. */
  function MainTable(cluster: string): seq<MetricQuery>
  {
    [ MetricQuery("APISERVER", ApiserverApplication, cluster),
      MetricQuery("CLUSTER", ClusterPhase, cluster),
      MetricQuery("FLUENTBITERRORS", FluentbitErrors, cluster),
      MetricQuery("FLUENTDERRORS", FluentdErrors, cluster),
      MetricQuery("GOLDPINGER", Goldpinger, cluster),
      MetricQuery("KUBEDNS", KubeDns, cluster),
      MetricQuery("KUBELET", Kubelet, cluster),
      MetricQuery("NETWORKOPERATOR", NetworkOperator, cluster),
      MetricQuery("NODE", NodeReady, cluster),
      MetricQuery("STORAGECHECK", StorageBoth, cluster),
      MetricQuery("PROMETHEUSAGENT", PrometheusAgent, cluster),
      MetricQuery("SYSTEMPODS", SystemPods, cluster) ]
  }

  /** The descriptions of a table, in table order. */
  function Descriptions(t: seq<MetricQuery>): (ds: seq<string>)
    ensures |ds| == |t|
    ensures forall i :: 0 <= i < |t| ==> ds[i] == t[i].description
  {
    seq(|t|, i requires 0 <= i < |t| => t[i].description)
  }

  /**
   Shape of the gate table: twelve entries in a fixed order, and the entry
   at index 1 (CLUSTER) is the only one that reads the short name.
   */
  lemma GateTableShape(n: ClusterNames)
    ensures |GateTable(n)| == 12
    ensures Descriptions(GateTable(n)) == GateDescriptions
    ensures GateTable(n)[1] == MetricQuery("CLUSTER", ClusterPhase, n.short)
    ensures forall i :: 0 <= i < 12 && i != 1 ==> GateTable(n)[i].cluster == n.cluster
  {
  }

  /** Shape of Run's table: same order as main's, CLUSTER reads the short name. */
  lemma RunTableShape(n: ClusterNames)
    ensures |RunTable(n)| == 12
    ensures Descriptions(RunTable(n)) == DisplayDescriptions
    ensures RunTable(n)[1] == MetricQuery("CLUSTER", ClusterPhase, n.short)
    ensures forall i :: 0 <= i < 12 && i != 1 ==> RunTable(n)[i].cluster == n.cluster
  {
  }

  /** Shape of main's table: every query interpolates the one final cluster string. */
  lemma MainTableShape(cluster: string)
    ensures |MainTable(cluster)| == 12
    ensures Descriptions(MainTable(cluster)) == DisplayDescriptions
    ensures forall i :: 0 <= i < 12 ==> MainTable(cluster)[i].cluster == cluster
  {
  }

  /** Shape of the older gate table: four entries on the full name. */
  lemma LegacyGateTableShape(cluster: string)
    ensures |LegacyGateTable(cluster)| == 4
    ensures Descriptions(LegacyGateTable(cluster)) == LegacyGateDescriptions
    ensures forall i :: 0 <= i < 4 ==> LegacyGateTable(cluster)[i].cluster == cluster
  {
  }

  /**
   Run's and main's tables: when the short and full names coincide, the
   same query at every index except APISERVER (0) and STORAGECHECK (9);
   at those two main.go sends a different expression whatever the names.
   */
  lemma RunAndMainTables(n: ClusterNames)
    ensures n.short == n.cluster ==>
              forall i :: 0 <= i < 12 && i != 0 && i != 9 ==> RunTable(n)[i] == MainTable(n.cluster)[i]
    ensures RunTable(n)[0].template != MainTable(n.cluster)[0].template
    ensures RunTable(n)[9].template != MainTable(n.cluster)[9].template
    ensures Fill(RunTable(n)[0].template, n.cluster) != Fill(MainTable(n.cluster)[0].template, n.cluster)
    ensures Fill(RunTable(n)[9].template, n.cluster) != Fill(MainTable(n.cluster)[9].template, n.cluster)
  {
    assert |ApiserverJob[0]| != |ApiserverApplication[0]|;
    assert |StorageIncrease[0]| != |StorageBoth[0]|;
    assert |Fill(ApiserverJob, n.cluster)| != |Fill(ApiserverApplication, n.cluster)|;
    FillLength(StorageIncrease, n.cluster);
    FillLength(StorageBoth, n.cluster);
  }

  /**
   The gate table and Run's table: the same cluster string at every index,
   and the same query everywhere except the two Fluent entries (2 and 3),
   where the gate counts outputs instead of error rates.
   */
  lemma GateAndRunTables(n: ClusterNames)
    ensures forall i :: 0 <= i < 12 ==> GateTable(n)[i].cluster == RunTable(n)[i].cluster
    ensures forall i :: 0 <= i < 12 && i != 2 && i != 3 ==> GateTable(n)[i] == RunTable(n)[i]
    ensures GateTable(n)[2].template != RunTable(n)[2].template
    ensures GateTable(n)[3].template != RunTable(n)[3].template
  {
    assert |FluentbitOk[0]| != |FluentbitErrors[0]|;
    assert |FluentdOk[1]| != |FluentdErrors[1]|;
  }

  /** Indices in Run's table of the four expressions the older gate table reuses. */
  const LegacyIndices: seq<nat> := [0, 6, 8, 11]

  /** The older gate table asks four of Run's questions, on the full name, under other descriptions. */
  lemma LegacyGateTableInRunTable(n: ClusterNames)
    ensures forall k :: 0 <= k < 4 ==>
              LegacyGateTable(n.cluster)[k].template == RunTable(n)[LegacyIndices[k]].template
              && LegacyGateTable(n.cluster)[k].cluster == RunTable(n)[LegacyIndices[k]].cluster
  {
  }
}
