/**
 The GitOps probe (CheckFlux in pkg/fluxcheck/fluxcheck.go; the copy in
 pkg/monitoringcheck/clustercheck.go has the same decision logic without
 the debug tracing).

 HelmReleases are listed and classified first, then Kustomizations, with one
 shared set of counters. Each resource is judged by the FIRST of its status
 conditions whose type is "Ready"; conditions after it are never read.
 */
module Flux {
  import opened Basics

  /** One status condition of a Flux object (metav1.Condition, fields read by the probe). */
  datatype Condition = Condition(ctype: string, status: string, message: string)

  /** A HelmRelease or Kustomization, reduced to what the probe reads. */
  datatype Resource = Resource(namespace: string, name: string, conditions: seq<Condition>)

  /** The two Flux kinds the probe lists. */
  datatype Kind = HelmRelease | Kustomization

  /** Everything CheckFlux learns from the cluster, in the order it asks. */
  datatype FluxEnv = FluxEnv(config: Step, client: Step, helmReleases: Listing<Resource>, kustomizations: Listing<Resource>)

  /** Why CheckFlux returned a non-nil error. */
  datatype FluxError =
    | BuildConfig(cause: string)
    | CreateClient(cause: string)
    | ListHelmReleases(cause: string)
    | ListKustomizations(cause: string)
    | NotReady(count: nat)

  /**
   What the probe concludes about one resource. `Unjudged` is a resource
   whose conditions are non-empty but contain no Ready condition: the
   program neither counts it as ready nor records a failure for it.
   */
  datatype Verdict = IsReady | Failing(message: string) | NoConditions | Unjudged

  const ReadyType: string := "Ready"
  const ConditionTrue: string := "True"

  function KindName(k: Kind): string
  {
    match k
    case HelmRelease => "HelmRelease"
    case Kustomization => "Kustomization"
  }

  /** Index of the first Ready condition, or |conds| when there is none. */
  function FirstReady(conds: seq<Condition>): (k: nat)
    ensures k <= |conds|
    ensures k < |conds| ==> conds[k].ctype == ReadyType
    ensures forall j :: 0 <= j < k ==> conds[j].ctype != ReadyType
  {
    if |conds| == 0 then 0
    else if conds[0].ctype == ReadyType then 0
    else 1 + FirstReady(conds[1..])
  }

  /** `k` is the position of the first condition of type Ready. */
  predicate IsFirstReady(conds: seq<Condition>, k: int)
  {
    0 <= k < |conds| && conds[k].ctype == ReadyType && forall j :: 0 <= j < k ==> conds[j].ctype != ReadyType
  }

  /** The verdict of the loop over one resource's conditions, with its break after the first Ready. */
  function Judge(r: Resource): (v: Verdict)
    ensures v.IsReady? <==> exists k :: IsFirstReady(r.conditions, k) && r.conditions[k].status == ConditionTrue
    ensures v == NoConditions <==> |r.conditions| == 0
    ensures v == Unjudged <==> |r.conditions| > 0 && forall j :: 0 <= j < |r.conditions| ==> r.conditions[j].ctype != ReadyType
    ensures v.Failing? ==> exists k :: IsFirstReady(r.conditions, k) && r.conditions[k].status != ConditionTrue
                                       && r.conditions[k].message == v.message
  {
    var k := FirstReady(r.conditions);
    if k < |r.conditions| then
      if r.conditions[k].status == ConditionTrue then IsReady else Failing(r.conditions[k].message)
    else if |r.conditions| == 0 then NoConditions
    else Unjudged
  }

  /** Conditions after the first Ready condition never change the verdict. */
  lemma OnlyFirstReadyCounts(r: Resource, later: seq<Condition>)
    requires FirstReady(r.conditions) < |r.conditions|
    ensures Judge(Resource(r.namespace, r.name, r.conditions + later)) == Judge(r)
  {
    FirstReadyPrefix(r.conditions, later);
  }

  /** Appending conditions after an existing Ready condition does not move the first one. */
  lemma {:induction false} FirstReadyPrefix(conds: seq<Condition>, later: seq<Condition>)
    requires FirstReady(conds) < |conds|
    ensures FirstReady(conds + later) == FirstReady(conds)
  {
    if conds[0].ctype != ReadyType {
      assert (conds + later)[1..] == conds[1..] + later;
      FirstReadyPrefix(conds[1..], later);
    }
  }

  /** The failure line recorded for a resource, if its verdict records one. */
  function FailureLines(k: Kind, r: Resource): seq<string>
  {
    var id := KindName(k) + " " + r.namespace + "/" + r.name + ": ";
    match Judge(r)
    case Failing(msg) => [id + msg]
    case NoConditions => [id + "No conditions set"]
    case _ => []
  }

  /** The three counters of CheckFlux. */
  datatype Counters = Counters(total: nat, ready: nat, failed: seq<string>)

  /** The classification loop over one list of resources of kind `k`. */
  function Scan(k: Kind, items: seq<Resource>): Counters
  {
    if |items| == 0 then Counters(0, 0, [])
    else
      var t := Scan(k, items[..|items| - 1]);
      var r := items[|items| - 1];
      Counters(t.total + 1, t.ready + (if Judge(r).IsReady? then 1 else 0), t.failed + FailureLines(k, r))
  }

  /** HelmReleases first, then Kustomizations, into the same counters. */
  function Summary(helms: seq<Resource>, kusts: seq<Resource>): (t: Counters)
  {
    var h := Scan(HelmRelease, helms);
    var s := Scan(Kustomization, kusts);
    Counters(h.total + s.total, h.ready + s.ready, h.failed + s.failed)
  }

  /** Number of resources whose verdict records a failure line. */
  function FailingCount(items: seq<Resource>): nat
  {
    if |items| == 0 then 0
    else FailingCount(items[..|items| - 1]) + (if Judge(items[|items| - 1]).Failing? || Judge(items[|items| - 1]) == NoConditions then 1 else 0)
  }

  /**
   Every resource is counted, at most once as ready or failed, and exactly
   the resources with a failing verdict contribute a line.
   */
  lemma {:induction false} ScanCounts(k: Kind, items: seq<Resource>)
    ensures Scan(k, items).total == |items|
    ensures |Scan(k, items).failed| == FailingCount(items)
    ensures Scan(k, items).ready + |Scan(k, items).failed| <= |items|
  {
    if |items| > 0 {
      ScanCounts(k, items[..|items| - 1]);
    }
  }

  /** No failure line is recorded exactly when no resource is failing or condition-less. */
  lemma {:induction false} NoLinesIffNoneFailing(k: Kind, items: seq<Resource>)
    ensures |Scan(k, items).failed| == 0 <==>
              forall i :: 0 <= i < |items| ==> Judge(items[i]).IsReady? || Judge(items[i]) == Unjudged
  {
    if |items| > 0 {
      var init := items[..|items| - 1];
      NoLinesIffNoneFailing(k, init);
      assert forall i :: 0 <= i < |init| ==> init[i] == items[i];
    }
  }

  /** Both kinds are classified alike: only the text of the failure lines differs. */
  lemma {:induction false} KindsClassifiedAlike(items: seq<Resource>)
    ensures Scan(HelmRelease, items).total == Scan(Kustomization, items).total
    ensures Scan(HelmRelease, items).ready == Scan(Kustomization, items).ready
    ensures |Scan(HelmRelease, items).failed| == |Scan(Kustomization, items).failed|
  {
    if |items| > 0 {
      KindsClassifiedAlike(items[..|items| - 1]);
    }
  }

  /** The counters over both kinds: total is the sum of the list sizes, and ready plus failed never exceeds it. */
  lemma SummaryBounds(helms: seq<Resource>, kusts: seq<Resource>)
    ensures Summary(helms, kusts).total == |helms| + |kusts|
    ensures Summary(helms, kusts).ready + |Summary(helms, kusts).failed| <= Summary(helms, kusts).total
  {
    ScanCounts(HelmRelease, helms);
    ScanCounts(Kustomization, kusts);
  }

  /**
   CheckFlux: setup and list failures are returned in call order (a
   HelmRelease list failure returns before Kustomizations are listed);
   otherwise an error exactly when some failure line was recorded.
   */
  function CheckFlux(env: FluxEnv): (r: Option<FluxError>)
    ensures env.config.StepFailed? ==> r == Some(BuildConfig(env.config.cause))
    ensures env.config.Done? && env.client.StepFailed? ==> r == Some(CreateClient(env.client.cause))
    ensures env.config.Done? && env.client.Done? && env.helmReleases.ListFailed? ==>
              r == Some(ListHelmReleases(env.helmReleases.cause))
    ensures env.config.Done? && env.client.Done? && env.helmReleases.Listed? && env.kustomizations.ListFailed? ==>
              r == Some(ListKustomizations(env.kustomizations.cause))
    ensures env.config.Done? && env.client.Done? && env.helmReleases.Listed? && env.kustomizations.Listed? ==>
              (r.None? <==> |Summary(env.helmReleases.items, env.kustomizations.items).failed| == 0)
    ensures env.config.Done? && env.client.Done? && env.helmReleases.Listed? && env.kustomizations.Listed? ==>
              var n := FailingCount(env.helmReleases.items) + FailingCount(env.kustomizations.items);
              r == (if n > 0 then Some(NotReady(n)) else None)
    ensures r.Some? && r.value.NotReady? ==> r.value.count > 0
  {
    match env.config
    case StepFailed(c) => Some(BuildConfig(c))
    case Done =>
      match env.client
      case StepFailed(c) => Some(CreateClient(c))
      case Done =>
        match env.helmReleases
        case ListFailed(c) => Some(ListHelmReleases(c))
        case Listed(helms) =>
          match env.kustomizations
          case ListFailed(c) => Some(ListKustomizations(c))
          case Listed(kusts) =>
            ScanCounts(HelmRelease, helms);
            ScanCounts(Kustomization, kusts);
            var failed := Summary(helms, kusts).failed;
            if |failed| > 0 then Some(NotReady(|failed|)) else None
  }

  /** The text of the returned error, as fmt.Errorf builds it. */
  function ErrorText(e: FluxError): (t: string)
    ensures e.BuildConfig? ==> HasPrefix(t, "failed to build config: ") && t[24..] == e.cause
    ensures e.CreateClient? ==> HasPrefix(t, "failed to create client: ") && t[25..] == e.cause
    ensures e.ListHelmReleases? ==> HasPrefix(t, "failed to list HelmReleases: ") && t[29..] == e.cause
    ensures e.ListKustomizations? ==> HasPrefix(t, "failed to list Kustomizations: ") && t[31..] == e.cause
    ensures |t| > 0 && (e.NotReady? <==> '0' <= t[0] <= '9')
  {
    match e
    case BuildConfig(c) => "failed to build config: " + c
    case CreateClient(c) => "failed to create client: " + c
    case ListHelmReleases(c) => "failed to list HelmReleases: " + c
    case ListKustomizations(c) => "failed to list Kustomizations: " + c
    case NotReady(n) => Decimal(n) + " resources not Ready"
  }

  /** The count message determines the count: two different counts never print alike. */
  lemma CountMessageInjective(m: nat, n: nat)
    requires ErrorText(NotReady(m)) == ErrorText(NotReady(n))
    ensures m == n
  {
    DecimalMessageInjective(m, n, " resources not Ready");
  }

  /** A HelmRelease list failure decides the result whatever the Kustomization listing would have been. */
  lemma HelmListFailureShortCircuits(env: FluxEnv, kusts: Listing<Resource>)
    requires env.config.Done? && env.client.Done? && env.helmReleases.ListFailed?
    ensures CheckFlux(env) == CheckFlux(env.(kustomizations := kusts))
    ensures CheckFlux(env) == Some(ListHelmReleases(env.helmReleases.cause))
  {
  }

  /** With no Flux resources at all the probe succeeds. */
  lemma NoResourcesIsHealthy()
    ensures CheckFlux(FluxEnv(Done, Done, Listed([]), Listed([]))) == None
  {
  }

  /** The probe fails exactly when some resource of either kind is failing or has no conditions. */
  lemma ErrorIffSomeFailing(helms: seq<Resource>, kusts: seq<Resource>)
    ensures CheckFlux(FluxEnv(Done, Done, Listed(helms), Listed(kusts))).None? <==>
              (forall i :: 0 <= i < |helms| ==> Judge(helms[i]).IsReady? || Judge(helms[i]) == Unjudged)
              && (forall i :: 0 <= i < |kusts| ==> Judge(kusts[i]).IsReady? || Judge(kusts[i]) == Unjudged)
  {
    NoLinesIffNoneFailing(HelmRelease, helms);
    NoLinesIffNoneFailing(Kustomization, kusts);
  }

  /**
   The gap between "no error" and "all ready": a HelmRelease whose only
   condition is not of type Ready is neither ready nor failed, so the probe
   reports success while fewer resources are ready than were listed.
   */
  lemma UnjudgedResourcePasses()
    ensures var hr := Resource("flux-system", "app", [Condition("Reconciling", "True", "")]);
            && Judge(hr) == Unjudged
            && CheckFlux(FluxEnv(Done, Done, Listed([hr]), Listed([]))) == None
            && Summary([hr], []).ready < Summary([hr], []).total
  {
    var hr := Resource("flux-system", "app", [Condition("Reconciling", "True", "")]);
    assert hr.conditions[0].ctype != ReadyType;
    assert [hr][..0] == [];
  }
}
