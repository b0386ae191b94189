/**
 The pod probe (CheckPods in pkg/podcheck/podcheck.go; the copy in
 pkg/monitoringcheck/clustercheck.go has the same decision logic without
 the debug tracing).

 The Kubernetes calls are inputs: each setup step either succeeds or fails
 with an error text, and the list call either yields the pods or fails.
 */
module Pods {
  import opened Basics

  /** The fields of a pod the probe reads. */
  datatype Pod = Pod(namespace: string, name: string, phase: string)

  /** Everything CheckPods learns from the cluster, in the order it asks. */
  datatype PodEnv = PodEnv(config: Step, clientset: Step, listing: Listing<Pod>)

  /** Why CheckPods returned a non-nil error. */
  datatype PodError =
    | BuildConfig(cause: string)
    | CreateClientset(cause: string)
    | ListPods(cause: string)
    | NotRunning(count: nat)

  /** A pod is healthy iff its phase is exactly "Running" or "Succeeded". */
  predicate Healthy(p: Pod)
  {
    p.phase == "Running" || p.phase == "Succeeded"
  }

  /** The report line for an unhealthy pod: "namespace/name (phase)". */
  function Entry(p: Pod): string
  {
    p.namespace + "/" + p.name + " (" + p.phase + ")"
  }

  /** Number of healthy pods in a list. */
  function HealthyCount(pods: seq<Pod>): nat
  {
    if |pods| == 0 then 0
    else HealthyCount(pods[..|pods| - 1]) + (if Healthy(pods[|pods| - 1]) then 1 else 0)
  }

  /** Number of pods not in a healthy phase. */
  function UnhealthyCount(pods: seq<Pod>): nat
  {
    if |pods| == 0 then 0
    else UnhealthyCount(pods[..|pods| - 1]) + (if Healthy(pods[|pods| - 1]) then 0 else 1)
  }

  /** The report lines of the unhealthy pods, in list order. */
  function FailedEntries(pods: seq<Pod>): seq<string>
  {
    if |pods| == 0 then []
    else FailedEntries(pods[..|pods| - 1]) + (if Healthy(pods[|pods| - 1]) then [] else [Entry(pods[|pods| - 1])])
  }

  /** Healthy and unhealthy pods together account for every pod listed. */
  lemma {:induction false} CountsPartition(pods: seq<Pod>)
    ensures HealthyCount(pods) + UnhealthyCount(pods) == |pods|
    ensures |FailedEntries(pods)| == UnhealthyCount(pods)
  {
    if |pods| > 0 {
      CountsPartition(pods[..|pods| - 1]);
    }
  }

  /** There are no failure lines exactly when every pod is healthy. */
  lemma {:induction false} NoFailuresIffAllHealthy(pods: seq<Pod>)
    ensures |FailedEntries(pods)| == 0 <==> forall i :: 0 <= i < |pods| ==> Healthy(pods[i])
  {
    if |pods| > 0 {
      var init := pods[..|pods| - 1];
      NoFailuresIffAllHealthy(init);
      assert forall i :: 0 <= i < |init| ==> init[i] == pods[i];
    }
  }

  /**
   The classification loop of CheckPods: walks the pods in order, counting
   the healthy ones and collecting a line for each other one.
   */
  method Tally(pods: seq<Pod>) returns (runningOrSucceeded: nat, failedPods: seq<string>)
    ensures runningOrSucceeded + |failedPods| == |pods|
    ensures runningOrSucceeded == HealthyCount(pods)
    ensures failedPods == FailedEntries(pods)
  {
    runningOrSucceeded := 0;
    failedPods := [];
    var i := 0;
    while i < |pods|
      invariant 0 <= i <= |pods|
      invariant runningOrSucceeded == HealthyCount(pods[..i])
      invariant failedPods == FailedEntries(pods[..i])
      invariant runningOrSucceeded + |failedPods| == i
    {
      assert pods[..i + 1][..i] == pods[..i];
      if Healthy(pods[i]) {
        runningOrSucceeded := runningOrSucceeded + 1;
      } else {
        failedPods := failedPods + [Entry(pods[i])];
      }
      i := i + 1;
    }
    assert pods[..i] == pods;
  }

  /**
   CheckPods: setup or list failures are returned before any pod is looked
   at; otherwise the error, if any, reports how many pods are unhealthy.
   */
  function CheckPods(env: PodEnv): (r: Option<PodError>)
    ensures env.config.StepFailed? ==> r == Some(BuildConfig(env.config.cause))
    ensures env.config.Done? && env.clientset.StepFailed? ==> r == Some(CreateClientset(env.clientset.cause))
    ensures env.config.Done? && env.clientset.Done? && env.listing.ListFailed? ==> r == Some(ListPods(env.listing.cause))
    ensures env.config.Done? && env.clientset.Done? && env.listing.Listed? ==>
              (r.None? <==> forall i :: 0 <= i < |env.listing.items| ==> Healthy(env.listing.items[i]))
    ensures r.Some? && r.value.NotRunning? ==> r.value.count == UnhealthyCount(env.listing.items) > 0
  {
    match env.config
    case StepFailed(c) => Some(BuildConfig(c))
    case Done =>
      match env.clientset
      case StepFailed(c) => Some(CreateClientset(c))
      case Done =>
        match env.listing
        case ListFailed(c) => Some(ListPods(c))
        case Listed(pods) =>
          var failed := FailedEntries(pods);
          NoFailuresIffAllHealthy(pods);
          CountsPartition(pods);
          if |failed| > 0 then Some(NotRunning(|failed|)) else None
  }

  /** The text of the returned error, as fmt.Errorf builds it. */
  function ErrorText(e: PodError): (t: string)
    ensures e.BuildConfig? ==> HasPrefix(t, "failed to build config: ") && t[24..] == e.cause
    ensures e.CreateClientset? ==> HasPrefix(t, "failed to create clientset: ") && t[28..] == e.cause
    ensures e.ListPods? ==> HasPrefix(t, "failed to list pods: ") && t[21..] == e.cause
    ensures |t| > 0 && (e.NotRunning? <==> '0' <= t[0] <= '9')
  {
    match e
    case BuildConfig(c) => "failed to build config: " + c
    case CreateClientset(c) => "failed to create clientset: " + c
    case ListPods(c) => "failed to list pods: " + c
    case NotRunning(n) => Decimal(n) + " pods not in Running or Succeeded state"
  }

  /** The count message determines the count: two different counts never print alike. */
  lemma CountMessageInjective(m: nat, n: nat)
    requires ErrorText(NotRunning(m)) == ErrorText(NotRunning(n))
    ensures m == n
  {
    DecimalMessageInjective(m, n, " pods not in Running or Succeeded state");
  }

  /** An empty pod list is healthy. */
  lemma EmptyListIsHealthy()
    ensures CheckPods(PodEnv(Done, Done, Listed([]))) == None
  {
  }

  /** The count in the error is the number of unhealthy pods. */
  lemma ErrorCountsUnhealthy(pods: seq<Pod>)
    requires UnhealthyCount(pods) > 0
    ensures CheckPods(PodEnv(Done, Done, Listed(pods))) == Some(NotRunning(UnhealthyCount(pods)))
  {
    NoFailuresIffAllHealthy(pods);
    CountsPartition(pods);
  }

  /** Appending a pod appends its report line exactly when it is unhealthy (order is kept). */
  lemma FailedEntriesAppend(pods: seq<Pod>, p: Pod)
    ensures FailedEntries(pods + [p]) == FailedEntries(pods) + (if Healthy(p) then [] else [Entry(p)])
  {
    assert (pods + [p])[..|pods|] == pods;
  }
}
