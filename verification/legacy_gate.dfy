/**
 The older gate copy in pkg/monitoringcheck/clustercheck.go: GateCheck and
 runPrometheusChecks there aggregate exactly like the gate package, but the
 metric table has four entries on the full cluster name, and each query
 goes through that file's own QueryPrometheus (Prometheus.Query here).
 */
module LegacyGate {
  import opened Basics
  import Prometheus
  import Pods
  import Flux
  import opened Cluster
  import opened Gate

  /** The backend as that file sees it: one exchange per request, then QueryPrometheus. */
  function Replies(backend: Request -> Prometheus.Exchange): Request -> Prometheus.Reply
  {
    req => Prometheus.Query(backend(req))
  }

  /** runPrometheusChecks of clustercheck.go. */
  function PrometheusChecks(flags: Flags, ctx: ContextLookup, secret: SecretLookup, env: Environment,
                            backend: Request -> Prometheus.Exchange): (rs: seq<CheckResult>)
    ensures GateAuth(flags, env, secret).AuthFailed? ==>
              rs == [CheckResult(AuthCheckName, false, GateAuth(flags, env, secret).message)]
    ensures GateAuth(flags, env, secret).Authenticated? ==> |rs| == 4
    ensures GateAuth(flags, env, secret).Authenticated? ==>
              forall i :: 0 <= i < 4 ==> var req := RequestFor(Endpoint(env), LegacyGateTable(GateNames(ctx, flags, env).cluster)[i],
                                                            GateAuth(flags, env, secret).login);
                                          && rs[i].name == LegacyGateDescriptions[i]
                                          && (rs[i].passed <==> backend(req).Decoded?
                                                                && |backend(req).samples| > 0
                                                                && backend(req).samples[0] == "1")
  {
    match GateAuth(flags, env, secret)
    case AuthFailed(m) => [CheckResult(AuthCheckName, false, m)]
    case Authenticated(login) =>
      var table := LegacyGateTable(GateNames(ctx, flags, env).cluster);
      LegacyGateTableShape(GateNames(ctx, flags, env).cluster);
      Gate.QueryAll(table, Endpoint(env), login, Replies(backend))
  }

  /** GateCheck of clustercheck.go, over that file's copies of the probes. */
  function GateCheck(flags: Flags, world: World, backend: Request -> Prometheus.Exchange): (o: GateOutcome)
    ensures Consistent(o.result)
    ensures |o.result.checkResults| >= 3
    ensures o.result.checkResults[0].name == PodCheckName && o.result.checkResults[1].name == FluxCheckName
    ensures o.result.checkResults[0].passed <==> Pods.CheckPods(world.pods).None?
    ensures Pods.CheckPods(world.pods).Some? ==>
              o.result.checkResults[0].message == Pods.ErrorText(Pods.CheckPods(world.pods).value)
    ensures o.result.checkResults[1].passed <==> Flux.CheckFlux(world.flux).None?
    ensures Flux.CheckFlux(world.flux).Some? ==>
              o.result.checkResults[1].message == Flux.ErrorText(Flux.CheckFlux(world.flux).value)
    ensures o.result.checkResults[2..] == PrometheusChecks(flags, world.context, world.secret, world.env, backend)
    ensures o.result.overallPassed <==> 5 * o.result.passedChecks >= 4 * o.result.totalChecks
    ensures o.err.Some? <==> !o.result.overallPassed
    ensures GateAuth(flags, world.env, world.secret).AuthFailed? ==> o.result.totalChecks == 3 && !o.result.overallPassed
    ensures o.result.healthScore == Score(o.result.passedChecks, o.result.totalChecks)
    ensures o.err.Some? ==> o.err.value == o.result.healthScore
    ensures GateAuth(flags, world.env, world.secret).Authenticated? ==> o.result.totalChecks == 6
  {
    var podErr := match Pods.CheckPods(world.pods) case None => None case Some(e) => Some(Pods.ErrorText(e));
    var fluxErr := match Flux.CheckFlux(world.flux) case None => None case Some(e) => Some(Flux.ErrorText(e));
    Aggregate(podErr, fluxErr, PrometheusChecks(flags, world.context, world.secret, world.env, backend))
  }

  /** A full run of the older copy records six checks, and passes iff at most one fails. */
  lemma FullRunHasSixChecks(flags: Flags, world: World, backend: Request -> Prometheus.Exchange)
    requires GateAuth(flags, world.env, world.secret).Authenticated?
    ensures GateCheck(flags, world, backend).result.totalChecks == 6
    ensures GateCheck(flags, world, backend).result.overallPassed <==> GateCheck(flags, world, backend).result.failedChecks <= 1
  {
  }

  /** A failed exchange becomes one failed "Query error" result; the other entries are still queried. */
  lemma ExchangeFailureRecorded(flags: Flags, world: World, backend: Request -> Prometheus.Exchange, i: nat)
    requires GateAuth(flags, world.env, world.secret).Authenticated?
    requires i < 4
    requires !backend(RequestFor(Endpoint(world.env), LegacyGateTable(GateNames(world.context, flags, world.env).cluster)[i],
                              GateAuth(flags, world.env, world.secret).login)).Decoded?
    ensures var rs := PrometheusChecks(flags, world.context, world.secret, world.env, backend);
            var x := backend(RequestFor(Endpoint(world.env), LegacyGateTable(GateNames(world.context, flags, world.env).cluster)[i],
                                     GateAuth(flags, world.env, world.secret).login));
            && |rs| == 4
            && rs[i] == CheckResult(LegacyGateDescriptions[i], false, "Query error: " + x.cause)
  {
    LegacyGateTableShape(GateNames(world.context, flags, world.env).cluster);
  }
}
