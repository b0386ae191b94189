/**
 The gate check: GateCheck and runPrometheusChecks in
 pkg/gatecheck/gatecheck.go.

 Results are folded into counters in a fixed order (the pod probe, the Flux
 probe, then the metric checks in table order); the health score is
 100 * passed / total (0 when there are no checks) and the gate passes iff
 the score is at least 80. The score is a real number here, not a float64.
 */
module Gate {
  import opened Basics
  import Prometheus
  import Classify
  import Pods
  import Flux
  import opened Cluster

  /** One recorded check, as in the source's CheckResult. */
  datatype CheckResult = CheckResult(name: string, passed: bool, message: string)

  /** The aggregate of a run, as in the source's GateCheckResult. */
  datatype GateResult = GateResult(
    totalChecks: nat,
    passedChecks: nat,
    failedChecks: nat,
    healthScore: real,
    checkResults: seq<CheckResult>,
    overallPassed: bool)

  /** What GateCheck returns: the result always, and an error when the gate fails. */
  datatype GateOutcome = GateOutcome(result: GateResult, err: Option<real>)

  /** Presentation band of a score. */
  datatype Band = Excellent | Good | Fair | Poor

  /** How the credential step of runPrometheusChecks ends. */
  datatype Auth = Authenticated(login: Login) | AuthFailed(message: string)

  /** Everything outside the program that a gate run consults. */
  datatype World = World(pods: Pods.PodEnv, flux: Flux.FluxEnv, context: ContextLookup, secret: SecretLookup, env: Environment)

  /** The fixed gate threshold, in percent. */
  const Threshold: real := 80.0

  const PodCheckName: string := "Pod Health"
  const FluxCheckName: string := "Flux Resources"
  const AuthCheckName: string := "Prometheus Authentication"

  /** Number of passed entries in a list of results. */
  function CountPassed(rs: seq<CheckResult>): nat
    ensures CountPassed(rs) <= |rs|
  {
    if |rs| == 0 then 0
    else CountPassed(rs[..|rs| - 1]) + (if rs[|rs| - 1].passed then 1 else 0)
  }

  /** The counter invariant: total = passed + failed = |results|, and passed counts the passed results. */
  predicate Consistent(g: GateResult)
  {
    && g.totalChecks == g.passedChecks + g.failedChecks == |g.checkResults|
    && g.passedChecks == CountPassed(g.checkResults)
  }

  /** The result GateCheck starts from. */
  const Empty: GateResult := GateResult(0, 0, 0, 0.0, [], false)

  /** Appending one result and bumping the matching counters, as every step of GateCheck does. */
  function Record(g: GateResult, c: CheckResult): (g': GateResult)
    ensures Consistent(g) ==> Consistent(g')
    ensures g'.checkResults == g.checkResults + [c]
    ensures g'.totalChecks == g.totalChecks + 1
  {
    assert (g.checkResults + [c])[..|g.checkResults|] == g.checkResults;
    g.(checkResults := g.checkResults + [c],
       totalChecks := g.totalChecks + 1,
       passedChecks := if c.passed then g.passedChecks + 1 else g.passedChecks,
       failedChecks := if c.passed then g.failedChecks else g.failedChecks + 1)
  }

  /** The loop over the metric results, recording each in order. */
  function RecordAll(g: GateResult, cs: seq<CheckResult>): GateResult
    decreases |cs|
  {
    if |cs| == 0 then g else RecordAll(Record(g, cs[0]), cs[1..])
  }

  lemma CountPassedAppend(a: seq<CheckResult>, b: seq<CheckResult>)
    ensures CountPassed(a + b) == CountPassed(a) + CountPassed(b)
    decreases |b|
  {
    if |b| > 0 {
      assert (a + b)[..|a + b| - 1] == a + b[..|b| - 1];
      CountPassedAppend(a, b[..|b| - 1]);
    } else {
      assert a + b == a;
    }
  }

  /** Recording a list keeps the invariant, appends the list in order and adds its size to the total. */
  lemma {:induction false} RecordAllSpec(g: GateResult, cs: seq<CheckResult>)
    requires Consistent(g)
    ensures Consistent(RecordAll(g, cs))
    ensures RecordAll(g, cs).checkResults == g.checkResults + cs
    ensures RecordAll(g, cs).totalChecks == g.totalChecks + |cs|
    ensures RecordAll(g, cs).passedChecks == g.passedChecks + CountPassed(cs)
    decreases |cs|
  {
    if |cs| > 0 {
      var g1 := Record(g, cs[0]);
      RecordAllSpec(g1, cs[1..]);
      assert g.checkResults + [cs[0]] + cs[1..] == g.checkResults + cs;
      CountPassedAppend(g.checkResults, cs);
      CountPassedAppend(g1.checkResults, cs[1..]);
      CountPassedAppend(g.checkResults, [cs[0]]);
    }
  }

  /** 100 * passed / total, and 0 when there are no checks. */
  function Score(passed: nat, total: nat): real
  {
    if total > 0 then (passed as real / total as real) * 100.0 else 0.0
  }

  /** The score is a percentage. */
  lemma ScoreRange(passed: nat, total: nat)
    requires passed <= total
    ensures 0.0 <= Score(passed, total) <= 100.0
  {
    if total > 0 {
      var p := passed as real;
      var t := total as real;
      assert p / t <= 1.0 by {
        assert p / t * t == p;
      }
    }
  }

  /** A real whose product with a positive real is non-negative is itself non-negative. */
  lemma NonNegativeFactor(x: real, t: real)
    requires t > 0.0 && x * t >= 0.0
    ensures x >= 0.0
  {
  }

  /**
   The threshold in integers: the score reaches 80 exactly when there is at
   least one check and 5 * passed >= 4 * total.
   */
  lemma {:induction false} ScoreThreshold(passed: nat, total: nat)
    ensures Score(passed, total) >= Threshold <==> total > 0 && 5 * passed >= 4 * total
  {
    if total > 0 {
      var p := passed as real;
      var t := total as real;
      var q := p / t;
      assert q * t == p;
      assert Score(passed, total) == q * 100.0;
      if q * 100.0 >= 80.0 {
        assert q * 100.0 * t >= 80.0 * t;
        assert p * 100.0 >= 80.0 * t;
      }
      if 5 * passed >= 4 * total {
        var x := q * 5.0 - 4.0;
        assert x * t == q * t * 5.0 - 4.0 * t;
        NonNegativeFactor(x, t);
      }
    }
  }

  /** Scoring and the threshold decision, done once all checks are recorded. */
  function Finalize(g: GateResult): (g': GateResult)
    ensures g'.checkResults == g.checkResults
    ensures g'.totalChecks == g.totalChecks && g'.passedChecks == g.passedChecks && g'.failedChecks == g.failedChecks
    ensures g'.overallPassed <==> g'.totalChecks > 0 && 5 * g'.passedChecks >= 4 * g'.totalChecks
    ensures g'.overallPassed <==> g'.healthScore >= Threshold
    ensures g.totalChecks > 0 ==> g'.healthScore * g.totalChecks as real == 100.0 * g.passedChecks as real
    ensures g.totalChecks == 0 ==> g'.healthScore == 0.0
  {
    var score := Score(g.passedChecks, g.totalChecks);
    ScoreThreshold(g.passedChecks, g.totalChecks);
    assert g.totalChecks > 0 ==>
             (g.passedChecks as real / g.totalChecks as real) * g.totalChecks as real == g.passedChecks as real;
    g.(healthScore := score, overallPassed := score >= Threshold)
  }

  /** Finalizing twice without recording in between changes nothing. */
  lemma FinalizeIdempotent(g: GateResult)
    ensures Finalize(Finalize(g)) == Finalize(g)
  {
  }

  /** The presentation band of a score. */
  function BandOf(score: real): (b: Band)
    ensures b in {Excellent, Good} <==> score >= Threshold
  {
    if score >= 90.0 then Excellent
    else if score >= 80.0 then Good
    else if score >= 60.0 then Fair
    else Poor
  }

  /** The band is EXCELLENT or GOOD exactly when the gate passes. */
  lemma BandAgreesWithGate(g: GateResult)
    ensures BandOf(Finalize(g).healthScore) in {Excellent, Good} <==> Finalize(g).overallPassed
  {
  }

  /** The recorded result of a probe: passed iff the probe returned nil, else the error text. */
  function ProbeResult(name: string, okMessage: string, err: Option<string>): (c: CheckResult)
    ensures c.name == name
    ensures c.passed <==> err.None?
    ensures err.Some? ==> c.message == err.value
  {
    match err
    case None => CheckResult(name, true, okMessage)
    case Some(e) => CheckResult(name, false, e)
  }

  /**
   The body of GateCheck once the three categories have produced their
   outcomes: record the pod probe, the Flux probe, then every metric result,
   finalize, and return an error exactly when the gate fails.
   */
  function Aggregate(podErr: Option<string>, fluxErr: Option<string>, metrics: seq<CheckResult>): (o: GateOutcome)
    ensures Consistent(o.result)
    ensures o.result.totalChecks == 2 + |metrics|
    ensures |o.result.checkResults| == 2 + |metrics|
    ensures o.result.checkResults[0].name == PodCheckName
    ensures o.result.checkResults[0].passed <==> podErr.None?
    ensures podErr.Some? ==> o.result.checkResults[0].message == podErr.value
    ensures o.result.checkResults[1].name == FluxCheckName
    ensures o.result.checkResults[1].passed <==> fluxErr.None?
    ensures fluxErr.Some? ==> o.result.checkResults[1].message == fluxErr.value
    ensures o.result.checkResults[2..] == metrics
    ensures o.result.passedChecks == (if podErr.None? then 1 else 0) + (if fluxErr.None? then 1 else 0) + CountPassed(metrics)
    ensures o.result.overallPassed <==> 5 * o.result.passedChecks >= 4 * o.result.totalChecks
    ensures o.err.Some? <==> !o.result.overallPassed
    ensures o.result.healthScore == Score(o.result.passedChecks, o.result.totalChecks)
    ensures o.err.Some? ==> o.err.value == o.result.healthScore
  {
    var pod := ProbeResult(PodCheckName, "All pods are in Running or Succeeded state", podErr);
    var flux := ProbeResult(FluxCheckName, "All HelmReleases and Kustomizations are Ready", fluxErr);
    var g2 := Record(Record(Empty, pod), flux);
    assert g2.checkResults == [pod, flux];
    assert CountPassed([pod, flux]) == (if pod.passed then 1 else 0) + (if flux.passed then 1 else 0) by {
      assert [pod, flux][..1] == [pod];
      assert [pod][..0] == [];
    }
    RecordAllSpec(g2, metrics);
    var g := Finalize(RecordAll(g2, metrics));
    GateOutcome(g, if g.overallPassed then None else Some(g.healthScore))
  }

  /** The credential step: environment login, or the Bitwarden item when asked for; failures end the metric category. */
  function GateAuth(flags: Flags, env: Environment, secret: SecretLookup): (a: Auth)
    ensures !flags.bitwarden && env.bitwarden == "" ==> a == Authenticated(Login(env.promUser, env.promPass))
    ensures (flags.bitwarden || env.bitwarden != "") ==> (a.AuthFailed? <==> !secret.Parsed?)
    ensures (flags.bitwarden || env.bitwarden != "") && secret.Parsed? ==> a == Authenticated(secret.login)
    ensures (flags.bitwarden || env.bitwarden != "") && secret.LookupFailed? ==>
              a == AuthFailed("Failed to get Bitwarden credentials: " + secret.cause)
    ensures (flags.bitwarden || env.bitwarden != "") && secret.ParseFailed? ==>
              a == AuthFailed("Failed to parse Bitwarden JSON: " + secret.cause)
  {
    if flags.bitwarden || env.bitwarden != "" then
      match secret
      case LookupFailed(e) => AuthFailed("Failed to get Bitwarden credentials: " + e)
      case ParseFailed(e, _) => AuthFailed("Failed to parse Bitwarden JSON: " + e)
      case Parsed(l) => Authenticated(l)
    else Authenticated(Login(env.promUser, env.promPass))
  }

  /** The gate-mode result of one metric query: passes iff no error and the value is exactly "1". */
  function MetricCheck(description: string, reply: Prometheus.Reply): (c: CheckResult)
    ensures c.name == description
    ensures c.passed <==> reply.err.None? && Classify.GatePasses(reply.value)
    ensures reply.err.Some? ==> c.message == "Query error: " + reply.err.value
    ensures reply.err.None? && !c.passed ==> c.message == "Value: " + reply.value + " (expected: 1)"
    ensures c.passed ==> c.message == "Healthy"
  {
    match reply.err
    case Some(e) => CheckResult(description, false, "Query error: " + e)
    case None =>
      if Classify.GatePasses(reply.value) then CheckResult(description, true, "Healthy")
      else CheckResult(description, false, "Value: " + reply.value + " (expected: 1)")
  }

  /** Every table entry is queried and recorded, in table order, whatever earlier queries returned. */
  function QueryAll(table: seq<MetricQuery>, endpoint: string, login: Login, backend: Request -> Prometheus.Reply): (rs: seq<CheckResult>)
    ensures |rs| == |table|
    ensures forall i :: 0 <= i < |table| ==> rs[i].name == table[i].description
    ensures forall i :: 0 <= i < |table| ==> var reply := backend(RequestFor(endpoint, table[i], login));
              && (rs[i].passed <==> reply.err.None? && reply.value == "1")
              && (reply.err.Some? ==> rs[i].message == "Query error: " + reply.err.value)
              && (reply.err.None? && reply.value != "1" ==> rs[i].message == "Value: " + reply.value + " (expected: 1)")
              && (rs[i].passed ==> rs[i].message == "Healthy")
  {
    var rs := seq(|table|, i requires 0 <= i < |table| => MetricCheck(table[i].description, backend(RequestFor(endpoint, table[i], login))));
    assert forall i :: 0 <= i < |table| ==> rs[i] == MetricCheck(table[i].description, backend(RequestFor(endpoint, table[i], login)));
    rs
  }

  /** True iff every result passed (the allPassed flag of runPrometheusChecks). */
  predicate AllPassed(rs: seq<CheckResult>)
  {
    forall i :: 0 <= i < |rs| ==> rs[i].passed
  }

  /** All results passed exactly when the passed count is the length. */
  lemma {:induction false} AllPassedIffCount(rs: seq<CheckResult>)
    ensures AllPassed(rs) <==> CountPassed(rs) == |rs|
  {
    if |rs| > 0 {
      var init := rs[..|rs| - 1];
      AllPassedIffCount(init);
      assert forall i :: 0 <= i < |init| ==> init[i] == rs[i];
    }
  }

  /**
   runPrometheusChecks of gatecheck.go. The query function of that file is
   not part of this model, so its replies come from `backend`.
   */
  function PrometheusChecks(flags: Flags, ctx: ContextLookup, secret: SecretLookup, env: Environment,
                            backend: Request -> Prometheus.Reply): (rs: seq<CheckResult>)
    ensures GateAuth(flags, env, secret).AuthFailed? ==>
              rs == [CheckResult(AuthCheckName, false, GateAuth(flags, env, secret).message)]
    ensures GateAuth(flags, env, secret).Authenticated? ==> |rs| == 12
    ensures GateAuth(flags, env, secret).Authenticated? ==> Names(rs) == GateDescriptions
    ensures GateAuth(flags, env, secret).Authenticated? ==>
              forall i :: 0 <= i < 12 ==> var req := RequestFor(Endpoint(env), GateTable(GateNames(ctx, flags, env))[i],
                                                             GateAuth(flags, env, secret).login);
                                           && (rs[i].passed <==> backend(req).err.None? && backend(req).value == "1")
                                           && (backend(req).err.Some? ==> rs[i].message == "Query error: " + backend(req).err.value)
  {
    match GateAuth(flags, env, secret)
    case AuthFailed(m) => [CheckResult(AuthCheckName, false, m)]
    case Authenticated(login) =>
      var table := GateTable(GateNames(ctx, flags, env));
      GateTableShape(GateNames(ctx, flags, env));
      var rs := QueryAll(table, Endpoint(env), login, backend);
      assert forall i :: 0 <= i < 12 ==> rs[i].name == table[i].description;
      assert Names(rs) == Descriptions(table);
      rs
  }

  /** The names of a list of results, in order. */
  function Names(rs: seq<CheckResult>): (ns: seq<string>)
    ensures |ns| == |rs|
    ensures forall i :: 0 <= i < |rs| ==> ns[i] == rs[i].name
  {
    seq(|rs|, i requires 0 <= i < |rs| => rs[i].name)
  }

  /** GateCheck of gatecheck.go over a world and a metric backend. */
  function GateCheck(flags: Flags, world: World, backend: Request -> Prometheus.Reply): (o: GateOutcome)
    ensures Consistent(o.result)
    ensures |o.result.checkResults| >= 3
    ensures o.result.checkResults[0].name == PodCheckName && o.result.checkResults[1].name == FluxCheckName
    ensures o.result.checkResults[0].passed <==> Pods.CheckPods(world.pods).None?
    ensures Pods.CheckPods(world.pods).Some? ==>
              o.result.checkResults[0].message == Pods.ErrorText(Pods.CheckPods(world.pods).value)
    ensures o.result.checkResults[1].passed <==> Flux.CheckFlux(world.flux).None?
    ensures Flux.CheckFlux(world.flux).Some? ==>
              o.result.checkResults[1].message == Flux.ErrorText(Flux.CheckFlux(world.flux).value)
    ensures o.result.checkResults[2..] == PrometheusChecks(flags, world.context, world.secret, world.env, backend)
    ensures o.result.overallPassed <==> 5 * o.result.passedChecks >= 4 * o.result.totalChecks
    ensures o.err.Some? <==> !o.result.overallPassed
    ensures GateAuth(flags, world.env, world.secret).AuthFailed? ==> o.result.totalChecks == 3 && !o.result.overallPassed
    ensures o.result.healthScore == Score(o.result.passedChecks, o.result.totalChecks)
    ensures o.err.Some? ==> o.err.value == o.result.healthScore
    ensures GateAuth(flags, world.env, world.secret).Authenticated? ==> o.result.totalChecks == 14
  {
    var podErr := match Pods.CheckPods(world.pods) case None => None case Some(e) => Some(Pods.ErrorText(e));
    var fluxErr := match Flux.CheckFlux(world.flux) case None => None case Some(e) => Some(Flux.ErrorText(e));
    Aggregate(podErr, fluxErr, PrometheusChecks(flags, world.context, world.secret, world.env, backend))
  }

  /** A credential failure leaves three checks, at most two passing: the gate cannot pass. */
  lemma AuthFailureFailsGate(flags: Flags, world: World, backend: Request -> Prometheus.Reply)
    requires GateAuth(flags, world.env, world.secret).AuthFailed?
    ensures GateCheck(flags, world, backend).result.totalChecks == 3
    ensures !GateCheck(flags, world, backend).result.overallPassed
    ensures GateCheck(flags, world, backend).err.Some?
  {
    var rs := PrometheusChecks(flags, world.context, world.secret, world.env, backend);
    assert CountPassed(rs) == 0 by {
      assert rs[..0] == [];
    }
  }

  /** Without a credential failure a full run records 14 checks. */
  lemma FullRunHasFourteenChecks(flags: Flags, world: World, backend: Request -> Prometheus.Reply)
    requires GateAuth(flags, world.env, world.secret).Authenticated?
    ensures GateCheck(flags, world, backend).result.totalChecks == 14
  {
  }

  /** With 14 checks the gate passes iff at most two fail. */
  lemma FourteenChecksThreshold(g: GateResult)
    requires Consistent(g) && g.totalChecks == 14
    ensures Finalize(g).overallPassed <==> g.failedChecks <= 2
  {
  }

  /** Exactly 80 percent passes; no checks at all fails. */
  lemma ThresholdBoundary()
    ensures Score(4, 5) == 80.0 && Score(4, 5) >= Threshold
    ensures Score(0, 0) == 0.0 && !(Score(0, 0) >= Threshold)
  {
  }

  /**
   A pod-probe failure with every other check passing: 14 checks, 13
   passed, the gate passes, and the first entry carries the probe's error.
   */
  lemma PodFailureStillPasses(err: string, metrics: seq<CheckResult>)
    requires |metrics| == 12 && AllPassed(metrics)
    ensures var o := Aggregate(Some(err), None, metrics);
            && o.result.totalChecks == 14 && o.result.passedChecks == 13
            && o.result.overallPassed && o.err.None?
            && o.result.checkResults[0] == CheckResult(PodCheckName, false, err)
  {
    AllPassedIffCount(metrics);
  }
}
