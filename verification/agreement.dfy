/**
 How the three copies of the metric checks relate. The gate package, the
 older gate copy in clustercheck.go and Run in clustercheck.go send the same
 expressions for most entries. The older copy and Run read each answer with
 the same QueryPrometheus, so on those entries the older gate passes exactly
 when Run prints OK, whatever the server answers. The gate package reads its
 answers with a query function of its own that is not part of this model;
 the lemmas about it take its replies as a parameter and state the
 assumption that it reads an answer as QueryPrometheus does. Only the two
 Fluent entries differ, both in expression and in polarity.
 */
module Agreement {
  import opened Basics
  import Prometheus
  import Classify
  import opened Cluster
  import Gate
  import LegacyGate
  import Display

  /** Only the two Fluent entries of the display tables carry the inverted prefix. */
  lemma OnlyFluentEntriesInverted()
    ensures forall i :: 0 <= i < 12 ==> (Classify.Inverted(DisplayDescriptions[i]) <==> i == 2 || i == 3)
  {
    forall i | 0 <= i < 12
      ensures Classify.Inverted(DisplayDescriptions[i]) <==> i == 2 || i == 3
    {
      if i == 2 || i == 3 {
        assert DisplayDescriptions[i][..6] == "FLUENT";
      } else {
        assert DisplayDescriptions[i][0] != 'F';
      }
    }
  }

  /** When the gate has credentials, they are the ones the display run uses. */
  lemma SameLogin(flags: Flags, env: Environment, secret: SecretLookup)
    requires Gate.GateAuth(flags, env, secret).Authenticated?
    ensures Gate.GateAuth(flags, env, secret).login == Display.DisplayLogin(flags, env, secret)
  {
  }

  /** A display line shows OK: a verdict line whose verdict is OK. */
  predicate ShowsOk(l: Display.Line)
  {
    l.Shown? && l.ok
  }

  /**
   On every entry but the two Fluent ones, for any server answers, the gate
   package passes the entry exactly when Run prints it as OK, provided the
   context is readable, the gate obtained credentials, and the gate's query
   function reads each answer as QueryPrometheus does.
   */
  lemma GateAgreesWithRun(flags: Flags, ctx: ContextLookup, secret: SecretLookup, env: Environment,
                          backend: Request -> Prometheus.Exchange, gateReplies: Request -> Prometheus.Reply, i: nat)
    requires ctx.ContextFound?
    requires Gate.GateAuth(flags, env, secret).Authenticated?
    requires forall req :: gateReplies(req) == Prometheus.Query(backend(req))
    requires i < 12 && i != 2 && i != 3
    ensures Gate.PrometheusChecks(flags, ctx, secret, env, gateReplies)[i].passed
            <==> ShowsOk(Display.Run(flags, ctx, secret, env, backend).lines[i])
  {
    var names := DisplayNames(ctx, flags, env);
    GateAndDisplayNames(ctx, flags, env);
    GateAndRunTables(names);
    GateTableShape(names);
    RunTableShape(names);
    SameLogin(flags, env, secret);
    OnlyFluentEntriesInverted();
  }

  /**
   The older gate copy agrees with Run in the same way: its entry k passes
   exactly when Run prints the entry with the same expression as OK.
   */
  lemma LegacyGateAgreesWithRun(flags: Flags, ctx: ContextLookup, secret: SecretLookup, env: Environment,
                                backend: Request -> Prometheus.Exchange, k: nat)
    requires ctx.ContextFound?
    requires Gate.GateAuth(flags, env, secret).Authenticated?
    requires k < 4
    ensures LegacyGate.PrometheusChecks(flags, ctx, secret, env, backend)[k].passed
            <==> ShowsOk(Display.Run(flags, ctx, secret, env, backend).lines[LegacyIndices[k]])
  {
    var names := DisplayNames(ctx, flags, env);
    GateAndDisplayNames(ctx, flags, env);
    LegacyGateTableInRunTable(names);
    LegacyGateTableShape(names.cluster);
    RunTableShape(names);
    SameLogin(flags, env, secret);
    OnlyFluentEntriesInverted();
  }

  /**
   On the Fluent entries the gate and Run disagree when the server answers
   "1" to everything: the gate passes its output-count check, Run prints
   FAIL for the error-rate check, again assuming the gate's query function
   reads each answer as QueryPrometheus does.
   */
  lemma FluentEntriesDisagreeOnOne(flags: Flags, ctx: ContextLookup, secret: SecretLookup, env: Environment,
                                   backend: Request -> Prometheus.Exchange, gateReplies: Request -> Prometheus.Reply, i: nat)
    requires ctx.ContextFound?
    requires Gate.GateAuth(flags, env, secret).Authenticated?
    requires forall req :: backend(req) == Prometheus.Decoded(["1"])
    requires forall req :: gateReplies(req) == Prometheus.Query(backend(req))
    requires i == 2 || i == 3
    ensures Gate.PrometheusChecks(flags, ctx, secret, env, gateReplies)[i].passed
    ensures !ShowsOk(Display.Run(flags, ctx, secret, env, backend).lines[i])
  {
    var names := DisplayNames(ctx, flags, env);
    GateAndDisplayNames(ctx, flags, env);
    GateTableShape(names);
    RunTableShape(names);
    OnlyFluentEntriesInverted();
  }
}
