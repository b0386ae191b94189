/**
 Display mode: Run in pkg/monitoringcheck/clustercheck.go and main in
 main.go. Each queries its 12-entry table in order and prints one line per
 entry: an error line without verdict when the query failed, otherwise OK or
 FAIL by the FLUENT-inverted rule. Nothing is aggregated and no exit code is
 set. Both use the same QueryPrometheus logic (Prometheus.Query).
 */
module Display {
  import opened Basics
  import Prometheus
  import Classify
  import opened Cluster

  /** One printed line of the display loop: an error line, or a description shown with OK or FAIL. */
  datatype Line = QueryError(description: string, cause: string) | Shown(description: string, ok: bool)

  /** What a display run prints: the cluster in its header, then one line per table entry. */
  datatype Report = Report(cluster: string, lines: seq<Line>)

  /**
   The credentials of the display runs. When Bitwarden is asked for, the
   item's fields overwrite the environment login even after a failed lookup
   (the item is then empty) or a failed parse (whatever was filled).
   */
  function DisplayLogin(flags: Flags, env: Environment, secret: SecretLookup): (l: Login)
    ensures !flags.bitwarden && env.bitwarden == "" ==> l == Login(env.promUser, env.promPass)
    ensures (flags.bitwarden || env.bitwarden != "") && secret.LookupFailed? ==> l == Login("", "")
    ensures (flags.bitwarden || env.bitwarden != "") && secret.ParseFailed? ==> l == secret.partial
    ensures (flags.bitwarden || env.bitwarden != "") && secret.Parsed? ==> l == secret.login
  {
    if flags.bitwarden || env.bitwarden != "" then
      match secret
      case LookupFailed(_) => Login("", "")
      case ParseFailed(_, partial) => partial
      case Parsed(login) => login
    else Login(env.promUser, env.promPass)
  }

  /** The line printed for one entry. */
  function LineFor(q: MetricQuery, reply: Prometheus.Reply): (l: Line)
    ensures l.description == q.description
    ensures l.QueryError? <==> reply.err.Some?
    ensures l.Shown? ==> (l.ok <==> (reply.value == "1") != HasPrefix(q.description, "FLUENT"))
  {
    match reply.err
    case Some(e) => QueryError(q.description, e)
    case None => Shown(q.description, Classify.DisplayOk(q.description, reply.value))
  }

  /**
   The loop: every entry is queried and printed in table order, and an
   error never ends it. A line reports its own exchange: an error line with
   the cause iff the exchange failed, otherwise OK iff (first sample is "1")
   XOR the FLUENT prefix, an empty vector reading as not "1".
   */
  function Lines(table: seq<MetricQuery>, endpoint: string, login: Login,
                 backend: Request -> Prometheus.Exchange): (ls: seq<Line>)
    ensures |ls| == |table|
    ensures forall i :: 0 <= i < |table| ==> ls[i].description == table[i].description
    ensures forall i :: 0 <= i < |table| ==> var x := backend(RequestFor(endpoint, table[i], login));
              && (ls[i].QueryError? <==> !x.Decoded?)
              && (ls[i].QueryError? ==> ls[i].cause == x.cause)
              && (ls[i].Shown? ==>
                    (ls[i].ok <==> (|x.samples| > 0 && x.samples[0] == "1") != Classify.Inverted(table[i].description)))
  {
    var ls := seq(|table|, i requires 0 <= i < |table| =>
      LineFor(table[i], Prometheus.Query(backend(RequestFor(endpoint, table[i], login)))));
    assert forall i :: 0 <= i < |table| ==>
             ls[i] == LineFor(table[i], Prometheus.Query(backend(RequestFor(endpoint, table[i], login))));
    ls
  }

  /** Run of clustercheck.go. */
  function Run(flags: Flags, ctx: ContextLookup, secret: SecretLookup, env: Environment,
               backend: Request -> Prometheus.Exchange): (r: Report)
    ensures r.cluster == DisplayNames(ctx, flags, env).cluster
    ensures |r.lines| == 12
  {
    var names := DisplayNames(ctx, flags, env);
    RunTableShape(names);
    Report(names.cluster, Lines(RunTable(names), Endpoint(env), DisplayLogin(flags, env, secret), backend))
  }

  /** main of main.go. */
  function MainReport(flags: Flags, ctx: ContextLookup, secret: SecretLookup, env: Environment,
                      backend: Request -> Prometheus.Exchange): (r: Report)
    ensures r.cluster == DisplayNames(ctx, flags, env).cluster
    ensures |r.lines| == 12
  {
    var cluster := DisplayNames(ctx, flags, env).cluster;
    MainTableShape(cluster);
    Report(cluster, Lines(MainTable(cluster), Endpoint(env), DisplayLogin(flags, env, secret), backend))
  }

  /**
   Each of Run's lines reports its entry: an error line exactly when the
   exchange failed, otherwise OK iff (first sample or "0") == "1" XOR FLUENT.
   */
  lemma RunLineSpec(flags: Flags, ctx: ContextLookup, secret: SecretLookup, env: Environment,
                    backend: Request -> Prometheus.Exchange, i: nat)
    requires i < 12
    ensures var names := DisplayNames(ctx, flags, env);
            var req := RequestFor(Endpoint(env), RunTable(names)[i], DisplayLogin(flags, env, secret));
            var line := Run(flags, ctx, secret, env, backend).lines[i];
            && line.description == DisplayDescriptions[i]
            && (line.QueryError? <==> !backend(req).Decoded?)
            && (line.Shown? ==> (line.ok <==> Classify.DisplayOk(DisplayDescriptions[i], Prometheus.Query(backend(req)).value)))
  {
    RunTableShape(DisplayNames(ctx, flags, env));
  }

  /** Run's CLUSTER line queries with the short name; every other line with the full name. */
  lemma RunClusterQueryUsesShortName(flags: Flags, ctx: ContextLookup, env: Environment)
    ensures RunTable(DisplayNames(ctx, flags, env))[1].cluster == ContextOr(ctx, "")
    ensures forall i :: 0 <= i < 12 && i != 1 ==>
              RunTable(DisplayNames(ctx, flags, env))[i].cluster == DisplayNames(ctx, flags, env).cluster
  {
    RunTableShape(DisplayNames(ctx, flags, env));
  }

  /** main's lines all query with the one final cluster string, CLUSTER included. */
  lemma MainUsesOneClusterString(flags: Flags, ctx: ContextLookup, secret: SecretLookup, env: Environment,
                                 backend: Request -> Prometheus.Exchange, i: nat)
    requires i < 12
    ensures var cluster := DisplayNames(ctx, flags, env).cluster;
            var req := RequestFor(Endpoint(env), MainTable(cluster)[i], DisplayLogin(flags, env, secret));
            && MainTable(cluster)[i].cluster == cluster
            && MainReport(flags, ctx, secret, env, backend).lines[i] == LineFor(MainTable(cluster)[i], Prometheus.Query(backend(req)))
  {
    MainTableShape(DisplayNames(ctx, flags, env).cluster);
  }

  /**
   Without suffixes or override, Run and main print the same header and the
   same line for every entry except APISERVER and STORAGECHECK, whose
   expressions differ between the two programs.
   */
  lemma RunMatchesMain(flags: Flags, ctx: ContextLookup, secret: SecretLookup, env: Environment,
                       backend: Request -> Prometheus.Exchange)
    requires flags.fqdn == "" && env.fqdn == "" && env.cluster == ""
    ensures Run(flags, ctx, secret, env, backend).cluster == MainReport(flags, ctx, secret, env, backend).cluster
    ensures forall i :: 0 <= i < 12 && i != 0 && i != 9 ==>
              Run(flags, ctx, secret, env, backend).lines[i] == MainReport(flags, ctx, secret, env, backend).lines[i]
  {
    RunAndMainTables(DisplayNames(ctx, flags, env));
  }

  /**
   The APISERVER lines can disagree: against a server that has the
   job="kube-apiserver" series but no application="apiserver" series, Run
   prints OK and main, reading the empty vector as "0", prints FAIL.
   */
  lemma ApiserverLinesCanDiffer(flags: Flags, ctx: ContextLookup, secret: SecretLookup, env: Environment)
    ensures var apiserverJob := Fill(ApiserverJob, DisplayNames(ctx, flags, env).cluster);
            var backend := (req: Request) => if req.promql == apiserverJob then Prometheus.Decoded(["1"]) else Prometheus.Decoded([]);
            && Run(flags, ctx, secret, env, backend).lines[0] == Shown("APISERVER", true)
            && MainReport(flags, ctx, secret, env, backend).lines[0] == Shown("APISERVER", false)
  {
    var names := DisplayNames(ctx, flags, env);
    RunAndMainTables(names);
    RunTableShape(names);
    MainTableShape(names.cluster);
    assert !Classify.Inverted("APISERVER") by { assert "APISERVER"[0] != "FLUENT"[0]; }
  }

  /** A failed secret lookup still replaces the environment login, with empty credentials. */
  lemma FailedLookupOverwritesLogin(flags: Flags, env: Environment, cause: string)
    requires flags.bitwarden
    ensures DisplayLogin(flags, env, LookupFailed(cause)) == Login("", "")
    ensures env.promUser != "" ==> DisplayLogin(flags, env, LookupFailed(cause)).username != env.promUser
  {
  }
}
