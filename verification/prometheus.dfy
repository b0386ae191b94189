/**
 Extraction of one scalar from a Prometheus instant query
 (QueryPrometheus in pkg/monitoringcheck/clustercheck.go, and the identical
 queryPrometheus in main.go).

 The HTTP exchange itself is not modelled: its outcome is an input. Each of
 the four failure points of the Go code (request construction, transport,
 body read, JSON decode) is a constructor carrying the error text; a
 successful decode carries the sample values of the result vector, in the
 order the server sent them.
 */
module Prometheus {
  import opened Basics

  /** How one query exchange with the Prometheus API ended. */
  datatype Exchange =
    | RequestBuildFailed(cause: string)
    | TransportFailed(cause: string)
    | BodyReadFailed(cause: string)
    | DecodeFailed(cause: string)
    | Decoded(samples: seq<string>)

  /** The Go pair (string, error): a value and an error that may be nil. */
  datatype Reply = Reply(value: string, err: Option<string>)

  /** The value returned on every failure path and for an empty result vector. */
  const DefaultValue: string := "0"

  /**
   The reply QueryPrometheus gives for an exchange: "0" with the error on
   every failure path, "0" without error for an empty vector, otherwise the
   first sample's value without error.
   */
  function Query(x: Exchange): (r: Reply)
    ensures r.err.Some? <==> !x.Decoded?
    ensures !x.Decoded? ==> r.value == DefaultValue && r.err == Some(x.cause)
    ensures x.Decoded? ==> (r.value == DefaultValue || r.value in x.samples)
    ensures x.Decoded? && |x.samples| > 0 ==> r.value == x.samples[0]
  {
    match x
    case Decoded(samples) =>
      if |samples| > 0 then Reply(samples[0], None) else Reply(DefaultValue, None)
    case _ => Reply(DefaultValue, Some(x.cause))
  }

  /** Samples after the first never influence the reply. */
  lemma FirstSampleWins(v: string, rest1: seq<string>, rest2: seq<string>)
    ensures Query(Decoded([v] + rest1)) == Query(Decoded([v] + rest2))
    ensures Query(Decoded([v] + rest1)) == Reply(v, None)
  {
  }

  /**
   Every failure path yields the same value, whatever the stage: a caller
   can only tell failures apart by the error, never by the value.
   */
  lemma FailuresShareValue(x: Exchange, y: Exchange)
    requires !x.Decoded? && !y.Decoded?
    ensures Query(x).value == Query(y).value == DefaultValue
    ensures Query(x).err.Some? && Query(y).err.Some?
  {
  }

  /**
   An empty result vector and a vector whose first sample is "0" give the
   same reply: absence of data is indistinguishable from a zero reading.
   */
  lemma EmptyLooksLikeZero()
    ensures Query(Decoded([])) == Query(Decoded(["0"]))
    ensures Query(Decoded([])) == Reply("0", None)
  {
  }

  /**
   A reply reads as the healthy "1" exactly when the exchange was decoded
   and its first sample is "1": no failure path and no empty vector can
   produce a healthy reading.
   */
  lemma HealthyIffFirstSampleOne(x: Exchange)
    ensures Query(x).err.None? && Query(x).value == "1" <==> x.Decoded? && |x.samples| > 0 && x.samples[0] == "1"
  {
  }
}
