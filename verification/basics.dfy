/**
 Small shared vocabulary for the cluster health-check model: an optional
 value (Go's "value or nil"), a string prefix test (Go's strings.HasPrefix),
 and the decimal rendering of a natural number (Go's %d verb).
 */
module Basics {

  /** A value that may be absent; a Go `error` that may be nil is an Option<string>. */
  datatype Option<+T> = None | Some(value: T)

  /** Outcome of one setup call to a client library (config load, client creation). */
  datatype Step = Done | StepFailed(cause: string)

  /** Outcome of one list call against the Kubernetes API. */
  datatype Listing<T> = Listed(items: seq<T>) | ListFailed(cause: string)

  /** True iff `p` is a prefix of `s`, exactly as strings.HasPrefix decides it. */
  predicate HasPrefix(s: string, p: string)
  {
    |p| <= |s| && s[..|p|] == p
  }

  /** The character for one decimal digit. */
  function Digit(d: nat): (c: char)
    requires d < 10
    ensures '0' <= c <= '9'
    ensures c as int - '0' as int == d
  {
    ('0' as int + d) as char
  }

  /** The numeric value of a string of decimal digits (the inverse of Decimal). */
  function DigitsValue(s: string): nat
    requires forall i :: 0 <= i < |s| ==> '0' <= s[i] <= '9'
  {
    if |s| == 0 then 0
    else 10 * DigitsValue(s[..|s| - 1]) + (s[|s| - 1] as int - '0' as int)
  }

  /** Decimal rendering of `n` without leading zeros, as the %d verb prints it. */
  function Decimal(n: nat): (r: string)
    ensures |r| >= 1
    ensures forall i :: 0 <= i < |r| ==> '0' <= r[i] <= '9'
    ensures r[0] == '0' ==> n == 0
  {
    if n < 10 then [Digit(n)] else Decimal(n / 10) + [Digit(n % 10)]
  }

  /** Reading back a rendered number gives the number: Decimal loses nothing. */
  lemma {:induction false} DecimalRoundTrip(n: nat)
    ensures DigitsValue(Decimal(n)) == n
  {
    var r := Decimal(n);
    if n >= 10 {
      DecimalRoundTrip(n / 10);
      assert r[..|r| - 1] == Decimal(n / 10);
    }
  }

  /** Two different counts never render to the same text. */
  lemma DecimalInjective(m: nat, n: nat)
    requires Decimal(m) == Decimal(n)
    ensures m == n
  {
    DecimalRoundTrip(m);
    DecimalRoundTrip(n);
  }

  /** A count rendered in front of a fixed text can be read back: the messages of two counts differ. */
  lemma DecimalMessageInjective(m: nat, n: nat, suffix: string)
    requires Decimal(m) + suffix == Decimal(n) + suffix
    ensures m == n
  {
    var a, b := Decimal(m) + suffix, Decimal(n) + suffix;
    assert a[..|a| - |suffix|] == Decimal(m);
    assert b[..|b| - |suffix|] == Decimal(n);
    DecimalInjective(m, n);
  }
}
