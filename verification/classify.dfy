/**
 The two ways the program turns a metric value into a verdict.

 Gate mode (runPrometheusChecks in pkg/gatecheck/gatecheck.go and in
 pkg/monitoringcheck/clustercheck.go) passes a check iff the value is the
 literal string "1", with no regard for the check's name.

 Display mode (Run in pkg/monitoringcheck/clustercheck.go and main in
 main.go) inverts the verdict for checks whose description starts with
 "FLUENT": those count error signals, so "1" there means trouble.
 */
module Classify {
  import opened Basics

  /** The only value read as healthy; the comparison is on text, not numbers. */
  const HealthyValue: string := "1"

  /** Descriptions with this prefix have inverted polarity in display mode. */
  const InvertedPrefix: string := "FLUENT"

  /** Gate-mode verdict: exact string equality with "1". */
  predicate GatePasses(value: string)
  {
    value == HealthyValue
  }

  /** True iff the description names an error-count check (display mode only). */
  predicate Inverted(description: string)
  {
    HasPrefix(description, InvertedPrefix)
  }

  /** Display-mode verdict: prints OK iff (value == "1") XOR the FLUENT prefix. */
  function DisplayOk(description: string, value: string): (ok: bool)
    ensures !Inverted(description) ==> (ok <==> value == HealthyValue)
    ensures Inverted(description) ==> (ok <==> value != HealthyValue)
  {
    (value == HealthyValue) != Inverted(description)
  }

  /** Display mode agrees with gate mode exactly on descriptions without the prefix. */
  lemma DisplayRefinesGateOffPrefix(description: string, value: string)
    ensures DisplayOk(description, value) == GatePasses(value) <==> !Inverted(description)
  {
  }

  /**
   The comparison is lexical: any value other than the literal "1" (such as
   "1.0", "0.5" or "") is classified like "0", in both modes.
   */
  lemma LexicalNotNumeric(description: string, value: string)
    requires value != HealthyValue
    ensures GatePasses(value) == GatePasses("0") == false
    ensures DisplayOk(description, value) == DisplayOk(description, "0")
  {
  }

  /** The display verdicts of the test table for Run's output logic. */
  lemma DisplayExamples()
    ensures DisplayOk("APISERVER", "1") && !DisplayOk("APISERVER", "0")
    ensures !DisplayOk("FLUENTBITERRORS", "1") && DisplayOk("FLUENTBITERRORS", "0")
    ensures !DisplayOk("FLUENTDERRORS", "1") && DisplayOk("FLUENTDERRORS", "0")
    ensures !DisplayOk("KUBELET", "0.5")
  {
    assert Inverted("FLUENTBITERRORS") by { assert "FLUENTBITERRORS"[..6] == "FLUENT"; }
    assert Inverted("FLUENTDERRORS") by { assert "FLUENTDERRORS"[..6] == "FLUENT"; }
    assert !Inverted("APISERVER") by { assert "APISERVER"[0] != "FLUENT"[0]; }
    assert !Inverted("KUBELET") by { assert "KUBELET"[0] != "FLUENT"[0]; }
  }

  /**
   The gate table's FLUENTBIT_OK and FLUENTD_OK still start with "FLUENT",
   yet the gate does not invert them: "0" and "1.0" fail, "1" passes,
   where display mode would have said the opposite for "0" and "1".
   */
  lemma GateDoesNotInvertFluent()
    ensures Inverted("FLUENTBIT_OK") && Inverted("FLUENTD_OK")
    ensures !GatePasses("0") && !GatePasses("1.0") && GatePasses("1")
    ensures DisplayOk("FLUENTBIT_OK", "0") && !DisplayOk("FLUENTBIT_OK", "1")
  {
    assert "FLUENTBIT_OK"[..6] == "FLUENT";
    assert "FLUENTD_OK"[..6] == "FLUENT";
  }
}
