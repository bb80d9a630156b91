/** The metrics section: four headline figures whose counters animate up to the
    digits of each figure's value. */
module MetricsSection {
  import opened Sequences
  import opened Text

  /** One headline figure; the suffix is printed after the counter. */
  datatype Metric = Metric(value: string, suffix: string, caption: string)

  const Metrics: seq<Metric> := [
    Metric("87", "%", "Reduction in Documentation Time"),
    Metric("3200000", "+", "Patient Interactions Processed"),
    Metric("45", " sec", "Average Call-to-Case Time"),
    Metric("99.9", "%", "HIPAA Compliance Rate")
  ]

  /** The counter target `metric.value.replace(/[^0-9]/g, '')`: digits only, taken
      in order from the value (a subsequence of it), and already in its final form. */
  function DataValue(m: Metric): (target: string)
    ensures forall i :: 0 <= i < |target| ==> IsDigit(target[i])
    ensures IsSubsequence(target, m.value)
    ensures |target| <= |m.value|
    ensures StripNonDigits(target) == target
  {
    StripNonDigitsProperties(m.value);
    StripNonDigits(m.value)
  }

  /** The three whole-number values are their own targets. */
  lemma WholeNumbersUnchanged()
    ensures DataValue(Metrics[0]) == "87"
    ensures DataValue(Metrics[1]) == "3200000"
    ensures DataValue(Metrics[2]) == "45"
  {
    assert Metrics[0].value == "87" && Metrics[1].value == "3200000" && Metrics[2].value == "45";
    StripAllDigits("87");
    StripAllDigits("3200000");
    StripAllDigits("45");
  }

  /** "99.9" animates to 999: the decimal point is dropped, not honoured. */
  lemma DecimalPointDropped()
    ensures DataValue(Metrics[3]) == "999"
  {
  }
}
