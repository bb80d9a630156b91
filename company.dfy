/** The company page's stats row: each counter animates up to the digits of its
    displayed figure. */
module Company {
  import opened Sequences
  import opened Text

  /** One figure of the stats row. */
  datatype Stat = Stat(number: string, caption: string)

  const Stats: seq<Stat> := [
    Stat("500+", "Healthcare Partners"),
    Stat("3.2M+", "Patient Interactions"),
    Stat("99.9%", "Uptime Guarantee"),
    Stat("24/7", "Support Coverage")
  ]

  /** The counter target `stat.number.replace(/[^0-9]/g, '')`: digits only, taken
      in order from the figure, never longer than it. */
  function DataValue(s: Stat): (target: string)
    ensures forall i :: 0 <= i < |target| ==> IsDigit(target[i])
    ensures IsSubsequence(target, s.number)
    ensures |target| <= |s.number|
  {
    StripNonDigitsProperties(s.number);
    StripNonDigits(s.number)
  }

  /** "500+" becomes 500 and "3.2M+" becomes 32: the unit letter and the decimal
      point are dropped, so the counter does not reach 3.2 million. */
  lemma PartnersAndInteractions()
    ensures DataValue(Stats[0]) == "500"
    ensures DataValue(Stats[1]) == "32"
  {
  }

  /** "99.9%" becomes 999 and "24/7" becomes 247. */
  lemma UptimeAndSupport()
    ensures DataValue(Stats[2]) == "999"
    ensures DataValue(Stats[3]) == "247"
  {
  }
}
