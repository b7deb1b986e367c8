/** The rain-likelihood classifier of handleRequest (worker.js:74-83):
    today's mean precipitation probability, with a JS-falsy value read as 0,
    is put into one of three bands by the strict thresholds 30 and 70, and
    each band has a fixed Romanian message. */
module Rain {
  import opened Wrappers

  const LowThreshold: real := 30.0
  const HighThreshold: real := 70.0

  const NoRain := "Nu plouă"
  const PossibleRain := "Posibil să plouă"
  const CertainRain := "Plouă sigur - ia umbrela"

  /** `precipitation_probability_mean[0] || 0`: a missing or null entry
      (None) and the falsy number 0 both become 0; every other number is
      kept, negative ones included. */
  function OrZero(p: Option<real>): (q: real)
    ensures p.None? ==> q == 0.0
    ensures p.Some? ==> q == p.value
  {
    match p
    case None => 0.0
    case Some(x) => if x == 0.0 then 0.0 else x
  }

  /** The if/else chain that assigns rainMessage exactly once. */
  function Classify(p: real): (m: string)
    ensures m == NoRain <==> p < LowThreshold
    ensures m == PossibleRain <==> LowThreshold <= p < HighThreshold
    ensures m == CertainRain <==> HighThreshold <= p
  {
    if p < LowThreshold then NoRain
    else if p < HighThreshold then PossibleRain
    else CertainRain
  }

  /** The message rendered for today's (possibly missing) probability. */
  function RainMessage(p: Option<real>): (m: string)
    ensures p.None? ==> m == NoRain
    ensures p.Some? ==> (m == NoRain <==> p.value < LowThreshold)
    ensures p.Some? ==> (m == PossibleRain <==> LowThreshold <= p.value < HighThreshold)
    ensures p.Some? ==> (m == CertainRain <==> HighThreshold <= p.value)
  {
    Classify(OrZero(p))
  }

  /** Band of a message, in order of increasing likelihood of rain. */
  function Band(m: string): (b: nat)
    ensures b <= 2
  {
    if m == NoRain then 0 else if m == PossibleRain then 1 else 2
  }

  /** An independent reference definition of the classifier: the band is
      the number of thresholds the probability reaches. */
  function ThresholdsReached(p: real): (n: nat)
    ensures n <= 2
  {
    (if LowThreshold <= p then 1 else 0) + (if HighThreshold <= p then 1 else 0)
  }

  /** The three messages are pairwise different, so the message alone tells
      the band. */
  lemma MessagesDistinct()
    ensures NoRain != PossibleRain && PossibleRain != CertainRain && NoRain != CertainRain
  {
  }

  /** The classifier agrees with the reference definition. */
  lemma ClassifyCountsThresholds(p: real)
    ensures Band(Classify(p)) == ThresholdsReached(p)
  {
  }

  /** A higher probability never yields a less certain message. */
  lemma ClassifyMonotonic(p: real, q: real)
    requires p <= q
    ensures Band(Classify(p)) <= Band(Classify(q))
  {
    ClassifyCountsThresholds(p);
    ClassifyCountsThresholds(q);
  }

  /** The boundary cases: 29.9 is low, 30 and 69.9 are middle, 70 is high. */
  lemma Boundaries()
    ensures RainMessage(Some(29.9)) == NoRain
    ensures RainMessage(Some(30.0)) == PossibleRain
    ensures RainMessage(Some(69.9)) == PossibleRain
    ensures RainMessage(Some(70.0)) == CertainRain
  {
  }

  /** A missing, null or zero probability reads as "no rain". */
  lemma FalsyIsNoRain(p: Option<real>)
    requires p.None? || p.value == 0.0
    ensures RainMessage(p) == NoRain
  {
  }
}
