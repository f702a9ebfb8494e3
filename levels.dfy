/** The four anxiety bands the patient reports (PatientState.GetAnxietyLevel). */
module Levels {

  /** The band of an anxiety value; each band is half-open, closed below. */
  function AnxietyLevel(anxiety: real): (level: string)
  {
    if anxiety < 0.3 then "none"
    else if anxiety < 0.6 then "mild"
    else if anxiety < 0.8 then "significant"
    else "extreme"
  }

  /** The position of a band in increasing order of anxiety; -1 for any other label. */
  function Rank(level: string): (r: int)
    ensures -1 <= r <= 3
  {
    if level == "none" then 0
    else if level == "mild" then 1
    else if level == "significant" then 2
    else if level == "extreme" then 3
    else -1
  }

  /** Each label is reported exactly on its band. */
  lemma LevelBands(anxiety: real)
    ensures AnxietyLevel(anxiety) == "none" <==> anxiety < 0.3
    ensures AnxietyLevel(anxiety) == "mild" <==> 0.3 <= anxiety < 0.6
    ensures AnxietyLevel(anxiety) == "significant" <==> 0.6 <= anxiety < 0.8
    ensures AnxietyLevel(anxiety) == "extreme" <==> 0.8 <= anxiety
    ensures Rank(AnxietyLevel(anxiety)) >= 0
  {
  }

  /** More anxiety never gives a lower band. */
  lemma LevelMonotone(a: real, b: real)
    requires a <= b
    ensures Rank(AnxietyLevel(a)) <= Rank(AnxietyLevel(b))
  {
  }

  /** The thresholds themselves belong to the upper band. */
  lemma LevelThresholds()
    ensures AnxietyLevel(0.3) == "mild" && AnxietyLevel(0.6) == "significant" && AnxietyLevel(0.8) == "extreme"
    ensures AnxietyLevel(0.0) == "none" && AnxietyLevel(1.0) == "extreme"
  {
  }
}
