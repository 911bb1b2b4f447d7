/** The circular usage gauge (components/WaterPulse.tsx): the percentage it is
    given is clamped into [0, 100] for the water level, and the label shows it
    rounded to a whole percent. */
module WaterPulse {

  function Min(a: real, b: real): real {
    if a <= b then a else b
  }

  function Max(a: real, b: real): real {
    if a >= b then a else b
  }

  /** `Math.min(100, Math.max(0, percentage))` (WaterPulse.tsx:11). */
  function SafePercent(percentage: real): (r: real)
    ensures 0.0 <= r <= 100.0
    ensures 0.0 <= percentage <= 100.0 ==> r == percentage
    ensures percentage < 0.0 ==> r == 0.0
    ensures percentage > 100.0 ==> r == 100.0
  {
    Min(100.0, Max(0.0, percentage))
  }

  /** `Math.round`: the nearest integer, a half rounded upwards. */
  function Round(x: real): (n: int)
    ensures x - 0.5 < n as real <= x + 0.5
  {
    (x + 0.5).Floor
  }

  /** The number printed inside the gauge (WaterPulse.tsx:42). */
  function PercentLabel(percentage: real): (n: int)
    ensures 0 <= n <= 100
  {
    Round(SafePercent(percentage))
  }

  /** A fuller day never shows a lower level or a lower label. */
  lemma GaugeMonotone(p: real, q: real)
    requires p <= q
    ensures SafePercent(p) <= SafePercent(q)
    ensures PercentLabel(p) <= PercentLabel(q)
  {
  }
}
