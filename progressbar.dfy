/** The progress bar's clamp and its optional percentage label
    (src/components/ProgressBar.tsx). */
module ProgressBar {
  import opened Wrappers

  /** `Math.min(100, Math.max(0, progress))` */
  function Normalize(p: real): (r: real)
    ensures 0.0 <= r <= 100.0
    ensures 0.0 <= p <= 100.0 ==> r == p
    ensures p < 0.0 ==> r == 0.0
    ensures p > 100.0 ==> r == 100.0
  {
    var lower := if 0.0 > p then 0.0 else p;
    if 100.0 < lower then 100.0 else lower
  }

  lemma NormalizeIdempotent(p: real)
    ensures Normalize(Normalize(p)) == Normalize(p)
  {
  }

  /** `Math.round`: the nearest integer, halves rounded up. */
  function Round(x: real): (n: int)
    ensures n as real - 0.5 <= x < n as real + 0.5
  {
    (x + 0.5).Floor
  }

  /** The label `${Math.round(normalizedProgress)}% Complete`, rendered only
      with `showPercentage`; its number is a whole percentage. */
  function PercentageLabel(p: real, showPercentage: bool): (r: Option<int>)
    ensures r.Some? <==> showPercentage
    ensures r.Some? ==> 0 <= r.value <= 100 && r.value == Round(Normalize(p))
  {
    if showPercentage then Some(Round(Normalize(p))) else None
  }
}
