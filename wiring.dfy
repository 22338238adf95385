/**
 * The one line of client/src/pages/Home.tsx that connects the two components:
 * the particle scale is derived from the gesture record's hand distance.
 */
module Wiring {
  import opened Numeric
  import Particles
  import Gestures

  /** `0.5 + handDistance * 1.5`, the scale handed to `setScale`. */
  function ScaleFromGesture(g: Gestures.GestureState): (s: real)
    ensures 0.0 <= g.handDistance <= 1.0 ==> Particles.ScaleMin <= s <= Particles.ScaleMax
    ensures 0.0 <= g.handDistance <= 1.0 ==> Clamp(Particles.ScaleMin, Particles.ScaleMax, s) == s
  {
    0.5 + g.handDistance * 1.5
  }

  /**
   * For every record the classifier can produce, `setScale` stores the
   * derived scale unchanged, and a larger hand distance gives a larger scale.
   */
  lemma GestureScaleNeverClamped(g: Gestures.GestureState, h: Gestures.GestureState)
    requires Gestures.InRange(g) && Gestures.InRange(h)
    ensures Clamp(Particles.ScaleMin, Particles.ScaleMax, ScaleFromGesture(g)) == ScaleFromGesture(g)
    ensures g.handDistance < h.handDistance ==> ScaleFromGesture(g) < ScaleFromGesture(h)
  {
  }
}
