/**
 * The tile panel's placement: its height and its vertical position inside
 * the system-bar insets. The 16dp margin is a parameter in pixels.
 */
module Panel {

  import GameBar

  datatype Height = Pixels(n: int) | MatchParent

  /** The panel is half the screen tall in portrait and fills its parent in landscape. */
  function PanelHeight(portrait: bool, screenHeight: nat): (r: Height)
    ensures portrait <==> r.Pixels?
    ensures portrait ==> 2 * r.n <= screenHeight < 2 * r.n + 2
  {
    if portrait then Pixels(screenHeight / 2) else MatchParent
  }

  /** The lowest y of the panel: below the top inset by the margin. */
  function MinY(top: int, margin: int): int { top + margin }

  /** The highest y: the panel's bottom sits the margin above the bottom inset. */
  function MaxY(top: int, bottom: int, parentHeight: int, height: int, margin: int): int {
    top + parentHeight - bottom - height - margin
  }

  /** The y `applyRelativeLocation` gives the panel: the requested y clamped in portrait, 0 in landscape;
      on a range too small for both the upper bound wins. */
  function PanelY(portrait: bool, relativeY: int, top: int, bottom: int, parentHeight: int,
                  height: int, margin: int): (r: int)
    ensures !portrait ==> r == 0
    ensures portrait ==> r <= MaxY(top, bottom, parentHeight, height, margin)
    ensures portrait && MinY(top, margin) > MaxY(top, bottom, parentHeight, height, margin) ==>
      r == MaxY(top, bottom, parentHeight, height, margin)
    ensures portrait && MinY(top, margin) <= MaxY(top, bottom, parentHeight, height, margin) ==>
      MinY(top, margin) <= r
    ensures portrait && MinY(top, margin) <= relativeY <= MaxY(top, bottom, parentHeight, height, margin) ==>
      r == relativeY
    ensures portrait && relativeY < MinY(top, margin) <= MaxY(top, bottom, parentHeight, height, margin) ==>
      r == MinY(top, margin)
    ensures portrait && MaxY(top, bottom, parentHeight, height, margin) < relativeY ==>
      r == MaxY(top, bottom, parentHeight, height, margin)
  {
    if portrait then
      GameBar.Min(GameBar.Max(relativeY, MinY(top, margin)), MaxY(top, bottom, parentHeight, height, margin))
    else 0
  }

  /** The panel's clamp and the bar's clamp agree on every range that fits, and on a range that does not
      the bar keeps the lower bound while the panel keeps the upper one. */
  lemma {:induction false} ClampTieBreaks(v: int, height: int, safeArea: int)
    ensures var lo := safeArea;
      var hi := height - safeArea;
      var panel := PanelY(true, v, 0, 0, height, 0, safeArea);
      && (lo <= hi ==> GameBar.ClampY(v, height, safeArea) == panel)
      && (lo > hi ==> GameBar.ClampY(v, height, safeArea) == lo && panel == hi)
  {
    var lo := safeArea;
    var hi := height - safeArea;
    assert MinY(0, safeArea) == lo && MaxY(0, 0, height, 0, safeArea) == hi;
  }
}
