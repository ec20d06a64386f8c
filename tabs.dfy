/**
 Tab-bar styling: the tab font shrinks by three points for every complete
 group of five open tabs.
 */
module TabStyle {

  const BaseFontSize: int := 12
  const TabsPerStep: nat := 5
  const PointsPerStep: int := 3

  /**
   The font size, in points, for `count` open tabs. `count` is never
   negative, so floor division and Dafny's division agree.
   */
  function TabFontSize(count: nat): (size: int)
    ensures size <= BaseFontSize
    ensures (BaseFontSize - size) % PointsPerStep == 0
    ensures var steps := (BaseFontSize - size) / PointsPerStep;
      TabsPerStep * steps <= count < TabsPerStep * (steps + 1)
  {
    BaseFontSize - (count / TabsPerStep) * PointsPerStep
  }

  /** Up to four tabs use the full size. */
  lemma FewTabsFullSize(count: nat)
    requires count < TabsPerStep
    ensures TabFontSize(count) == BaseFontSize
  {
  }

  /** Opening more tabs never makes the font larger. */
  lemma FontNeverGrows(fewer: nat, more: nat)
    requires fewer <= more
    ensures TabFontSize(more) <= TabFontSize(fewer)
  {
  }

  /** The formula has no lower bound: from twenty tabs on the size is zero or negative. */
  lemma ManyTabsNoPositiveSize(count: nat)
    requires count >= 4 * TabsPerStep
    ensures TabFontSize(count) <= 0
  {
  }
}
