/** The controller's fixed bounds: the CC numbers of the group buttons and the transposition limits. */
module Consts {
  import opened Wrappers
  import opened PyRange

  /** The CC numbers of the group buttons A to H. */
  const GROUPS_RANGE: Range := Range(100, 108)

  const MIN_OCTAVE: int := -3
  const MAX_OCTAVE: int := 3

  const MIN_SEMI_OFFSET: int := -11
  const MAX_SEMI_OFFSET: int := 11

  /**
   * The integer constants the consts module binds, by name. `NOTES_COUNT`,
   * which the utilities module imports from it, is not among them.
   */
  function IntConstant(name: string): (r: Option<int>)
    ensures r.Some? <==> name in {"MIN_OCTAVE", "MAX_OCTAVE", "MIN_SEMI_OFFSET", "MAX_SEMI_OFFSET"}
    ensures r.Some? ==> MIN_SEMI_OFFSET <= r.value <= MAX_SEMI_OFFSET
    ensures name == "NOTES_COUNT" ==> r.None?
  {
    if name == "MIN_OCTAVE" then Some(MIN_OCTAVE)
    else if name == "MAX_OCTAVE" then Some(MAX_OCTAVE)
    else if name == "MIN_SEMI_OFFSET" then Some(MIN_SEMI_OFFSET)
    else if name == "MAX_SEMI_OFFSET" then Some(MAX_SEMI_OFFSET)
    else None
  }

  /** The group range holds exactly the eight numbers 100 to 107. */
  lemma GroupsRangeElements()
    ensures GROUPS_RANGE.Len() == 8
    ensures GROUPS_RANGE.Elements() == [100, 101, 102, 103, 104, 105, 106, 107]
    ensures forall i :: GROUPS_RANGE.Contains(i) <==> 100 <= i <= 107
  {
    assert GROUPS_RANGE.Elements()[0] == 100;
  }

  /** The octave shift ranges over -3 to 3, so the unshifted keyboard is allowed. */
  lemma OctaveBounds()
    ensures MIN_OCTAVE == -3 <= 0 <= MAX_OCTAVE == 3
  {
  }

  /** The semitone offset ranges over a symmetric interval around 0, less than an octave each way. */
  lemma SemiOffsetBounds()
    ensures MIN_SEMI_OFFSET == -MAX_SEMI_OFFSET
    ensures MIN_SEMI_OFFSET <= 0 <= MAX_SEMI_OFFSET < 12
  {
  }
}
