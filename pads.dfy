/** The pads that trigger an action while SHIFT is held, by pad index. */
module Pads {
  import PyEnum
  import Utilities

  datatype Pad = UNDO | REDO | QUANTIZE | QUANTIZE_HALF | SEMI_DOWN | SEMI_UP | OCTAVE_DOWN | OCTAVE_UP

  /** The pad index of a member, `member.value`. */
  function Number(p: Pad): int {
    match p
    case UNDO => 0
    case REDO => 1
    case QUANTIZE => 4
    case QUANTIZE_HALF => 5
    case SEMI_DOWN => 12
    case SEMI_UP => 13
    case OCTAVE_DOWN => 14
    case OCTAVE_UP => 15
  }

  /** The members in declaration order. */
  const PADS: seq<Pad> := [UNDO, REDO, QUANTIZE, QUANTIZE_HALF, SEMI_DOWN, SEMI_UP, OCTAVE_DOWN, OCTAVE_UP]

  /** Every member is one of the sixteen pads, and no two members share a pad. */
  lemma PadIndices(p: Pad)
    ensures 0 <= Number(p) <= 15
    ensures p in PADS
    ensures PyEnum.Injective(PADS, Number)
  {
  }

  /** Undo and redo sit on the first two pads. */
  lemma UndoRedo()
    ensures Number(UNDO) == 0 && Number(REDO) == 1
  {
  }

  /** The transposition pads fill the last row, 12 to 15, the lowering pad of each pair first. */
  lemma TranspositionPads()
    ensures [Number(SEMI_DOWN), Number(SEMI_UP), Number(OCTAVE_DOWN), Number(OCTAVE_UP)] == [12, 13, 14, 15]
    ensures Number(SEMI_DOWN) < Number(SEMI_UP) && Number(OCTAVE_DOWN) < Number(OCTAVE_UP)
  {
  }

  /** `_is_enum_value(Pad, i)` holds exactly for the eight pads that carry an action. */
  lemma IsPad(i: int)
    ensures Utilities.IsEnumValue(PADS, Number, i) <==> i in {0, 1, 4, 5, 12, 13, 14, 15}
  {
    if i in {0, 1, 4, 5, 12, 13, 14, 15} {
      var k := if i < 2 then i else if i < 6 then i - 2 else i - 8;
      assert Number(PADS[k]) == i;
    }
  }
}
