/**
 * The helpers the controller uses to drive the device: the on/off value of a
 * LED, the step grid of a page, enumeration membership and the colour of a
 * channel pad.
 */
module Utilities {
  import opened Wrappers
  import PyEnum
  import opened PyRange
  import opened Enums
  import Consts

  /** The MIDI value that lights a LED (127) or turns it off (0). */
  function OnOff(condition: bool): (r: int)
    ensures r == 127 <==> condition
    ensures r == 0 <==> !condition
  {
    if condition then 127 else 0
  }

  /** Evaluating a name that nothing binds. */
  datatype NameError = NameError(name: string)

  /**
   * The steps shown on page `page` of the step sequencer, `notesCount` per
   * page. `notesCount` stands for the `NOTES_COUNT` constant, which consts.py
   * does not define.
   */
  function GetGrid(notesCount: int, page: int): (r: Range)
    ensures notesCount >= 0 ==> r.Len() == notesCount
    ensures forall i :: r.Contains(i) <==> page * notesCount <= i < page * notesCount + notesCount
  {
    var lowerStep := page * notesCount;
    Range(lowerStep, lowerStep + notesCount)
  }

  /**
   * The step grid as written: `NOTES_COUNT` is read from the consts module,
   * which does not bind it, so every call fails on that name.
   */
  function GetGridAsWritten(page: int): (r: Result<Range, NameError>)
    ensures r.Failure? && r.error == NameError("NOTES_COUNT")
  {
    match Consts.IntConstant("NOTES_COUNT")
    case None => Failure(NameError("NOTES_COUNT"))
    case Some(notesCount) => Success(GetGrid(notesCount, page))
  }

  /** A page holds exactly `notesCount` consecutive steps starting at `page * notesCount`. */
  lemma GridSteps(notesCount: nat, page: int)
    ensures GetGrid(notesCount, page).Len() == notesCount
    ensures forall k :: 0 <= k < notesCount ==> GetGrid(notesCount, page).Elements()[k] == page * notesCount + k
  {
  }

  /** Consecutive pages meet without overlapping. */
  lemma GridsAdjacent(notesCount: nat, page: int)
    ensures GetGrid(notesCount, page).stop == GetGrid(notesCount, page + 1).start
    ensures forall i :: !(GetGrid(notesCount, page).Contains(i) && GetGrid(notesCount, page + 1).Contains(i))
  {
    assert (page + 1) * notesCount == page * notesCount + notesCount;
  }

  /** A step belongs to the page its floor quotient by `notesCount` names, and to no other. */
  lemma GridMembership(notesCount: int, page: int, i: int)
    requires notesCount > 0
    ensures GetGrid(notesCount, page).Contains(i) <==> i / notesCount == page
  {
    var q, r := i / notesCount, i % notesCount;
    assert i == q * notesCount + r && 0 <= r < notesCount;
    if q < page {
      MulMonotone(q + 1, page, notesCount);
      assert q * notesCount + notesCount == (q + 1) * notesCount;
    } else if q > page {
      MulMonotone(page + 1, q, notesCount);
      assert page * notesCount + notesCount == (page + 1) * notesCount;
    }
  }

  lemma MulMonotone(a: int, b: int, n: int)
    requires a <= b && n > 0
    ensures a * n <= b * n
  {
    assert b * n - a * n == (b - a) * n;
  }

  /** `_is_enum_value(E, v)`: whether `E(v)` succeeds; the ValueError of a failed lookup is caught. */
  function IsEnumValue<E(==)>(members: seq<E>, value: E -> int, v: int): (r: bool)
    ensures r <==> exists i :: 0 <= i < |members| && value(members[i]) == v
  {
    PyEnum.Lookup(members, value, v).Success?
  }

  /** The palette and the member a channel pad takes its colour from. */
  function SelectColor(isPlugin: bool, highlighted: bool): (r: (Palette, ColorMember))
    ensures r.0 == PluginColors <==> isPlugin
    ensures r.1 == HIGHLIGHTED <==> highlighted
  {
    (if isPlugin then PluginColors else ChannelColors, if highlighted then HIGHLIGHTED else DEFAULT)
  }

  /**
   * The LED colour of the pad of `channel`: the plugin palette when the channel
   * holds a valid plugin (`plugins.isValid`, a parameter here), the channel
   * palette otherwise; the highlighted shade when `highlighted`.
   */
  function GetChannelColor(colors: Colors, isValid: int -> bool, channel: int, highlighted: bool): (r: int)
    ensures isValid(channel) && !highlighted ==> r == colors.green1
    ensures isValid(channel) && highlighted ==> r == colors.green3
    ensures !isValid(channel) && !highlighted ==> r == colors.white1
    ensures !isValid(channel) && highlighted ==> r == colors.white3
  {
    var (palette, member) := SelectColor(isValid(channel), highlighted);
    ColorValue(colors, palette, member)
  }

  /**
   * The colour lookup as written: it names `PluginColor` and `ChannelColor`,
   * which the enums module does not define (it defines `PluginColors` and
   * `ChannelColors`), so every call fails on the name it evaluates.
   */
  function GetChannelColorAsWritten(colors: Colors, isValid: int -> bool, channel: int, highlighted: bool)
    : (r: Result<int, NameError>)
    ensures r.Failure?
    ensures r.error == NameError(if isValid(channel) then "PluginColor" else "ChannelColor")
  {
    var name := if isValid(channel) then "PluginColor" else "ChannelColor";
    match PaletteNamed(name)
    case None => Failure(NameError(name))
    case Some(palette) => Success(ColorValue(colors, palette, if highlighted then HIGHLIGHTED else DEFAULT))
  }
}
