/**
 * The script's enumerations: the colour palettes of the channel pads and the
 * modes of the pads, the 4-D encoder and the touch strip.
 */
module Enums {
  import opened Wrappers
  import PyEnum

  /**
   * The colour constants of the `colors` module that the palettes use. Their
   * numbers are not part of this model, so they are parameters.
   */
  datatype Colors = Colors(green1: int, green3: int, white1: int, white3: int)

  /** The two colour palettes, `PluginColors` and `ChannelColors`. */
  datatype Palette = PluginColors | ChannelColors

  /** The members each palette declares. */
  datatype ColorMember = DEFAULT | HIGHLIGHTED

  const COLOR_MEMBERS: seq<ColorMember> := [DEFAULT, HIGHLIGHTED]

  /** `palette.member.value`: plugins are green, channels white, brighter when highlighted. */
  function ColorValue(colors: Colors, palette: Palette, member: ColorMember): int {
    match (palette, member)
    case (PluginColors, DEFAULT) => colors.green1
    case (PluginColors, HIGHLIGHTED) => colors.green3
    case (ChannelColors, DEFAULT) => colors.white1
    case (ChannelColors, HIGHLIGHTED) => colors.white3
  }

  /**
   * The palette the enums module defines under `name`, if it defines one. The
   * names its `from colors import *` brings in are taken to include no palette.
   */
  function PaletteNamed(name: string): (r: Option<Palette>)
    ensures r == Some(PluginColors) <==> name == "PluginColors"
    ensures r == Some(ChannelColors) <==> name == "ChannelColors"
    ensures r == None <==> name != "PluginColors" && name != "ChannelColors"
  {
    if name == "PluginColors" then Some(PluginColors)
    else if name == "ChannelColors" then Some(ChannelColors)
    else None
  }

  /** Each palette declares exactly DEFAULT and HIGHLIGHTED. */
  lemma PaletteMembers(m: ColorMember)
    ensures |COLOR_MEMBERS| == 2 && m in COLOR_MEMBERS
    ensures m == DEFAULT || m == HIGHLIGHTED
  {
  }

  datatype PadMode = OMNI | KEYBOARD | CHORDS | STEP

  function PadModeNumber(m: PadMode): int {
    match m
    case OMNI => 0
    case KEYBOARD => 1
    case CHORDS => 2
    case STEP => 3
  }

  const PAD_MODES: seq<PadMode> := [OMNI, KEYBOARD, CHORDS, STEP]

  datatype FourDEncoderMode = JOG | VOLUME | SWING | TEMPO

  function EncoderModeNumber(m: FourDEncoderMode): int {
    match m
    case JOG => 0
    case VOLUME => 1
    case SWING => 2
    case TEMPO => 3
  }

  const ENCODER_MODES: seq<FourDEncoderMode> := [JOG, VOLUME, SWING, TEMPO]

  datatype TouchStripMode = DISABLED | PITCH | MOD | PERFORM | NOTES

  function TouchStripModeNumber(m: TouchStripMode): int {
    match m
    case DISABLED => 0
    case PITCH => 1
    case MOD => 2
    case PERFORM => 3
    case NOTES => 4
  }

  const TOUCH_STRIP_MODES: seq<TouchStripMode> := [DISABLED, PITCH, MOD, PERFORM, NOTES]

  /** The pad modes are numbered 0 to 3 without aliases, and `PadMode(v)` succeeds exactly for those numbers. */
  lemma PadModeNumbers(v: int)
    ensures PyEnum.Injective(PAD_MODES, PadModeNumber)
    ensures forall m: PadMode :: m in PAD_MODES
    ensures PyEnum.Lookup(PAD_MODES, PadModeNumber, v).Success? <==> 0 <= v <= 3
  {
    forall m: PadMode ensures m in PAD_MODES {
      assert PAD_MODES[PadModeNumber(m)] == m;
    }
    if 0 <= v <= 3 {
      assert PadModeNumber(PAD_MODES[v]) == v;
    }
  }

  /** The encoder modes are numbered 0 to 3 without aliases, jog first. */
  lemma EncoderModeNumbers(v: int)
    ensures PyEnum.Injective(ENCODER_MODES, EncoderModeNumber)
    ensures forall m: FourDEncoderMode :: m in ENCODER_MODES
    ensures EncoderModeNumber(JOG) == 0
    ensures PyEnum.Lookup(ENCODER_MODES, EncoderModeNumber, v).Success? <==> 0 <= v <= 3
  {
    forall m: FourDEncoderMode ensures m in ENCODER_MODES {
      assert ENCODER_MODES[EncoderModeNumber(m)] == m;
    }
    if 0 <= v <= 3 {
      assert EncoderModeNumber(ENCODER_MODES[v]) == v;
    }
  }

  /** The touch-strip modes are numbered 0 to 4 without aliases, the disabled strip being 0. */
  lemma TouchStripModeNumbers(v: int)
    ensures PyEnum.Injective(TOUCH_STRIP_MODES, TouchStripModeNumber)
    ensures forall m: TouchStripMode :: m in TOUCH_STRIP_MODES
    ensures TouchStripModeNumber(DISABLED) == 0
    ensures PyEnum.Lookup(TOUCH_STRIP_MODES, TouchStripModeNumber, v).Success? <==> 0 <= v <= 4
  {
    forall m: TouchStripMode ensures m in TOUCH_STRIP_MODES {
      assert TOUCH_STRIP_MODES[TouchStripModeNumber(m)] == m;
    }
    if 0 <= v <= 4 {
      assert TouchStripModeNumber(TOUCH_STRIP_MODES[v]) == v;
    }
  }
}
