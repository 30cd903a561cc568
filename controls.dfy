/**
 * The control-change numbers the Maschine MK3 sends and receives for its
 * buttons, encoders and touch strip: an integer enumeration whose members are
 * looked up by number when a CC message arrives.
 */
module Controls {
  import opened Wrappers
  import PyEnum
  import opened PyRange
  import Consts

  datatype CC =
    | CHANNEL
    | PLUGIN
    | ARRANGER
    | MIXER
    | BROWSER
    | FILE_SAVE
    | SETTINGS
    | ENCODER_PUSH
    | ENCODER_TURN
    | ENCODER_UP
    | ENCODER_RIGHT
    | ENCODER_DOWN
    | ENCODER_LEFT
    | ENCODER_VOLUME
    | ENCODER_SWING
    | ENCODER_TEMPO
    | TOUCH_STRIP
    | TOUCH_STRIP_PITCH
    | TOUCH_STRIP_MOD
    | TOUCH_STRIP_PERFORM
    | TOUCH_STRIP_NOTES
    | GROUP_A
    | GROUP_B
    | GROUP_C
    | GROUP_D
    | GROUP_E
    | GROUP_F
    | GROUP_G
    | GROUP_H
    | RESTART
    | ERASE
    | TAP
    | PLAY
    | GRID
    | REC
    | STOP
    | FIXED_VEL
    | PAD_MODE
    | KEYBOARD_MODE
    | CHORDS_MODE
    | STEP_MODE
    | PATTERN
    | SOLO
    | MUTE
    | PRESET_NEXT
    | PRESET_PREV
    | OCTAVE_DOWN
    | OCTAVE_UP
    | SEMI_DOWN
    | SEMI_UP
    | MIX_TRACK
    | MIX_VOL
    | MIX_PAN
    | MIX_SS
    | CHAN_SEL
    | CHAN_VOL
    | CHAN_PAN
    | FIX_VEL
    | SHIFT

  /** The member's CC number, `member.value`. */
  function Number(c: CC): int {
    match c
    case CHANNEL => 34
    case PLUGIN => 35
    case ARRANGER => 36
    case MIXER => 37
    case BROWSER => 38
    case FILE_SAVE => 40
    case SETTINGS => 41
    case ENCODER_PUSH => 7
    case ENCODER_TURN => 8
    case ENCODER_UP => 30
    case ENCODER_RIGHT => 31
    case ENCODER_DOWN => 32
    case ENCODER_LEFT => 33
    case ENCODER_VOLUME => 44
    case ENCODER_SWING => 45
    case ENCODER_TEMPO => 47
    case TOUCH_STRIP => 1
    case TOUCH_STRIP_PITCH => 49
    case TOUCH_STRIP_MOD => 50
    case TOUCH_STRIP_PERFORM => 51
    case TOUCH_STRIP_NOTES => 52
    case GROUP_A => 100
    case GROUP_B => 101
    case GROUP_C => 102
    case GROUP_D => 103
    case GROUP_E => 104
    case GROUP_F => 105
    case GROUP_G => 106
    case GROUP_H => 107
    case RESTART => 53
    case ERASE => 54
    case TAP => 55
    case PLAY => 57
    case GRID => 56
    case REC => 58
    case STOP => 59
    case FIXED_VEL => 81
    case PAD_MODE => 80
    case KEYBOARD_MODE => 82
    case CHORDS_MODE => 84
    case STEP_MODE => 83
    case PATTERN => 86
    case SOLO => 91
    case MUTE => 92
    case PRESET_NEXT => 22
    case PRESET_PREV => 23
    case OCTAVE_DOWN => 26
    case OCTAVE_UP => 27
    case SEMI_DOWN => 28
    case SEMI_UP => 29
    case MIX_TRACK => 70
    case MIX_VOL => 71
    case MIX_PAN => 72
    case MIX_SS => 73
    case CHAN_SEL => 74
    case CHAN_VOL => 75
    case CHAN_PAN => 76
    case FIX_VEL => 77
    case SHIFT => 46
  }

  /** The control buttons. */
  const CONTROL_BUTTONS: seq<CC> := [CHANNEL, PLUGIN, ARRANGER, MIXER, BROWSER, FILE_SAVE, SETTINGS]

  /** The 4-D encoder and its directions. */
  const EDIT_SECTION: seq<CC> := [ENCODER_PUSH, ENCODER_TURN, ENCODER_UP, ENCODER_RIGHT, ENCODER_DOWN, ENCODER_LEFT, ENCODER_VOLUME, ENCODER_SWING, ENCODER_TEMPO]

  /** The touch strip and its mode buttons. */
  const TOUCH_STRIP_SECTION: seq<CC> := [TOUCH_STRIP, TOUCH_STRIP_PITCH, TOUCH_STRIP_MOD, TOUCH_STRIP_PERFORM, TOUCH_STRIP_NOTES]

  /** The group buttons A to H, in order. */
  const GROUPS: seq<CC> := [GROUP_A, GROUP_B, GROUP_C, GROUP_D, GROUP_E, GROUP_F, GROUP_G, GROUP_H]

  /** The transport buttons. */
  const TRANSPORT: seq<CC> := [RESTART, ERASE, TAP, PLAY, GRID, REC, STOP]

  /** The pad-mode buttons. */
  const PAD_SECTION: seq<CC> := [FIXED_VEL, PAD_MODE, KEYBOARD_MODE, CHORDS_MODE, STEP_MODE, PATTERN, SOLO, MUTE]

  /** The knob-page buttons. */
  const KNOB_PAGE_BUTTONS: seq<CC> := [PRESET_NEXT, PRESET_PREV, OCTAVE_DOWN, OCTAVE_UP, SEMI_DOWN, SEMI_UP]

  /** The knobs. */
  const KNOBS: seq<CC> := [MIX_TRACK, MIX_VOL, MIX_PAN, MIX_SS, CHAN_SEL, CHAN_VOL, CHAN_PAN, FIX_VEL]

  /** The shift button. */
  const SHIFT_SECTION: seq<CC> := [SHIFT]

  /** The members in declaration order, section by section. */
  const CC_MEMBERS: seq<CC> :=
    CONTROL_BUTTONS + EDIT_SECTION + TOUCH_STRIP_SECTION + GROUPS + TRANSPORT + PAD_SECTION + KNOB_PAGE_BUTTONS + KNOBS + SHIFT_SECTION

  /**
   * The number-to-member table the enumeration keeps for lookups by value:
   * the member declared with number `v`, if any. It is split by number range.
   */
  function MemberWithValue(v: int): Option<CC> {
    if v < 20 then MembersBelow20(v)
    else if v < 30 then MembersFrom20To29(v)
    else if v < 40 then MembersFrom30To39(v)
    else if v < 50 then MembersFrom40To49(v)
    else if v < 60 then MembersFrom50To59(v)
    else if v < 74 then MembersFrom60To73(v)
    else if v < 80 then MembersFrom74To79(v)
    else if v < 90 then MembersFrom80To89(v)
    else MembersFrom90(v)
  }

  function MembersBelow20(v: int): Option<CC> {
    match v
    case 1 => Some(TOUCH_STRIP)
    case 7 => Some(ENCODER_PUSH)
    case 8 => Some(ENCODER_TURN)
    case _ => None
  }

  function MembersFrom20To29(v: int): Option<CC> {
    match v
    case 22 => Some(PRESET_NEXT)
    case 23 => Some(PRESET_PREV)
    case 26 => Some(OCTAVE_DOWN)
    case 27 => Some(OCTAVE_UP)
    case 28 => Some(SEMI_DOWN)
    case 29 => Some(SEMI_UP)
    case _ => None
  }

  function MembersFrom30To39(v: int): Option<CC> {
    match v
    case 30 => Some(ENCODER_UP)
    case 31 => Some(ENCODER_RIGHT)
    case 32 => Some(ENCODER_DOWN)
    case 33 => Some(ENCODER_LEFT)
    case 34 => Some(CHANNEL)
    case 35 => Some(PLUGIN)
    case 36 => Some(ARRANGER)
    case 37 => Some(MIXER)
    case 38 => Some(BROWSER)
    case _ => None
  }

  function MembersFrom40To49(v: int): Option<CC> {
    match v
    case 40 => Some(FILE_SAVE)
    case 41 => Some(SETTINGS)
    case 44 => Some(ENCODER_VOLUME)
    case 45 => Some(ENCODER_SWING)
    case 46 => Some(SHIFT)
    case 47 => Some(ENCODER_TEMPO)
    case 49 => Some(TOUCH_STRIP_PITCH)
    case _ => None
  }

  function MembersFrom50To59(v: int): Option<CC> {
    match v
    case 50 => Some(TOUCH_STRIP_MOD)
    case 51 => Some(TOUCH_STRIP_PERFORM)
    case 52 => Some(TOUCH_STRIP_NOTES)
    case 53 => Some(RESTART)
    case 54 => Some(ERASE)
    case 55 => Some(TAP)
    case 56 => Some(GRID)
    case 57 => Some(PLAY)
    case 58 => Some(REC)
    case 59 => Some(STOP)
    case _ => None
  }

  function MembersFrom60To73(v: int): Option<CC> {
    match v
    case 70 => Some(MIX_TRACK)
    case 71 => Some(MIX_VOL)
    case 72 => Some(MIX_PAN)
    case 73 => Some(MIX_SS)
    case _ => None
  }

  function MembersFrom74To79(v: int): Option<CC> {
    match v
    case 74 => Some(CHAN_SEL)
    case 75 => Some(CHAN_VOL)
    case 76 => Some(CHAN_PAN)
    case 77 => Some(FIX_VEL)
    case _ => None
  }

  function MembersFrom80To89(v: int): Option<CC> {
    match v
    case 80 => Some(PAD_MODE)
    case 81 => Some(FIXED_VEL)
    case 82 => Some(KEYBOARD_MODE)
    case 83 => Some(STEP_MODE)
    case 84 => Some(CHORDS_MODE)
    case 86 => Some(PATTERN)
    case _ => None
  }

  function MembersFrom90(v: int): Option<CC> {
    match v
    case 91 => Some(SOLO)
    case 92 => Some(MUTE)
    case 100 => Some(GROUP_A)
    case 101 => Some(GROUP_B)
    case 102 => Some(GROUP_C)
    case 103 => Some(GROUP_D)
    case 104 => Some(GROUP_E)
    case 105 => Some(GROUP_F)
    case 106 => Some(GROUP_G)
    case 107 => Some(GROUP_H)
    case _ => None
  }

  /** The number table only lists a member under its own number. */
  lemma MemberWithValueSound(v: int)
    ensures MemberWithValue(v).Some? ==> Number(MemberWithValue(v).value) == v
  {
    if v < 20 {
      SoundBelow20(v);
    } else if v < 30 {
      SoundFrom20To29(v);
    } else if v < 40 {
      SoundFrom30To39(v);
    } else if v < 50 {
      SoundFrom40To49(v);
    } else if v < 60 {
      SoundFrom50To59(v);
    } else if v < 74 {
      SoundFrom60To73(v);
    } else if v < 80 {
      SoundFrom74To79(v);
    } else if v < 90 {
      SoundFrom80To89(v);
    } else {
      SoundFrom90(v);
    }
  }

  /** Every member is found in the number table under its own number. */
  lemma MemberWithValueInverts(c: CC)
    ensures MemberWithValue(Number(c)) == Some(c)
  {
    if c.TOUCH_STRIP? || c.ENCODER_PUSH? || c.ENCODER_TURN? {
      InvertsBelow20(c);
    } else if c.PRESET_NEXT? || c.PRESET_PREV? || c.OCTAVE_DOWN? || c.OCTAVE_UP? || c.SEMI_DOWN? || c.SEMI_UP? {
      InvertsFrom20To29(c);
    } else if c.ENCODER_UP? || c.ENCODER_RIGHT? || c.ENCODER_DOWN? || c.ENCODER_LEFT? || c.CHANNEL? || c.PLUGIN? || c.ARRANGER? || c.MIXER? || c.BROWSER? {
      InvertsFrom30To39(c);
    } else if c.FILE_SAVE? || c.SETTINGS? || c.ENCODER_VOLUME? || c.ENCODER_SWING? || c.SHIFT? || c.ENCODER_TEMPO? || c.TOUCH_STRIP_PITCH? {
      InvertsFrom40To49(c);
    } else if c.TOUCH_STRIP_MOD? || c.TOUCH_STRIP_PERFORM? || c.TOUCH_STRIP_NOTES? || c.RESTART? || c.ERASE? || c.TAP? || c.GRID? || c.PLAY? || c.REC? || c.STOP? {
      InvertsFrom50To59(c);
    } else if c.MIX_TRACK? || c.MIX_VOL? || c.MIX_PAN? || c.MIX_SS? {
      InvertsFrom60To73(c);
    } else if c.CHAN_SEL? || c.CHAN_VOL? || c.CHAN_PAN? || c.FIX_VEL? {
      InvertsFrom74To79(c);
    } else if c.PAD_MODE? || c.FIXED_VEL? || c.KEYBOARD_MODE? || c.STEP_MODE? || c.CHORDS_MODE? || c.PATTERN? {
      InvertsFrom80To89(c);
    } else {
      InvertsFrom90(c);
    }
  }

  lemma SoundBelow20(v: int)
    requires v < 20
    ensures MembersBelow20(v).Some? ==> Number(MembersBelow20(v).value) == v
  {
    match v
    case 1 =>
    case 7 =>
    case 8 =>
    case _ =>
  }

  lemma InvertsBelow20(c: CC)
    requires c.TOUCH_STRIP? || c.ENCODER_PUSH? || c.ENCODER_TURN?
    ensures MemberWithValue(Number(c)) == Some(c)
  {
    match c
    case TOUCH_STRIP =>
    case ENCODER_PUSH =>
    case ENCODER_TURN =>
  }

  lemma SoundFrom20To29(v: int)
    requires 20 <= v && v < 30
    ensures MembersFrom20To29(v).Some? ==> Number(MembersFrom20To29(v).value) == v
  {
    match v
    case 22 =>
    case 23 =>
    case 26 =>
    case 27 =>
    case 28 =>
    case 29 =>
    case _ =>
  }

  lemma InvertsFrom20To29(c: CC)
    requires c.PRESET_NEXT? || c.PRESET_PREV? || c.OCTAVE_DOWN? || c.OCTAVE_UP? || c.SEMI_DOWN? || c.SEMI_UP?
    ensures MemberWithValue(Number(c)) == Some(c)
  {
    match c
    case PRESET_NEXT =>
    case PRESET_PREV =>
    case OCTAVE_DOWN =>
    case OCTAVE_UP =>
    case SEMI_DOWN =>
    case SEMI_UP =>
  }

  lemma SoundFrom30To39(v: int)
    requires 30 <= v && v < 40
    ensures MembersFrom30To39(v).Some? ==> Number(MembersFrom30To39(v).value) == v
  {
    match v
    case 30 =>
    case 31 =>
    case 32 =>
    case 33 =>
    case 34 =>
    case 35 =>
    case 36 =>
    case 37 =>
    case 38 =>
    case _ =>
  }

  lemma InvertsFrom30To39(c: CC)
    requires c.ENCODER_UP? || c.ENCODER_RIGHT? || c.ENCODER_DOWN? || c.ENCODER_LEFT? || c.CHANNEL? || c.PLUGIN? || c.ARRANGER? || c.MIXER? || c.BROWSER?
    ensures MemberWithValue(Number(c)) == Some(c)
  {
    match c
    case ENCODER_UP =>
    case ENCODER_RIGHT =>
    case ENCODER_DOWN =>
    case ENCODER_LEFT =>
    case CHANNEL =>
    case PLUGIN =>
    case ARRANGER =>
    case MIXER =>
    case BROWSER =>
  }

  lemma SoundFrom40To49(v: int)
    requires 40 <= v && v < 50
    ensures MembersFrom40To49(v).Some? ==> Number(MembersFrom40To49(v).value) == v
  {
    match v
    case 40 =>
    case 41 =>
    case 44 =>
    case 45 =>
    case 46 =>
    case 47 =>
    case 49 =>
    case _ =>
  }

  lemma InvertsFrom40To49(c: CC)
    requires c.FILE_SAVE? || c.SETTINGS? || c.ENCODER_VOLUME? || c.ENCODER_SWING? || c.SHIFT? || c.ENCODER_TEMPO? || c.TOUCH_STRIP_PITCH?
    ensures MemberWithValue(Number(c)) == Some(c)
  {
    match c
    case FILE_SAVE =>
    case SETTINGS =>
    case ENCODER_VOLUME =>
    case ENCODER_SWING =>
    case SHIFT =>
    case ENCODER_TEMPO =>
    case TOUCH_STRIP_PITCH =>
  }

  lemma SoundFrom50To59(v: int)
    requires 50 <= v && v < 60
    ensures MembersFrom50To59(v).Some? ==> Number(MembersFrom50To59(v).value) == v
  {
    match v
    case 50 =>
    case 51 =>
    case 52 =>
    case 53 =>
    case 54 =>
    case 55 =>
    case 56 =>
    case 57 =>
    case 58 =>
    case 59 =>
    case _ =>
  }

  lemma InvertsFrom50To59(c: CC)
    requires c.TOUCH_STRIP_MOD? || c.TOUCH_STRIP_PERFORM? || c.TOUCH_STRIP_NOTES? || c.RESTART? || c.ERASE? || c.TAP? || c.GRID? || c.PLAY? || c.REC? || c.STOP?
    ensures MemberWithValue(Number(c)) == Some(c)
  {
    match c
    case TOUCH_STRIP_MOD =>
    case TOUCH_STRIP_PERFORM =>
    case TOUCH_STRIP_NOTES =>
    case RESTART =>
    case ERASE =>
    case TAP =>
    case GRID =>
    case PLAY =>
    case REC =>
    case STOP =>
  }

  lemma SoundFrom60To73(v: int)
    requires 60 <= v && v < 74
    ensures MembersFrom60To73(v).Some? ==> Number(MembersFrom60To73(v).value) == v
  {
    match v
    case 70 =>
    case 71 =>
    case 72 =>
    case 73 =>
    case _ =>
  }

  lemma InvertsFrom60To73(c: CC)
    requires c.MIX_TRACK? || c.MIX_VOL? || c.MIX_PAN? || c.MIX_SS?
    ensures MemberWithValue(Number(c)) == Some(c)
  {
    match c
    case MIX_TRACK =>
    case MIX_VOL =>
    case MIX_PAN =>
    case MIX_SS =>
  }

  lemma SoundFrom74To79(v: int)
    requires 74 <= v && v < 80
    ensures MembersFrom74To79(v).Some? ==> Number(MembersFrom74To79(v).value) == v
  {
    match v
    case 74 =>
    case 75 =>
    case 76 =>
    case 77 =>
    case _ =>
  }

  lemma InvertsFrom74To79(c: CC)
    requires c.CHAN_SEL? || c.CHAN_VOL? || c.CHAN_PAN? || c.FIX_VEL?
    ensures MemberWithValue(Number(c)) == Some(c)
  {
    match c
    case CHAN_SEL =>
    case CHAN_VOL =>
    case CHAN_PAN =>
    case FIX_VEL =>
  }

  lemma SoundFrom80To89(v: int)
    requires 80 <= v && v < 90
    ensures MembersFrom80To89(v).Some? ==> Number(MembersFrom80To89(v).value) == v
  {
    match v
    case 80 =>
    case 81 =>
    case 82 =>
    case 83 =>
    case 84 =>
    case 86 =>
    case _ =>
  }

  lemma InvertsFrom80To89(c: CC)
    requires c.PAD_MODE? || c.FIXED_VEL? || c.KEYBOARD_MODE? || c.STEP_MODE? || c.CHORDS_MODE? || c.PATTERN?
    ensures MemberWithValue(Number(c)) == Some(c)
  {
    match c
    case PAD_MODE =>
    case FIXED_VEL =>
    case KEYBOARD_MODE =>
    case STEP_MODE =>
    case CHORDS_MODE =>
    case PATTERN =>
  }

  lemma SoundFrom90(v: int)
    requires 90 <= v
    ensures MembersFrom90(v).Some? ==> Number(MembersFrom90(v).value) == v
  {
    match v
    case 91 =>
    case 92 =>
    case 100 =>
    case 101 =>
    case 102 =>
    case 103 =>
    case 104 =>
    case 105 =>
    case 106 =>
    case 107 =>
    case _ =>
  }

  lemma InvertsFrom90(c: CC)
    requires c.SOLO? || c.MUTE? || c.GROUP_A? || c.GROUP_B? || c.GROUP_C? || c.GROUP_D? || c.GROUP_E? || c.GROUP_F? || c.GROUP_G? || c.GROUP_H?
    ensures MemberWithValue(Number(c)) == Some(c)
  {
    match c
    case SOLO =>
    case MUTE =>
    case GROUP_A =>
    case GROUP_B =>
    case GROUP_C =>
    case GROUP_D =>
    case GROUP_E =>
    case GROUP_F =>
    case GROUP_G =>
    case GROUP_H =>
  }

  /** Every CC number is a MIDI controller number, so it fits a control-change message; none is 0. */
  lemma NumbersAreMidi(c: CC)
    ensures 1 <= Number(c) <= 127
  {
  }

  /** The member list holds all 59 members. */
  lemma MembersComplete(c: CC)
    ensures |CC_MEMBERS| == 59
    ensures c in CC_MEMBERS
  {
  }

  /** The 59 numbers are pairwise different: the enumeration has no aliases. */
  lemma NoAliases()
    ensures PyEnum.Injective(CC_MEMBERS, Number)
  {
    forall i, j | 0 <= i < |CC_MEMBERS| && 0 <= j < |CC_MEMBERS| && Number(CC_MEMBERS[i]) == Number(CC_MEMBERS[j])
      ensures CC_MEMBERS[i] == CC_MEMBERS[j]
    {
      MemberWithValueInverts(CC_MEMBERS[i]);
      MemberWithValueInverts(CC_MEMBERS[j]);
    }
  }

  /** `CC(v)`: the member numbered `v`, or ValueError for a number no member has. */
  lemma Decode(v: int)
    ensures MemberWithValue(v).Some? ==> PyEnum.Lookup(CC_MEMBERS, Number, v) == Success(MemberWithValue(v).value)
    ensures MemberWithValue(v).None? ==> PyEnum.Lookup(CC_MEMBERS, Number, v) == Failure(PyEnum.ValueError(v))
  {
    match MemberWithValue(v)
    case Some(c) =>
      MemberWithValueSound(v);
      MembersComplete(c);
      var i :| 0 <= i < |CC_MEMBERS| && CC_MEMBERS[i] == c;
      NoAliases();
      PyEnum.LookupOwnValue(CC_MEMBERS, Number, i);
    case None =>
      forall i | 0 <= i < |CC_MEMBERS| ensures Number(CC_MEMBERS[i]) != v {
        MemberWithValueInverts(CC_MEMBERS[i]);
      }
  }

  /** Decoding a member's number gives back the member. */
  lemma DecodeNumber(c: CC)
    ensures PyEnum.Lookup(CC_MEMBERS, Number, Number(c)) == Success(c)
  {
    MemberWithValueInverts(c);
    Decode(Number(c));
  }

  /** No control sends CC 0 or a negative number: decoding one raises ValueError. */
  lemma NonPositiveIsNoMember(v: int)
    requires v <= 0
    ensures PyEnum.Lookup(CC_MEMBERS, Number, v) == Failure(PyEnum.ValueError(v))
  {
    forall i | 0 <= i < |CC_MEMBERS| ensures Number(CC_MEMBERS[i]) != v {
      NumbersAreMidi(CC_MEMBERS[i]);
    }
  }

  /** The group buttons send the consecutive numbers 100 to 107, which is exactly the group range. */
  lemma GroupsAreGroupsRange()
    ensures forall k :: 0 <= k < |GROUPS| ==> Number(GROUPS[k]) == 100 + k
    ensures |GROUPS| == Consts.GROUPS_RANGE.Len()
    ensures forall k :: 0 <= k < |GROUPS| ==> Number(GROUPS[k]) == Consts.GROUPS_RANGE.Elements()[k]
    ensures forall v :: Consts.GROUPS_RANGE.Contains(v) <==> exists k :: 0 <= k < |GROUPS| && Number(GROUPS[k]) == v
  {
    Consts.GroupsRangeElements();
    forall v | Consts.GROUPS_RANGE.Contains(v) ensures exists k :: 0 <= k < |GROUPS| && Number(GROUPS[k]) == v {
      assert Number(GROUPS[v - 100]) == v;
    }
  }
}
