/**
 * The note-number table of the script: one constant per note name from C1 = 0
 * to G11 = 127, the root note, the eight chord sets of sixteen chords played in
 * chord mode and the eight scales of sixteen notes played in keyboard mode.
 * Every number is a MIDI note number.
 */
module Notes {
  import Consts

  const C1: int := 0
  const CS1: int := 1
  const D1: int := 2
  const DS1: int := 3
  const E1: int := 4
  const F1: int := 5
  const FS1: int := 6
  const G1: int := 7
  const GS1: int := 8
  const A1: int := 9
  const AS1: int := 10
  const B1: int := 11
  const C2: int := 12
  const CS2: int := 13
  const D2: int := 14
  const DS2: int := 15
  const E2: int := 16
  const F2: int := 17
  const FS2: int := 18
  const G2: int := 19
  const GS2: int := 20
  const A2: int := 21
  const AS2: int := 22
  const B2: int := 23
  const C3: int := 24
  const CS3: int := 25
  const D3: int := 26
  const DS3: int := 27
  const E3: int := 28
  const F3: int := 29
  const FS3: int := 30
  const G3: int := 31
  const GS3: int := 32
  const A3: int := 33
  const AS3: int := 34
  const B3: int := 35
  const C4: int := 36
  const CS4: int := 37
  const D4: int := 38
  const DS4: int := 39
  const E4: int := 40
  const F4: int := 41
  const FS4: int := 42
  const G4: int := 43
  const GS4: int := 44
  const A4: int := 45
  const AS4: int := 46
  const B4: int := 47
  const C5: int := 48
  const CS5: int := 49
  const D5: int := 50
  const DS5: int := 51
  const E5: int := 52
  const F5: int := 53
  const FS5: int := 54
  const G5: int := 55
  const GS5: int := 56
  const A5: int := 57
  const AS5: int := 58
  const B5: int := 59
  const C6: int := 60
  const CS6: int := 61
  const D6: int := 62
  const DS6: int := 63
  const E6: int := 64
  const F6: int := 65
  const FS6: int := 66
  const G6: int := 67
  const GS6: int := 68
  const A6: int := 69
  const AS6: int := 70
  const B6: int := 71
  const C7: int := 72
  const CS7: int := 73
  const D7: int := 74
  const DS7: int := 75
  const E7: int := 76
  const F7: int := 77
  const FS7: int := 78
  const G7: int := 79
  const GS7: int := 80
  const A7: int := 81
  const AS7: int := 82
  const B7: int := 83
  const C8: int := 84
  const CS8: int := 85
  const D8: int := 86
  const DS8: int := 87
  const E8: int := 88
  const F8: int := 89
  const FS8: int := 90
  const G8: int := 91
  const GS8: int := 92
  const A8: int := 93
  const AS8: int := 94
  const B8: int := 95
  const C9: int := 96
  const CS9: int := 97
  const D9: int := 98
  const DS9: int := 99
  const E9: int := 100
  const F9: int := 101
  const FS9: int := 102
  const G9: int := 103
  const GS9: int := 104
  const A9: int := 105
  const AS9: int := 106
  const B9: int := 107
  const C10: int := 108
  const CS10: int := 109
  const D10: int := 110
  const DS10: int := 111
  const E10: int := 112
  const F10: int := 113
  const FS10: int := 114
  const G10: int := 115
  const GS10: int := 116
  const A10: int := 117
  const AS10: int := 118
  const B10: int := 119
  const C11: int := 120
  const CS11: int := 121
  const D11: int := 122
  const DS11: int := 123
  const E11: int := 124
  const F11: int := 125
  const FS11: int := 126
  const G11: int := 127

  /** The note the keyboard and the chromatic scale start from. */
  const ROOT_NOTE: int := C5

  const MIN_1: seq<seq<int>> := [
    [C4, C5, DS5, G5],
    [DS4, C5, DS5, G5],
    [F4, C4, F5, GS5],
    [G3, B4, D5, G5],
    [GS3, C5, DS5, G5],
    [DS4, AS4, DS5, G5],
    [G3, AS4, D5, G5],
    [AS3, AS4, D5, F5],
    [F3, A4, C5, F5],
    [GS3, C5, F5, GS5],
    [G3, C5, DS5, G5],
    [G3, B4, D5, G5],
    [F3, D4, F5, GS5],
    [D4, D5, F5, AS5],
    [D4, C5, D5, G5],
    [C4, C5, F5, G5]
  ]

  const MIN_2: seq<seq<int>> := [
    [C4, G4, C5, DS5],
    [B3, G4, B4, DS5],
    [AS3, G4, C5, DS5],
    [G3, B4, D5, G5],
    [GS3, C5, DS5, G5],
    [DS4, AS4, DS5, G5],
    [G3, AS4, D5, G5],
    [AS3, AS4, D5, F5],
    [F3, A4, C5, F5],
    [GS3, C5, F5, GS5],
    [G3, C5, DS5, G5],
    [G3, B4, D5, G5],
    [C4, C5, DS5, G5],
    [F3, D4, F5, GS5],
    [AS3, D4, F5, AS5],
    [AS3, D4, D5, G5]
  ]

  const MIN_3: seq<seq<int>> := [
    [C4, G4, C5, D5, G5],
    [C4, G4, AS4, D5, F5],
    [D4, A4, C5, D5, F5],
    [D4, A5, C5, E5, G5],
    [E4, G4, C5, D5, G5],
    [D4, G4, AS4, D5, F5],
    [A3, A4, C5, D5, F5],
    [A3, A4, C5, E5, G5],
    [DS4, DS5, FS5, AS5],
    [DS4, CS5, F5, GS5],
    [CS4, CS5, F5, GS5],
    [DS4, F5, GS5, CS6],
    [CS4, F5, GS5, CS6],
    [C4, DS5, GS5, C6],
    [C4, DS5, G5, AS5],
    [AS3, D4, G5, AS5]
  ]

  const MIN_4: seq<seq<int>> := [
    [CS3, D4, G4, AS4],
    [F3, C4, F4, A4],
    [G3, D4, G4, AS4],
    [AS3, F4, AS4, D5],
    [D3, A3, D4, F4],
    [C3, G3, C4, DS4],
    [F3, C4, F4, A4],
    [G3, D4, G4, AS4],
    [C4, C5, DS5, G5],
    [C4, C5, DS5, G5],
    [C4, C5, DS5, G5],
    [C4, C5, DS5, G5],
    [C4, C5, DS5, G5],
    [C4, C5, DS5, G5],
    [C4, C5, DS5, G5],
    [C4, C5, DS5, G5]
  ]

  const MAJ_1: seq<seq<int>> := [
    [C4, C5, E5, G5],
    [C4, C5, E5, G5],
    [C4, C5, E5, G5],
    [C4, C5, E5, G5],
    [C4, C5, E5, G5],
    [C4, C5, E5, G5],
    [C4, C5, E5, G5],
    [C4, C5, E5, G5],
    [C4, C5, E5, G5],
    [C4, C5, E5, G5],
    [C4, C5, E5, G5],
    [C4, C5, E5, G5],
    [C4, C5, E5, G5],
    [C4, C5, E5, G5],
    [C4, C5, E5, G5],
    [C4, C5, E5, G5]
  ]

  const MAJ_2: seq<seq<int>> := [
    [C4, C5, E5, G5],
    [C4, C5, E5, G5],
    [C4, C5, E5, G5],
    [C4, C5, E5, G5],
    [C4, C5, E5, G5],
    [C4, C5, E5, G5],
    [C4, C5, E5, G5],
    [C4, C5, E5, G5],
    [C4, C5, E5, G5],
    [C4, C5, E5, G5],
    [C4, C5, E5, G5],
    [C4, C5, E5, G5],
    [C4, C5, E5, G5],
    [C4, C5, E5, G5],
    [C4, C5, E5, G5],
    [C4, C5, E5, G5]
  ]

  const MAJ_3: seq<seq<int>> := [
    [C4, C5, E5, G5],
    [C4, C5, E5, G5],
    [C4, C5, E5, G5],
    [C4, C5, E5, G5],
    [C4, C5, E5, G5],
    [C4, C5, E5, G5],
    [C4, C5, E5, G5],
    [C4, C5, E5, G5],
    [C4, C5, E5, G5],
    [C4, C5, E5, G5],
    [C4, C5, E5, G5],
    [C4, C5, E5, G5],
    [C4, C5, E5, G5],
    [C4, C5, E5, G5],
    [C4, C5, E5, G5],
    [C4, C5, E5, G5]
  ]

  const MAJ_4: seq<seq<int>> := [
    [C4, C5, E5, G5],
    [C4, C5, E5, G5],
    [C4, C5, E5, G5],
    [C4, C5, E5, G5],
    [C4, C5, E5, G5],
    [C4, C5, E5, G5],
    [C4, C5, E5, G5],
    [C4, C5, E5, G5],
    [C4, C5, E5, G5],
    [C4, C5, E5, G5],
    [C4, C5, E5, G5],
    [C4, C5, E5, G5],
    [C4, C5, E5, G5],
    [C4, C5, E5, G5],
    [C4, C5, E5, G5],
    [C4, C5, E5, G5]
  ]

  const CHORD_SETS: seq<seq<seq<int>>> := [MIN_1, MIN_2, MIN_3, MIN_4, MAJ_1, MAJ_2, MAJ_3, MAJ_4]

  const SCALE_1: seq<int> := [C4, D4, GS4, AS4, CS4, E4, A4, F4, B4, FS4, DS4, G4, C5, CS5, D5, G5]
  const SCALE_2: seq<int> := [C5, D5, DS5, F5, G5, GS5, AS5, C6, D6, DS6, F6, G6, GS6, AS6, C7, D7]
  const SCALE_3: seq<int> := [C5, D5, E5, F5, G5, A5, B5, C6, D6, E6, F6, G6, A6, B6, C7, D7]
  const SCALE_4: seq<int> := [CS4, C4, FS4, AS7, E4, D4, AS4, GS4, C5, B4, A4, G4, CS5, G5, DS5, F5]
  const SCALE_5: seq<int> := [C5, CS5, D5, DS5, E5, F5, FS5, G5, GS5, A5, AS5, B5, C6, CS6, D6, DS6]
  const SCALE_6: seq<int> := [C5, CS5, E5, F5, G5, GS5, B5, C6, CS6, E6, F6, G6, GS6, B6, C7, CS7]
  const SCALE_7: seq<int> := [C5, CS5, D5, DS5, E5, F5, FS5, G5, GS5, A5, AS5, B5, C6, CS6, D6, DS6]
  const SCALE_8: seq<int> := [C5, CS5, D5, DS5, E5, F5, FS5, G5, GS5, A5, AS5, B5, C6, CS6, D6, DS6]

  const SCALES: seq<seq<int>> := [SCALE_1, SCALE_2, SCALE_3, SCALE_4, SCALE_5, SCALE_6, SCALE_7, SCALE_8]

  /** A MIDI note number. */
  predicate IsMidiNote(n: int) {
    0 <= n <= 127
  }

  /** A chord set holds sixteen chords, one per pad, each of four or five notes. */
  predicate ChordSetShape(chords: seq<seq<int>>) {
    |chords| == 16 && forall c :: 0 <= c < |chords| ==> 4 <= |chords[c]| <= 5
  }

  /** Every note of `notes` lies in [lo, hi]. */
  predicate NotesWithin(notes: seq<int>, lo: int, hi: int) {
    forall n :: 0 <= n < |notes| ==> lo <= notes[n] <= hi
  }

  predicate ChordsWithin(chords: seq<seq<int>>, lo: int, hi: int) {
    forall c :: 0 <= c < |chords| ==> NotesWithin(chords[c], lo, hi)
  }

  /** The lowest and the highest note any chord or scale plays. */
  const LOWEST: int := C3
  const HIGHEST: int := AS7

  /** The names run from C1 = 0 to G11 = 127, each one semitone above the previous one. */
  lemma NotesConsecutive()
    ensures C1 == 0 && CS1 == C1 + 1 && D1 == CS1 + 1 && DS1 == D1 + 1
    ensures E1 == DS1 + 1 && F1 == E1 + 1 && FS1 == F1 + 1 && G1 == FS1 + 1
    ensures GS1 == G1 + 1 && A1 == GS1 + 1 && AS1 == A1 + 1 && B1 == AS1 + 1
    ensures C2 == B1 + 1 && CS2 == C2 + 1 && D2 == CS2 + 1 && DS2 == D2 + 1
    ensures E2 == DS2 + 1 && F2 == E2 + 1 && FS2 == F2 + 1 && G2 == FS2 + 1
    ensures GS2 == G2 + 1 && A2 == GS2 + 1 && AS2 == A2 + 1 && B2 == AS2 + 1
    ensures C3 == B2 + 1 && CS3 == C3 + 1 && D3 == CS3 + 1 && DS3 == D3 + 1
    ensures E3 == DS3 + 1 && F3 == E3 + 1 && FS3 == F3 + 1 && G3 == FS3 + 1
    ensures GS3 == G3 + 1 && A3 == GS3 + 1 && AS3 == A3 + 1 && B3 == AS3 + 1
    ensures C4 == B3 + 1 && CS4 == C4 + 1 && D4 == CS4 + 1 && DS4 == D4 + 1
    ensures E4 == DS4 + 1 && F4 == E4 + 1 && FS4 == F4 + 1 && G4 == FS4 + 1
    ensures GS4 == G4 + 1 && A4 == GS4 + 1 && AS4 == A4 + 1 && B4 == AS4 + 1
    ensures C5 == B4 + 1 && CS5 == C5 + 1 && D5 == CS5 + 1 && DS5 == D5 + 1
    ensures E5 == DS5 + 1 && F5 == E5 + 1 && FS5 == F5 + 1 && G5 == FS5 + 1
    ensures GS5 == G5 + 1 && A5 == GS5 + 1 && AS5 == A5 + 1 && B5 == AS5 + 1
    ensures C6 == B5 + 1 && CS6 == C6 + 1 && D6 == CS6 + 1 && DS6 == D6 + 1
    ensures E6 == DS6 + 1 && F6 == E6 + 1 && FS6 == F6 + 1 && G6 == FS6 + 1
    ensures GS6 == G6 + 1 && A6 == GS6 + 1 && AS6 == A6 + 1 && B6 == AS6 + 1
    ensures C7 == B6 + 1 && CS7 == C7 + 1 && D7 == CS7 + 1 && DS7 == D7 + 1
    ensures E7 == DS7 + 1 && F7 == E7 + 1 && FS7 == F7 + 1 && G7 == FS7 + 1
    ensures GS7 == G7 + 1 && A7 == GS7 + 1 && AS7 == A7 + 1 && B7 == AS7 + 1
    ensures C8 == B7 + 1 && CS8 == C8 + 1 && D8 == CS8 + 1 && DS8 == D8 + 1
    ensures E8 == DS8 + 1 && F8 == E8 + 1 && FS8 == F8 + 1 && G8 == FS8 + 1
    ensures GS8 == G8 + 1 && A8 == GS8 + 1 && AS8 == A8 + 1 && B8 == AS8 + 1
    ensures C9 == B8 + 1 && CS9 == C9 + 1 && D9 == CS9 + 1 && DS9 == D9 + 1
    ensures E9 == DS9 + 1 && F9 == E9 + 1 && FS9 == F9 + 1 && G9 == FS9 + 1
    ensures GS9 == G9 + 1 && A9 == GS9 + 1 && AS9 == A9 + 1 && B9 == AS9 + 1
    ensures C10 == B9 + 1 && CS10 == C10 + 1 && D10 == CS10 + 1 && DS10 == D10 + 1
    ensures E10 == DS10 + 1 && F10 == E10 + 1 && FS10 == F10 + 1 && G10 == FS10 + 1
    ensures GS10 == G10 + 1 && A10 == GS10 + 1 && AS10 == A10 + 1 && B10 == AS10 + 1
    ensures C11 == B10 + 1 && CS11 == C11 + 1 && D11 == CS11 + 1 && DS11 == D11 + 1
    ensures E11 == DS11 + 1 && F11 == E11 + 1 && FS11 == F11 + 1 && G11 == FS11 + 1
    ensures G11 == 127
  {
  }

  lemma RootNoteIsC5()
    ensures ROOT_NOTE == C5 == 48
  {
  }

  lemma Min1Facts() ensures ChordSetShape(MIN_1) && ChordsWithin(MIN_1, LOWEST, HIGHEST) {}
  lemma Min2Facts() ensures ChordSetShape(MIN_2) && ChordsWithin(MIN_2, LOWEST, HIGHEST) {}
  lemma Min3Facts() ensures ChordSetShape(MIN_3) && ChordsWithin(MIN_3, LOWEST, HIGHEST) {}
  lemma Min4Facts() ensures ChordSetShape(MIN_4) && ChordsWithin(MIN_4, LOWEST, HIGHEST) {}
  lemma Maj1Facts() ensures ChordSetShape(MAJ_1) && ChordsWithin(MAJ_1, LOWEST, HIGHEST) {}
  lemma Maj2Facts() ensures ChordSetShape(MAJ_2) && ChordsWithin(MAJ_2, LOWEST, HIGHEST) {}
  lemma Maj3Facts() ensures ChordSetShape(MAJ_3) && ChordsWithin(MAJ_3, LOWEST, HIGHEST) {}
  lemma Maj4Facts() ensures ChordSetShape(MAJ_4) && ChordsWithin(MAJ_4, LOWEST, HIGHEST) {}

  /** Exactly eight chord sets of sixteen chords, every chord of four or five notes. */
  lemma ChordSetsShape()
    ensures |CHORD_SETS| == 8
    ensures forall k :: 0 <= k < |CHORD_SETS| ==> ChordSetShape(CHORD_SETS[k])
    ensures forall k :: 0 <= k < |CHORD_SETS| ==> ChordsWithin(CHORD_SETS[k], LOWEST, HIGHEST)
  {
    Min1Facts(); Min2Facts(); Min3Facts(); Min4Facts();
    Maj1Facts(); Maj2Facts(); Maj3Facts(); Maj4Facts();
  }

  /** Exactly eight scales of sixteen notes, one per pad. */
  lemma ScalesShape()
    ensures |SCALES| == 8
    ensures forall k :: 0 <= k < |SCALES| ==> |SCALES[k]| == 16
    ensures forall k :: 0 <= k < |SCALES| ==> NotesWithin(SCALES[k], LOWEST, HIGHEST)
  {
  }

  /** The chromatic scale is the sixteen semitones starting at the root note. */
  lemma ChromaticScale()
    ensures |SCALE_5| == 16
    ensures forall i :: 0 <= i < |SCALE_5| ==> SCALE_5[i] == ROOT_NOTE + i
  {
  }

  /** A chord note moved by any semitone offset the controller allows is still a MIDI note. */
  lemma TransposedChordNote(k: nat, c: nat, n: nat, offset: int)
    requires k < |CHORD_SETS| && c < |CHORD_SETS[k]| && n < |CHORD_SETS[k][c]|
    requires Consts.MIN_SEMI_OFFSET <= offset <= Consts.MAX_SEMI_OFFSET
    ensures IsMidiNote(CHORD_SETS[k][c][n] + offset)
  {
    ChordSetsShape();
    assert NotesWithin(CHORD_SETS[k][c], LOWEST, HIGHEST);
  }

  /** A scale note moved by any semitone offset the controller allows is still a MIDI note. */
  lemma TransposedScaleNote(k: nat, n: nat, offset: int)
    requires k < |SCALES| && n < |SCALES[k]|
    requires Consts.MIN_SEMI_OFFSET <= offset <= Consts.MAX_SEMI_OFFSET
    ensures IsMidiNote(SCALES[k][n] + offset)
  {
    ScalesShape();
  }
}
