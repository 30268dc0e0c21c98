/**
 * The vocal characters a user can pick and the shape of the preset record
 * each one selects. The enum's ordinals are the values the host's choice
 * parameter stores, so they are modelled explicitly.
 */
module Characters {

  datatype Option<T> = None | Some(value: T)

  datatype CharacterType = Normal | Robot | Alien | Child | Giant | Elder | Choir

  /** `NUM_CHARACTERS`, the enum's sentinel: one past the last character. */
  const NumCharacters: nat := 7

  /** Target values a character nudges the parameters toward. */
  datatype CharacterPreset = CharacterPreset(
    pitchShift: real,
    formantShift: real,
    voiceCount: int,
    detune: real,
    reverb: real)

  /** The ordinal the C++ enum assigns to each character: `NORMAL = 0` and one more for each after it. */
  function Ordinal(c: CharacterType): (k: nat)
    ensures k < NumCharacters
    ensures k == 0 <==> c == Normal
  {
    match c
    case Normal => 0
    case Robot => 1
    case Alien => 2
    case Child => 3
    case Giant => 4
    case Elder => 5
    case Choir => 6
  }

  /** The character an integer index names, or None when it is outside [0, NUM_CHARACTERS). */
  function FromOrdinal(k: int): (r: Option<CharacterType>)
    ensures r.Some? <==> 0 <= k < NumCharacters
  {
    if k == 0 then Some(Normal)
    else if k == 1 then Some(Robot)
    else if k == 2 then Some(Alien)
    else if k == 3 then Some(Child)
    else if k == 4 then Some(Giant)
    else if k == 5 then Some(Elder)
    else if k == 6 then Some(Choir)
    else None
  }

  lemma OrdinalRoundTrip(c: CharacterType)
    ensures FromOrdinal(Ordinal(c)) == Some(c)
  {
    match c
    case Normal =>
    case Robot =>
    case Alien =>
    case Child =>
    case Giant =>
    case Elder =>
    case Choir =>
  }

  lemma FromOrdinalRoundTrip(k: int)
    requires 0 <= k < NumCharacters
    ensures FromOrdinal(k).Some? && Ordinal(FromOrdinal(k).value) == k
  {
  }

  /** Distinct characters have distinct ordinals, so a table of NUM_CHARACTERS presets has one slot per character. */
  lemma OrdinalInjective(c: CharacterType, d: CharacterType)
    ensures Ordinal(c) == Ordinal(d) ==> c == d
  {
    OrdinalRoundTrip(c);
    OrdinalRoundTrip(d);
  }

  /** A preset table holds exactly one entry per character. */
  predicate IsPresetTable(table: seq<CharacterPreset>)
  {
    |table| == NumCharacters
  }

  /** `characterPresets[c]`: the entry of a preset table for a character. */
  function PresetFor(table: seq<CharacterPreset>, c: CharacterType): (p: CharacterPreset)
    requires IsPresetTable(table)
    ensures p in table
  {
    table[Ordinal(c)]
  }
}
