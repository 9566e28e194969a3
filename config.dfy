/** Fixed configuration of the dialing computer: the symbol alphabet, the
    address bounds, the dialing timings and the preset addresses. */
module Config {

  /** Number of glyphs on the ring; a symbol is an index in [0, SymbolCount). */
  const SymbolCount: int := 39
  const MinAddressLength: int := 7
  const MaxAddressLength: int := 9

  /** Delay from the start of dialing to the first chevron lock, in milliseconds. */
  const FirstLockDelayMs: int := 450
  /** Delay between two chevron locks, in milliseconds. */
  const LockIntervalMs: int := 560
  /** Duration of the opening ("kawoosh") phase, in milliseconds. */
  const OpenDurationMs: int := 1100
  /** Ring rotation speed while dialing, in degrees per second. */
  const RingDegreesPerSecond: real := 150.0

  /** The preset names in the order the preset buttons are laid out
      (the insertion order of the preset dictionary). */
  const PresetNames: seq<string> := ["Abydos", "Chulak", "Dakara", "Earth"]

  const KnownAddresses: map<string, seq<int>> := map[
    "Abydos" := [26, 6, 14, 31, 11, 29, 1],
    "Chulak" := [8, 1, 22, 14, 36, 19, 4],
    "Dakara" := [17, 28, 4, 35, 9, 21, 2],
    "Earth" := [1, 11, 2, 19, 21, 24, 35]
  ]

  predicate IsSymbol(x: int) {
    0 <= x < SymbolCount
  }

  predicate AllSymbols(s: seq<int>) {
    forall i :: 0 <= i < |s| ==> IsSymbol(s[i])
  }

  /** Every preset is a dialable address: between 7 and 9 symbols, each on the ring. */
  lemma PresetIsDialable(name: string)
    requires name in KnownAddresses
    ensures MinAddressLength <= |KnownAddresses[name]| <= MaxAddressLength
    ensures AllSymbols(KnownAddresses[name])
  {
    assert name == "Abydos" || name == "Chulak" || name == "Dakara" || name == "Earth";
  }

  /** The preset buttons list exactly the dictionary's keys, each once. */
  lemma PresetNamesAreKeys()
    ensures forall k :: 0 <= k < |PresetNames| ==> PresetNames[k] in KnownAddresses
    ensures forall name :: name in KnownAddresses ==> name in PresetNames
    ensures forall j, k :: 0 <= j < k < |PresetNames| ==> PresetNames[j] != PresetNames[k]
  {
    forall name | name in KnownAddresses
      ensures name in PresetNames
    {
      assert name == "Abydos" || name == "Chulak" || name == "Dakara" || name == "Earth";
      assert PresetNames[0] == "Abydos" && PresetNames[1] == "Chulak";
      assert PresetNames[2] == "Dakara" && PresetNames[3] == "Earth";
    }
  }
}
