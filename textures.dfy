/**
 * The texture bank both renderers load at setup: for each of the keys A..H,
 * seven SDF texture handles, one per emotion channel. Loading itself is not
 * modelled; a bank is given once all of its sets are in place.
 */
module TextureBank {
  import opened Emotions

  /** An opaque handle to one loaded texture. */
  type Texture = nat

  type Bank = map<string, seq<Texture>>

  /** The keys that have their own texture sets. */
  const LETTERS: set<string> := {"A", "B", "C", "D", "E", "F", "G", "H"}

  /** The key whose set stands in for every other key. */
  const DEFAULT_KEY: string := "A"

  /** Setup has finished: every key A..H has all seven channel textures. */
  predicate Ready(bank: Bank)
    ensures Ready(bank) ==> DEFAULT_KEY in bank && |bank[DEFAULT_KEY]| == CHANNELS
  {
    forall k :: k in LETTERS ==> k in bank && |bank[k]| == CHANNELS
  }

  /** The key whose texture set `updateBindTexturesForKey(key)` binds. */
  function TextureKey(key: string): (k: string)
    ensures k in LETTERS
    ensures key in LETTERS <==> k == key
    ensures key !in LETTERS ==> k == DEFAULT_KEY
  {
    if key in LETTERS then key else DEFAULT_KEY
  }

  /** The seven textures bound to units 0..6 before drawing `key`. */
  function Bind(bank: Bank, key: string): (channels: seq<Texture>)
    requires Ready(bank)
    ensures |channels| == CHANNELS
    ensures key in LETTERS ==> channels == bank[key]
    ensures key !in LETTERS ==> channels == bank[DEFAULT_KEY]
  {
    bank[TextureKey(key)]
  }
}
