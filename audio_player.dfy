/**
 * The per-track player (src/components/AudioPlayer.tsx): the key transposer
 * `calculateKeyFromPitch` over the twelve chromatic notes, and the transport
 * state `pitch`, `currentKey` and `isPlaying` that the player's handlers update.
 */
module AudioPlayer {
  import opened Types

  /** The chromatic scale, in the order transposition cycles through it. */
  const NOTES: seq<string> := ["C", "C#", "D", "D#", "E", "F", "F#", "G", "G#", "A", "A#", "B"]

  /** The pitch offset, in semitones, is kept within [-PITCH_LIMIT, PITCH_LIMIT]. */
  const PITCH_LIMIT := 12

  /** JavaScript's `Array.prototype.indexOf`: the first position holding `x`, or -1 when there is none. */
  function IndexOf<T(==)>(s: seq<T>, x: T): (i: int)
    ensures -1 <= i < |s|
    ensures 0 <= i ==> s[i] == x
    ensures forall j :: 0 <= j < |s| && (i == -1 || j < i) ==> s[j] != x
  {
    if |s| == 0 then -1
    else if s[0] == x then 0
    else
      var j := IndexOf(s[1..], x);
      if j == -1 then -1 else j + 1
  }

  /** The entries of `table` are pairwise distinct. */
  ghost predicate Distinct<T>(table: seq<T>)
  {
    forall a, b :: 0 <= a < b < |table| ==> table[a] != table[b]
  }

  /** In a table without repeats, each entry is found at its own position. */
  lemma IndexOfDistinct<T>(table: seq<T>, j: int)
    requires Distinct(table)
    requires 0 <= j < |table|
    ensures IndexOf(table, table[j]) == j
  {
    var i := IndexOf(table, table[j]);
    assert i != -1 && !(j < i);
  }

  /** The twelve note names are pairwise distinct. */
  lemma NotesDistinct()
    ensures Distinct(NOTES)
  {
    forall a, b | 0 <= a < b < 12
      ensures NOTES[a] != NOTES[b]
    {
      assert NOTES[a][0] != NOTES[b][0] || |NOTES[a]| != |NOTES[b]|;
    }
  }

  /**
   * JavaScript's `a % 12` on integers: the remainder of division truncated
   * toward zero, which takes the sign of the dividend (unlike Dafny's `%`).
   */
  function JsRem12(a: int): (r: int)
    ensures a >= 0 ==> 0 <= r < 12
    ensures a < 0 ==> -12 < r <= 0
    ensures (a - r) % 12 == 0
  {
    if a >= 0 then a % 12 else -((-a) % 12)
  }

  /**
   * Lines 15-16 of `calculateKeyFromPitch` on indices: add the offset, take
   * the truncated remainder, and move a negative remainder back into [0, 11].
   */
  function ShiftIndex(baseKeyIndex: int, pitchChange: int): (j: int)
    ensures 0 <= j < 12
  {
    var newKeyIndex := JsRem12(baseKeyIndex + pitchChange);
    if newKeyIndex < 0 then newKeyIndex + 12 else newKeyIndex
  }

  /** A value in [0, 12) congruent to `x` modulo 12 is `x % 12`. */
  lemma Mod12Unique(x: int, j: int)
    requires 0 <= j < 12
    requires (x - j) % 12 == 0
    ensures j == x % 12
  {
    var q := (x - j) / 12;
    assert x == 12 * q + j;
  }

  /** The truncated remainder with its correction is the true (Euclidean) modulo. */
  lemma ShiftIsTrueModulo(baseKeyIndex: int, pitchChange: int)
    ensures ShiftIndex(baseKeyIndex, pitchChange) == (baseKeyIndex + pitchChange) % 12
  {
    var x := baseKeyIndex + pitchChange;
    var r := JsRem12(x);
    var j := if r < 0 then r + 12 else r;
    assert (x - j) % 12 == 0 by {
      if r < 0 {
        assert x - j == (x - r) - 12;
      }
    }
    Mod12Unique(x, j);
  }

  /**
   * `calculateKeyFromPitch` over a twelve-entry note table: look the base
   * key up and step `pitchChange` places around the table. The lemmas below
   * are proved for any such table and then applied to NOTES.
   */
  function Transpose(table: seq<string>, baseKey: string, pitchChange: int): (r: string)
    requires |table| == 12
    ensures r in table
  {
    table[ShiftIndex(IndexOf(table, baseKey), pitchChange)]
  }

  /** The key's index moves by the offset modulo 12, for every base key and integer offset. */
  lemma TransposeIsTrueModulo(table: seq<string>, baseKey: string, pitchChange: int)
    requires |table| == 12
    ensures Transpose(table, baseKey, pitchChange) == table[(IndexOf(table, baseKey) + pitchChange) % 12]
  {
    ShiftIsTrueModulo(IndexOf(table, baseKey), pitchChange);
  }

  /** A zero offset gives back any key that is in the table. */
  lemma TransposeAtZero(table: seq<string>, k: string)
    requires |table| == 12 && k in table
    ensures Transpose(table, k, 0) == k
  {
    var i := IndexOf(table, k);
    var w :| 0 <= w < 12 && table[w] == k;
    assert i != -1;
    ShiftIsTrueModulo(i, 0);
  }

  /** Transposition has period 12, for every key and integer offset. */
  lemma TransposePeriodic(table: seq<string>, k: string, p: int)
    requires |table| == 12
    ensures Transpose(table, k, p + 12) == Transpose(table, k, p)
  {
    var i := IndexOf(table, k);
    ShiftIsTrueModulo(i, p + 12);
    ShiftIsTrueModulo(i, p);
    assert ShiftIndex(i, p + 12) == ShiftIndex(i, p);
  }

  /** `12 * q + m` with `m` in [0, 12) leaves remainder `m`. */
  lemma Mod12OfSplit(x: int, q: int, m: int)
    requires 0 <= m < 12 && x == 12 * q + m
    ensures x % 12 == m
  {
  }

  /** Shifting an index by `a` and then by `b` is shifting it by `a + b`. */
  lemma ShiftCompose(i: int, a: int, b: int)
    ensures ShiftIndex(ShiftIndex(i, a), b) == ShiftIndex(i, a + b)
  {
    var j := ShiftIndex(i, a);
    var m := ShiftIndex(j, b);
    ShiftIsTrueModulo(i, a);
    ShiftIsTrueModulo(j, b);
    ShiftIsTrueModulo(i, a + b);
    var q1 := (i + a) / 12;
    var q2 := (j + b) / 12;
    assert i + a == 12 * q1 + j;
    assert j + b == 12 * q2 + m;
    Mod12OfSplit(i + a + b, q1 + q2, m);
  }

  /** With distinct entries, transposing by `a` and then by `b` is transposing by `a + b`. */
  lemma TransposeCompose(table: seq<string>, k: string, a: int, b: int)
    requires |table| == 12 && Distinct(table)
    ensures Transpose(table, Transpose(table, k, a), b) == Transpose(table, k, a + b)
  {
    var i := IndexOf(table, k);
    var j := ShiftIndex(i, a);
    IndexOfDistinct(table, j);
    ShiftCompose(i, a, b);
  }

  /** Shifting a key of the table by `p` and back by `-p` returns it. */
  lemma TransposeInverse(table: seq<string>, k: string, p: int)
    requires |table| == 12 && Distinct(table) && k in table
    ensures Transpose(table, Transpose(table, k, p), -p) == k
  {
    TransposeCompose(table, k, p, -p);
    TransposeAtZero(table, k);
  }

  /** A key missing from the table has index -1 and so transposes as the last entry does. */
  lemma TransposeUnknown(table: seq<string>, k: string, p: int)
    requires |table| == 12 && Distinct(table) && k !in table
    ensures Transpose(table, k, p) == Transpose(table, table[11], p)
  {
    assert IndexOf(table, k) == -1;
    IndexOfDistinct(table, 11);
    ShiftIsTrueModulo(-1, p);
    ShiftIsTrueModulo(11, p);
    assert (-1 + p) % 12 == (11 + p) % 12;
  }

  /**
   * `calculateKeyFromPitch`: the note `pitchChange` semitones away from
   * `baseKey`; the result is always a note, whatever the key and the offset.
   */
  function KeyFromPitch(baseKey: string, pitchChange: int): (r: string)
    ensures r in NOTES
  {
    Transpose(NOTES, baseKey, pitchChange)
  }

  /** A zero offset gives back the base key, for every note. */
  lemma KeyAtZeroOffset(k: string)
    requires k in NOTES
    ensures KeyFromPitch(k, 0) == k
  {
    TransposeAtZero(NOTES, k);
  }

  /** Transposition has period 12, for every integer offset. */
  lemma KeyPeriodic(k: string, p: int)
    ensures KeyFromPitch(k, p + 12) == KeyFromPitch(k, p)
  {
    TransposePeriodic(NOTES, k, p);
  }

  /** Transposing by `a` and then by `b` is transposing by `a + b`. */
  lemma KeyCompose(k: string, a: int, b: int)
    ensures KeyFromPitch(KeyFromPitch(k, a), b) == KeyFromPitch(k, a + b)
  {
    NotesDistinct();
    TransposeCompose(NOTES, k, a, b);
  }

  /** Shifting a note by `p` and back by `-p` returns the note. */
  lemma KeyInverse(k: string, p: int)
    requires k in NOTES
    ensures KeyFromPitch(KeyFromPitch(k, p), -p) == k
  {
    NotesDistinct();
    TransposeInverse(NOTES, k, p);
  }

  /** A base key that is not a note has index -1, so it transposes as "B" does. */
  lemma UnknownKeyActsAsB(k: string, p: int)
    requires k !in NOTES
    ensures KeyFromPitch(k, p) == KeyFromPitch("B", p)
  {
    NotesDistinct();
    TransposeUnknown(NOTES, k, p);
    assert NOTES[11] == "B";
  }

  /** The requested pitch, saturated at -PITCH_LIMIT below and PITCH_LIMIT above. */
  function ClampPitch(x: int): (r: int)
    ensures -PITCH_LIMIT <= r <= PITCH_LIMIT
    ensures -PITCH_LIMIT <= x <= PITCH_LIMIT ==> r == x
    ensures x > PITCH_LIMIT ==> r == PITCH_LIMIT
    ensures x < -PITCH_LIMIT ==> r == -PITCH_LIMIT
  {
    var upper := if PITCH_LIMIT < x then PITCH_LIMIT else x;
    if -PITCH_LIMIT > upper then -PITCH_LIMIT else upper
  }

  /** Which media call `togglePlay` issues on the audio element. */
  datatype MediaCall = NoCall | Pause | Play

  /** The `onUpdateKey(song.id, newKey)` notification sent to the owning collection. */
  datatype KeyUpdate = KeyUpdate(id: string, key: string)

  /**
   * The state of one player. `songId` and `songKey` are the song record the
   * parent passes in; `hasAudio` says whether the audio element is attached;
   * `rateSemitones` is that element's playback rate as an exponent: the rate
   * is 2^(rateSemitones / 12).
   */
  class TrackController {
    const songId: string
    var songKey: string
    const hasAudio: bool
    var pitch: int
    var currentKey: string
    var isPlaying: bool
    var rateSemitones: int

    /** The pitch offset stays within the limits. */
    ghost predicate Valid()
      reads this
    {
      -PITCH_LIMIT <= pitch <= PITCH_LIMIT
    }

    /** The displayed key is the song's key transposed by the current pitch. */
    ghost predicate KeyInSync()
      reads this
    {
      currentKey == KeyFromPitch(songKey, pitch)
    }

    /** Mounting a player: not playing, no shift, the displayed key is the song's key. */
    constructor (song: Song, hasAudio: bool)
      ensures Valid()
      ensures songId == song.id && songKey == song.key && this.hasAudio == hasAudio
      ensures pitch == 0 && currentKey == song.key && !isPlaying && rateSemitones == 0
      ensures song.key in NOTES ==> KeyInSync()
    {
      songId := song.id;
      songKey := song.key;
      this.hasAudio := hasAudio;
      pitch := 0;
      currentKey := song.key;
      isPlaying := false;
      rateSemitones := 0;
      new;
      if song.key in NOTES {
        KeyAtZeroOffset(song.key);
      }
    }

    /**
     * `handlePitchChange`: step the pitch, saturating at the limits; retune
     * the audio element when there is one; recompute the displayed key from
     * the song's own key and the new absolute pitch.
     */
    method HandlePitchChange(semitones: int)
      modifies this
      ensures Valid() && KeyInSync()
      ensures pitch == ClampPitch(old(pitch) + semitones)
      ensures rateSemitones == if hasAudio then pitch else old(rateSemitones)
      ensures songKey == old(songKey) && isPlaying == old(isPlaying)
    {
      var newPitch := ClampPitch(pitch + semitones);
      pitch := newPitch;
      if hasAudio {
        rateSemitones := newPitch;
      }
      currentKey := KeyFromPitch(songKey, newPitch);
    }

    /**
     * `handleKeyChange`: report the new original key to the collection, drop
     * any shift, show the new key and put the rate back to 1.
     */
    method HandleKeyChange(newKey: string) returns (update: KeyUpdate)
      modifies this
      ensures Valid()
      ensures update == KeyUpdate(songId, newKey)
      ensures pitch == 0 && currentKey == newKey
      ensures rateSemitones == if hasAudio then 0 else old(rateSemitones)
      ensures songKey == old(songKey) && isPlaying == old(isPlaying)
    {
      update := KeyUpdate(songId, newKey);
      pitch := 0;
      currentKey := newKey;
      if hasAudio {
        rateSemitones := 0;
      }
    }

    /**
     * The parent re-renders the player with an updated song record. State
     * hooks keep their values; only the key the player reads changes.
     * After `HandleKeyChange(k)` and this with the same note `k`, the
     * displayed key is in sync again.
     */
    method ReceiveSong(key: string)
      modifies this`songKey
      ensures songKey == key
      ensures pitch == 0 && currentKey == key && key in NOTES ==> KeyInSync()
    {
      songKey := key;
      if pitch == 0 && currentKey == key && key in NOTES {
        KeyAtZeroOffset(key);
      }
    }

    /**
     * `togglePlay`: with an audio element, pause when playing and play
     * otherwise; the flag flips only when that call succeeds (`ok`), and a
     * rejected call leaves it as it was. Without an audio element nothing happens.
     */
    method TogglePlay(ok: bool) returns (call: MediaCall)
      modifies this`isPlaying
      ensures call == if !hasAudio then NoCall else if old(isPlaying) then Pause else Play
      ensures isPlaying == if hasAudio && ok then !old(isPlaying) else old(isPlaying)
    {
      call := NoCall;
      if hasAudio {
        call := if isPlaying then Pause else Play;
        if ok {
          isPlaying := !isPlaying;
        }
      }
    }

    /** The `ended` listener: playback stopped, whatever the flag was; repeating it changes nothing. */
    method HandleEnded()
      modifies this`isPlaying
      ensures !isPlaying
    {
      isPlaying := false;
    }
  }

  /** Five semitones up and then twenty more saturates at +12, showing the key an octave up. */
  method PitchSaturationScenario(song: Song)
    requires song.key in NOTES
  {
    var player := new TrackController(song, true);
    player.HandlePitchChange(5);
    assert player.pitch == 5;
    player.HandlePitchChange(20);
    assert player.pitch == 12 && player.rateSemitones == 12;
    KeyPeriodic(song.key, 0);
    KeyAtZeroOffset(song.key);
    assert player.currentKey == song.key;
    player.HandlePitchChange(1);
    assert player.pitch == 12;
  }
}
