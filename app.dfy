/**
 * The track collection (src/App.tsx): the ordered list of at most eight
 * songs, the handlers that upload, delete, re-key and clear them, and the
 * persisted form of the list. Object URLs are opaque strings supplied by the
 * browser; the ghost sequences `minted` and `revoked` record which ones the
 * collection created and released.
 */
module App {
  import opened Types
  import AudioPlayer

  /** The collection never grows past this many songs. */
  const MAX_SONGS := 8

  /** The original key given to a newly uploaded song. */
  const DEFAULT_KEY := "C"

  /** The persisted form of a song: everything but the file. */
  datatype StoredSong = StoredSong(id: string, name: string, key: string, url: string)

  /** The smaller of `a` and `b`. */
  function Min(a: int, b: int): (r: int)
  {
    if a < b then a else b
  }

  /** Some song in `songs` has the id `id`. */
  ghost predicate HasId(songs: seq<Song>, id: string)
  {
    exists j :: 0 <= j < |songs| && songs[j].id == id
  }

  /** No song before position `j` has the id `id`. */
  ghost predicate NoIdBefore(songs: seq<Song>, id: string, j: int)
    requires 0 <= j <= |songs|
  {
    forall k :: 0 <= k < j ==> songs[k].id != id
  }

  /**
   * The songs made from the selected files: file `i` gets id `ids[i]`,
   * keeps its name, starts in key "C" and gets the URL `urls[i]` minted for it.
   */
  function NewSongs(files: seq<File>, ids: seq<string>, urls: seq<string>): (r: seq<Song>)
    requires |ids| == |files| && |urls| == |files|
    ensures |r| == |files|
    ensures forall i :: 0 <= i < |r| ==>
      r[i] == Song(ids[i], files[i].name, DEFAULT_KEY, files[i], urls[i])
  {
    if files == [] then []
    else [Song(ids[0], files[0].name, DEFAULT_KEY, files[0], urls[0])] + NewSongs(files[1..], ids[1..], urls[1..])
  }

  /**
   * The list after an upload: the new songs appended in input order, then
   * everything past the eighth song cut off.
   */
  function Uploaded(songs: seq<Song>, files: seq<File>, ids: seq<string>, urls: seq<string>): (r: seq<Song>)
    requires |ids| == |files| && |urls| == |files|
    ensures |r| == Min(MAX_SONGS, |songs| + |files|)
    ensures |songs| <= MAX_SONGS ==> r[..|songs|] == songs
    ensures forall i :: |songs| <= i < |r| ==>
      r[i] == Song(ids[i - |songs|], files[i - |songs|].name, DEFAULT_KEY, files[i - |songs|], urls[i - |songs|])
  {
    var all := songs + NewSongs(files, ids, urls);
    all[..Min(MAX_SONGS, |all|)]
  }

  /** `find`: the first song with the id, or nothing when no song has it. */
  function Find(songs: seq<Song>, id: string): (r: Option<Song>)
    ensures r.None? <==> !HasId(songs, id)
    ensures r.Some? ==> exists j :: 0 <= j < |songs| && songs[j] == r.value && r.value.id == id && NoIdBefore(songs, id, j)
  {
    if songs == [] then None
    else if songs[0].id == id then
      assert NoIdBefore(songs, id, 0);
      Some(songs[0])
    else
      var r := Find(songs[1..], id);
      if r.Some? then
        FirstMatchInTail(songs, id, r.value);
        r
      else
        assert forall k :: 1 <= k < |songs| ==> songs[k] == songs[1..][k - 1];
        r
  }

  /** A first match in the tail, behind a head without the id, is a first match in the whole list. */
  lemma FirstMatchInTail(songs: seq<Song>, id: string, v: Song)
    requires |songs| > 0 && songs[0].id != id
    requires exists j :: 0 <= j < |songs[1..]| && songs[1..][j] == v && v.id == id && NoIdBefore(songs[1..], id, j)
    ensures exists j :: 0 <= j < |songs| && songs[j] == v && v.id == id && NoIdBefore(songs, id, j)
  {
    var j :| 0 <= j < |songs[1..]| && songs[1..][j] == v && v.id == id && NoIdBefore(songs[1..], id, j);
    assert songs[j + 1] == v;
    forall k | 0 <= k < j + 1
      ensures songs[k].id != id
    {
      if k > 0 {
        assert songs[k] == songs[1..][k - 1];
      }
    }
  }

  /**
   * The songs whose id differs from `id`. This contract fixes which songs
   * survive but not their order or repeats; `WithoutDistributes`, with the
   * one-element cases, shows the survivors keep their order.
   */
  function Without(songs: seq<Song>, id: string): (r: seq<Song>)
    ensures |r| <= |songs|
    ensures forall s :: s in r <==> s in songs && s.id != id
    ensures !HasId(songs, id) ==> r == songs
    ensures HasId(songs, id) ==> |r| < |songs|
  {
    if songs == [] then []
    else
      assert songs == [songs[0]] + songs[1..];
      assert HasId(songs, id) ==> songs[0].id == id || HasId(songs[1..], id) by {
        if HasId(songs, id) && songs[0].id != id {
          var j :| 0 <= j < |songs| && songs[j].id == id;
          assert songs[1..][j - 1].id == id;
        }
      }
      (if songs[0].id == id then [] else [songs[0]]) + Without(songs[1..], id)
  }

  /** Removing songs commutes with splitting the list, so the survivors keep their relative order. */
  lemma {:induction false} WithoutDistributes(a: seq<Song>, b: seq<Song>, id: string)
    ensures Without(a + b, id) == Without(a, id) + Without(b, id)
  {
    if a == [] {
      assert a + b == b;
    } else {
      assert (a + b)[1..] == a[1..] + b;
      WithoutDistributes(a[1..], b, id);
    }
  }

  /** The list with every song that has the id given the new key, and every other song as it was. */
  function WithKey(songs: seq<Song>, id: string, newKey: string): (r: seq<Song>)
    ensures |r| == |songs|
    ensures forall i :: 0 <= i < |r| ==>
      r[i].id == songs[i].id && r[i].name == songs[i].name && r[i].file == songs[i].file && r[i].url == songs[i].url
    ensures forall i :: 0 <= i < |r| ==> r[i].key == if songs[i].id == id then newKey else songs[i].key
  {
    if songs == [] then []
    else [if songs[0].id == id then songs[0].(key := newKey) else songs[0]] + WithKey(songs[1..], id, newKey)
  }

  /** Re-keying an id that no song has changes nothing. */
  lemma WithKeyAbsent(songs: seq<Song>, id: string, newKey: string)
    requires !HasId(songs, id)
    ensures WithKey(songs, id, newKey) == songs
  {
    var r := WithKey(songs, id, newKey);
    forall i | 0 <= i < |songs|
      ensures r[i] == songs[i]
    {
      assert songs[i].id != id;
    }
  }

  /** Re-keying the same id twice keeps only the last key. */
  lemma WithKeyLastWins(songs: seq<Song>, id: string, k1: string, k2: string)
    ensures WithKey(WithKey(songs, id, k1), id, k2) == WithKey(songs, id, k2)
  {
    var r1 := WithKey(WithKey(songs, id, k1), id, k2);
    var r2 := WithKey(songs, id, k2);
    forall i | 0 <= i < |songs|
      ensures r1[i] == r2[i]
    {
    }
  }

  /** The object URLs held by the songs, in list order. */
  function Urls(songs: seq<Song>): (r: seq<string>)
    ensures |r| == |songs|
    ensures forall i :: 0 <= i < |songs| ==> r[i] == songs[i].url
  {
    if songs == [] then [] else Urls(songs[..|songs| - 1]) + [songs[|songs| - 1].url]
  }

  /**
   * A file past the cap still has a URL minted for it, but no song in the
   * new list holds that URL, so no later delete or clear revokes it.
   */
  lemma DroppedUrlUnheld(songs: seq<Song>, files: seq<File>, ids: seq<string>, urls: seq<string>, j: int)
    requires |ids| == |files| && |urls| == |files|
    requires |songs| < MAX_SONGS && MAX_SONGS - |songs| <= j < |files|
    requires urls[j] !in Urls(songs) && urls[j] !in urls[..j]
    ensures urls[j] !in Urls(Uploaded(songs, files, ids, urls))
  {
    var r := Uploaded(songs, files, ids, urls);
    var held := Urls(r);
    forall i | 0 <= i < |r|
      ensures held[i] != urls[j]
    {
      if i < |songs| {
        assert r[..|songs|][i] == songs[i];
        assert Urls(songs)[i] == r[i].url;
      } else {
        var n := i - |songs|;
        assert r[i].url == urls[n] && n < j;
        assert urls[..j][n] == urls[n];
      }
    }
  }

  /** The persisted record of one song: `id`, `name`, `key` and `url`, without the file. */
  function Stored(song: Song): (r: StoredSong)
  {
    StoredSong(song.id, song.name, song.key, song.url)
  }

  /** The placeholder file a restored song gets: an empty payload under the song's name. */
  function Placeholder(name: string): (f: File)
  {
    File(name, [])
  }

  /** The list as it is saved: same length and order, one record per song. */
  function Project(songs: seq<Song>): (r: seq<StoredSong>)
    ensures |r| == |songs|
    ensures forall i :: 0 <= i < |r| ==>
      r[i].id == songs[i].id && r[i].name == songs[i].name && r[i].key == songs[i].key && r[i].url == songs[i].url
  {
    if songs == [] then [] else [Stored(songs[0])] + Project(songs[1..])
  }

  /** The list rebuilt from saved records, each with a placeholder file. */
  function Restore(records: seq<StoredSong>): (r: seq<Song>)
    ensures |r| == |records|
    ensures forall i :: 0 <= i < |r| ==>
      r[i].id == records[i].id && r[i].name == records[i].name && r[i].key == records[i].key &&
      r[i].url == records[i].url && r[i].file == Placeholder(records[i].name)
  {
    if records == [] then []
    else
      var s := records[0];
      [Song(s.id, s.name, s.key, Placeholder(s.name), s.url)] + Restore(records[1..])
  }

  /** Restoring saved records and saving them again gives the same records. */
  lemma {:induction false} ProjectRestore(records: seq<StoredSong>)
    ensures Project(Restore(records)) == records
  {
    if records != [] {
      ProjectRestore(records[1..]);
      assert Restore(records)[1..] == Restore(records[1..]);
    }
  }

  /** Saving and restoring keeps every song's metadata and replaces its file by a placeholder. */
  lemma {:induction false} RestoreProject(songs: seq<Song>)
    ensures Restore(Project(songs)) == seq(|songs|, i requires 0 <= i < |songs| =>
      songs[i].(file := Placeholder(songs[i].name)))
  {
    if songs != [] {
      RestoreProject(songs[1..]);
    }
  }

  /**
   * The app's song list with its localStorage record `stored` (absent: None)
   * and the ghost history of minted and revoked object URLs.
   */
  class TrackCollection {
    var songs: seq<Song>
    var stored: Option<seq<StoredSong>>
    ghost var minted: seq<string>
    ghost var revoked: seq<string>

    /** The list and the saved record respect the cap. */
    ghost predicate Valid()
      reads this
    {
      |songs| <= MAX_SONGS && (stored.Some? ==> |stored.value| <= MAX_SONGS)
    }

    /** A new session: no songs yet, and whatever the storage held from before. */
    constructor (saved: Option<seq<StoredSong>>)
      ensures songs == [] && stored == saved && minted == [] && revoked == []
      ensures Valid() <==> (saved.Some? ==> |saved.value| <= MAX_SONGS)
    {
      songs := [];
      stored := saved;
      minted := [];
      revoked := [];
    }

    /** The load effect: a saved record replaces the list with its restored songs. */
    method LoadSaved()
      modifies this`songs
      ensures songs == if old(stored).Some? then Restore(old(stored).value) else old(songs)
      ensures old(Valid()) ==> Valid()
    {
      if stored.Some? {
        songs := Restore(stored.value);
      }
    }

    /** The save effect: the projection of the list is written to storage. */
    method SaveSongs()
      modifies this`stored
      ensures stored == Some(Project(songs))
      ensures old(Valid()) ==> Valid()
    {
      stored := Some(Project(songs));
    }

    /**
     * `handleFileUpload`: with at least one file and room left, a URL is
     * minted for every file, then the new songs are appended and the list is
     * cut to eight. Otherwise nothing happens.
     */
    method HandleFileUpload(files: seq<File>, ids: seq<string>, urls: seq<string>) returns (accepted: bool)
      requires |ids| == |files| && |urls| == |files|
      modifies this`songs, this`minted
      ensures accepted <==> |files| > 0 && |old(songs)| < MAX_SONGS
      ensures accepted ==> songs == Uploaded(old(songs), files, ids, urls) && minted == old(minted) + urls
      ensures !accepted ==> songs == old(songs) && minted == old(minted)
      ensures accepted ==> |songs| <= MAX_SONGS
      ensures old(Valid()) ==> Valid()
    {
      accepted := |files| > 0 && |songs| < MAX_SONGS;
      if accepted {
        minted := minted + urls;
        songs := Uploaded(songs, files, ids, urls);
      }
    }

    /**
     * `handleDelete`: the URL of the first song with the id is revoked, then
     * every song with the id is removed.
     */
    method HandleDelete(id: string)
      modifies this`songs, this`revoked
      ensures songs == Without(old(songs), id)
      ensures revoked == old(revoked) + match Find(old(songs), id)
        case Some(song) => [song.url]
        case None => []
      ensures old(Valid()) ==> Valid()
    {
      var songToDelete := Find(songs, id);
      if songToDelete.Some? {
        revoked := revoked + [songToDelete.value.url];
      }
      songs := Without(songs, id);
    }

    /** `handleUpdateKey`: songs with the id take the new key; nothing else changes. */
    method HandleUpdateKey(id: string, newKey: string)
      modifies this`songs
      ensures songs == WithKey(old(songs), id, newKey)
      ensures old(Valid()) ==> Valid()
    {
      songs := WithKey(songs, id, newKey);
    }

    /** `handleClearAll`: revoke every song's URL in list order, empty the list and remove the saved record. */
    method HandleClearAll()
      modifies this`songs, this`stored, this`revoked
      ensures revoked == old(revoked) + Urls(old(songs))
      ensures songs == [] && stored == None
      ensures Valid()
    {
      var i := 0;
      while i < |songs|
        invariant 0 <= i <= |songs|
        invariant revoked == old(revoked) + Urls(songs[..i])
        modifies this`revoked
      {
        assert songs[..i + 1][..i] == songs[..i];
        revoked := revoked + [songs[i].url];
        i := i + 1;
      }
      assert songs[..i] == songs;
      songs := [];
      stored := None;
    }
  }

  /**
   * A key picked in a player's selector: the player resets its shift and
   * reports the key, the collection re-keys the song, and the player is
   * rendered again with the updated record.
   */
  method ChangeOriginalKey(collection: TrackCollection, player: AudioPlayer.TrackController, newKey: string)
    modifies collection`songs, player
    ensures collection.songs == WithKey(old(collection.songs), player.songId, newKey)
    ensures player.pitch == 0 && player.currentKey == newKey && player.songKey == newKey
    ensures player.isPlaying == old(player.isPlaying)
    ensures player.rateSemitones == if player.hasAudio then 0 else old(player.rateSemitones)
    ensures newKey in AudioPlayer.NOTES ==> player.KeyInSync()
  {
    var update := player.HandleKeyChange(newKey);
    collection.HandleUpdateKey(update.id, update.key);
    player.ReceiveSong(newKey);
  }

  /** Three files, then ten more: five of the ten are accepted, the first three songs stay in place. */
  method UploadPastCapScenario(first: seq<File>, firstIds: seq<string>, firstUrls: seq<string>,
                               files: seq<File>, ids: seq<string>, urls: seq<string>)
    requires |first| == 3 && |firstIds| == 3 && |firstUrls| == 3
    requires |files| == 10 && |ids| == 10 && |urls| == 10
  {
    var collection := new TrackCollection(None);
    var accepted := collection.HandleFileUpload(first, firstIds, firstUrls);
    assert accepted && |collection.songs| == 3;
    var songs := collection.songs;
    accepted := collection.HandleFileUpload(files, ids, urls);
    assert accepted;
    assert |collection.songs| == 8 && collection.songs[..3] == songs;
    assert collection.songs[7].name == files[4].name;
    assert collection.minted == firstUrls + urls;
    collection.HandleClearAll();
    assert collection.songs == [] && collection.stored == None;
  }
}
