/** The web client's music store: the current track and its playback fields, the audio
    player, and the recently played list, which keeps the latest 20 tracks with no id
    twice, newest first. */
module MusicStore {
  import opened Common

  const HistoryLimit: nat := 20
  const DefaultVolume: real := 0.7

  datatype TrackParameters = TrackParameters(
    mood: string, instruments: seq<string>, bpm: string, key: seq<string>, energy: string)

  datatype BgmTrack = BgmTrack(
    id: string, audioUrl: string, prompt: string, timeOfDay: string,
    weatherCondition: string, musicParameters: TrackParameters, generatedAt: int)

  /** The audio player bound to the current track: its source and its volume. */
  datatype Player = Player(src: string, volume: real)

  // ---------------------------------------------------------------------------
  // History list
  // ---------------------------------------------------------------------------

  /** `history.filter(t => t.id !== id)`. */
  function WithoutId(history: seq<BgmTrack>, id: string): (r: seq<BgmTrack>)
    ensures |r| <= |history|
    ensures forall i :: 0 <= i < |r| ==> r[i].id != id && r[i] in history
    ensures forall t :: t in history && t.id != id ==> t in r
  {
    if history == [] then []
    else if history[0].id == id then WithoutId(history[1..], id)
    else [history[0]] + WithoutId(history[1..], id)
  }

  /** The filter keeps order: filtering a concatenation filters each part in place. */
  lemma {:induction false} WithoutIdConcat(a: seq<BgmTrack>, b: seq<BgmTrack>, id: string)
    ensures WithoutId(a + b, id) == WithoutId(a, id) + WithoutId(b, id)
  {
    if a == [] {
      assert a + b == b;
    } else {
      assert (a + b)[0] == a[0];
      assert (a + b)[1..] == a[1..] + b;
      WithoutIdConcat(a[1..], b, id);
    }
  }

  /** Filtering an id that does not occur changes nothing. */
  lemma {:induction false} WithoutAbsentId(history: seq<BgmTrack>, id: string)
    requires forall i :: 0 <= i < |history| ==> history[i].id != id
    ensures WithoutId(history, id) == history
  {
    if history != [] {
      WithoutAbsentId(history[1..], id);
      assert history == [history[0]] + history[1..];
    }
  }

  /** No id occurs twice. */
  predicate UniqueIds(history: seq<BgmTrack>) {
    forall i, j :: 0 <= i < j < |history| ==> history[i].id != history[j].id
  }

  /** The filter keeps ids unique. */
  lemma {:induction false} WithoutIdUnique(history: seq<BgmTrack>, id: string)
    requires UniqueIds(history)
    ensures UniqueIds(WithoutId(history, id))
  {
    if history != [] {
      WithoutIdUnique(history[1..], id);
      if history[0].id != id {
        var rest := WithoutId(history[1..], id);
        forall k | 0 <= k < |rest|
          ensures rest[k].id != history[0].id
        {
          var j :| 0 <= j < |history[1..]| && history[1..][j] == rest[k];
          assert history[j + 1] == rest[k];
        }
      }
    }
  }

  /** addToHistory: the track first, then the list without the track's id, cut to 20. */
  function PushRecent(history: seq<BgmTrack>, track: BgmTrack): (r: seq<BgmTrack>)
    ensures |r| >= 1 && r[0] == track
    ensures |r| <= HistoryLimit
    ensures forall i :: 1 <= i < |r| ==> r[i].id != track.id
    ensures |r| == if |WithoutId(history, track.id)| < HistoryLimit then |WithoutId(history, track.id)| + 1 else HistoryLimit
    ensures r[1..] == WithoutId(history, track.id)[..|r| - 1]
  {
    var rest := WithoutId(history, track.id);
    var kept := if |rest| < HistoryLimit then rest else rest[..HistoryLimit - 1];
    assert ([track] + rest)[..|kept| + 1] == [track] + kept;
    ([track] + rest)[..|kept| + 1]
  }

  /** The list stays duplicate-free, and at most the oldest entries fall off. */
  lemma PushRecentKeepsUnique(history: seq<BgmTrack>, track: BgmTrack)
    requires UniqueIds(history)
    ensures UniqueIds(PushRecent(history, track))
    ensures (|history| < HistoryLimit && forall i :: 0 <= i < |history| ==> history[i].id != track.id) ==>
              PushRecent(history, track) == [track] + history
  {
    var r := PushRecent(history, track);
    var rest := WithoutId(history, track.id);
    WithoutIdUnique(history, track.id);
    assert r[1..] == rest[..|r| - 1];
    forall i, j | 0 <= i < j < |r|
      ensures r[i].id != r[j].id
    {
      if i > 0 {
        assert r[i] == rest[i - 1] && r[j] == rest[j - 1];
      }
    }
    if |history| < HistoryLimit && (forall i :: 0 <= i < |history| ==> history[i].id != track.id) {
      WithoutAbsentId(history, track.id);
    }
  }

  /** Playing the same track again leaves the list as it is. */
  lemma PushRecentIdempotent(history: seq<BgmTrack>, track: BgmTrack)
    ensures PushRecent(PushRecent(history, track), track) == PushRecent(history, track)
  {
    var r := PushRecent(history, track);
    var tail := r[1..];
    assert r == [track] + tail;
    WithoutIdConcat([track], tail, track.id);
    WithoutAbsentId(tail, track.id);
    assert WithoutId([track], track.id) == [];
  }

  // ---------------------------------------------------------------------------
  // The store
  // ---------------------------------------------------------------------------

  class MusicStore {
    var currentTrack: Option<BgmTrack>
    var isPlaying: bool
    var volume: real
    var duration: real
    var currentTime: real
    var player: Option<Player>
    var history: seq<BgmTrack>

    /** The history bound and uniqueness hold in every reachable state. */
    predicate Valid()
      reads this
    {
      |history| <= HistoryLimit && UniqueIds(history)
    }

    /** The initial state: no track, not playing, volume 0.7, empty history. */
    constructor()
      ensures currentTrack == None && !isPlaying && volume == DefaultVolume
      ensures duration == 0.0 && currentTime == 0.0 && player == None && history == []
      ensures Valid()
    {
      currentTrack := None;
      isPlaying := false;
      volume := DefaultVolume;
      duration := 0.0;
      currentTime := 0.0;
      player := None;
      history := [];
    }

    /** setTrack: a new player for the track's URL at the current volume replaces the old
        one; playback is reset. History, volume and duration are untouched. */
    method SetTrack(track: BgmTrack)
      requires Valid()
      modifies this
      ensures Valid()
      ensures currentTrack == Some(track) && player == Some(Player(track.audioUrl, old(volume)))
      ensures !isPlaying && currentTime == 0.0
      ensures history == old(history) && volume == old(volume) && duration == old(duration)
    {
      var newPlayer := Player(track.audioUrl, volume);
      currentTrack := Some(track);
      player := Some(newPlayer);
      isPlaying := false;
      currentTime := 0.0;
    }

    /** setVolume: the store records the volume whether or not a player exists; a player,
        if any, takes it too. */
    method SetVolume(v: real)
      requires Valid()
      modifies this
      ensures Valid()
      ensures volume == v
      ensures player == (if old(player).Some? then Some(old(player).value.(volume := v)) else None)
      ensures currentTrack == old(currentTrack) && isPlaying == old(isPlaying) && history == old(history)
      ensures currentTime == old(currentTime) && duration == old(duration)
    {
      if player.Some? {
        player := Some(player.value.(volume := v));
      }
      volume := v;
    }

    /** seek: moves the position only when a player exists. */
    method Seek(time: real)
      requires Valid()
      modifies this
      ensures Valid()
      ensures currentTime == (if old(player).Some? then time else old(currentTime))
      ensures player == old(player) && volume == old(volume) && history == old(history)
      ensures currentTrack == old(currentTrack) && isPlaying == old(isPlaying) && duration == old(duration)
    {
      if player.Some? {
        currentTime := time;
      }
    }

    method SetCurrentTime(time: real)
      requires Valid()
      modifies this
      ensures Valid()
      ensures currentTime == time
      ensures player == old(player) && volume == old(volume) && history == old(history)
      ensures currentTrack == old(currentTrack) && isPlaying == old(isPlaying) && duration == old(duration)
    {
      currentTime := time;
    }

    method SetDuration(d: real)
      requires Valid()
      modifies this
      ensures Valid()
      ensures duration == d
      ensures player == old(player) && volume == old(volume) && history == old(history)
      ensures currentTrack == old(currentTrack) && isPlaying == old(isPlaying) && currentTime == old(currentTime)
    {
      duration := d;
    }

    /** addToHistory: the track moves to the front, at most once, within the bound. */
    method AddToHistory(track: BgmTrack)
      requires Valid()
      modifies this
      ensures Valid()
      ensures history == PushRecent(old(history), track)
      ensures player == old(player) && volume == old(volume) && duration == old(duration)
      ensures currentTrack == old(currentTrack) && isPlaying == old(isPlaying) && currentTime == old(currentTime)
    {
      PushRecentKeepsUnique(history, track);
      history := PushRecent(history, track);
    }

    /** clearHistory: empties the list and nothing else. */
    method ClearHistory()
      requires Valid()
      modifies this
      ensures Valid()
      ensures history == []
      ensures player == old(player) && volume == old(volume) && duration == old(duration)
      ensures currentTrack == old(currentTrack) && isPlaying == old(isPlaying) && currentTime == old(currentTime)
    {
      history := [];
    }
  }
}
