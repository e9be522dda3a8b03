/**
 * The public media page: two videos with play, mute and rewind controls.
 * Starting one video pauses the other, so at most one plays at a time, and
 * the page's `playingVideo` and `mutedStates` keep mirroring the elements.
 */
module MediaPage {

  import opened Common

  datatype VideoId = Video1 | Video2

  /** `Object.keys(videoRefs)`: the videos in declaration order. */
  const VideoIds: seq<VideoId> := [Video1, Video2]

  /** The position of a video's ref among the refs. */
  function Slot(v: VideoId): (k: nat)
    ensures k < |VideoIds| && VideoIds[k] == v
  {
    match v
    case Video1 => 0
    case Video2 => 1
  }

  /** What the handlers read and write on a mounted `<video>` element. */
  datatype Element = Element(paused: bool, muted: bool, currentTime: real)

  /** `video.pause()` on a ref; an unmounted ref is left alone. */
  function Paused(o: Option<Element>): (r: Option<Element>)
    ensures r.Some? <==> o.Some?
    ensures r.Some? ==> r.value == o.value.(paused := true)
  {
    if o.Some? then Some(o.value.(paused := true)) else None
  }

  // ---------------------------------------------------------------- the handlers on values

  /**
   * The elements after `togglePlay(v)`: a paused video starts and every
   * other mounted video is paused; a playing video is paused; nothing
   * happens while its element is not mounted.
   */
  function PlayToggled(els: seq<Option<Element>>, v: VideoId): (r: seq<Option<Element>>)
    requires |els| == |VideoIds|
    ensures |r| == |els|
  {
    var k := Slot(v);
    if els[k].None? then els
    else if els[k].value.paused then
      seq(|els|, i requires 0 <= i < |els| => if i == k then Some(els[k].value.(paused := false)) else Paused(els[i]))
    else els[k := Paused(els[k])]
  }

  /** `playingVideo` after `togglePlay(v)`. */
  function PlayingAfterToggle(els: seq<Option<Element>>, playing: Option<VideoId>, v: VideoId): Option<VideoId>
    requires |els| == |VideoIds|
  {
    var k := Slot(v);
    if els[k].None? then playing
    else if els[k].value.paused then Some(v)
    else None
  }

  /** The elements after `toggleMute(v)`: the element's muted flag flips. */
  function MuteToggled(els: seq<Option<Element>>, v: VideoId): (r: seq<Option<Element>>)
    requires |els| == |VideoIds|
    ensures |r| == |els|
  {
    var k := Slot(v);
    if els[k].None? then els else els[k := Some(els[k].value.(muted := !els[k].value.muted))]
  }

  /** `mutedStates` after `toggleMute(v)`: the entry of `v` mirrors the element's new flag. */
  function MutedAfterToggle(els: seq<Option<Element>>, muted: map<VideoId, bool>, v: VideoId): map<VideoId, bool>
    requires |els| == |VideoIds|
  {
    var k := Slot(v);
    if els[k].None? then muted else muted[v := !els[k].value.muted]
  }

  /** The elements after `resetVideo(v)`: the element is rewound to the start. */
  function Rewound(els: seq<Option<Element>>, v: VideoId): (r: seq<Option<Element>>)
    requires |els| == |VideoIds|
    ensures |r| == |els|
  {
    var k := Slot(v);
    if els[k].None? then els else els[k := Some(els[k].value.(currentTime := 0.0))]
  }

  // ---------------------------------------------------------------- the invariant

  /**
   * The page's state agrees with the elements: a mounted video plays
   * exactly when it is `playingVideo`, which is always mounted, and its
   * muted flag is the one `mutedStates` shows.
   */
  ghost predicate Consistent(els: seq<Option<Element>>, playing: Option<VideoId>, muted: map<VideoId, bool>) {
    && |els| == |VideoIds|
    && (forall v :: v in muted)
    && (playing.Some? ==> els[Slot(playing.value)].Some?)
    && (forall v :: els[Slot(v)].Some? ==>
          (!els[Slot(v)].value.paused <==> playing == Some(v)) && els[Slot(v)].value.muted == muted[v])
  }

  /** At most one video plays at a time. */
  lemma ExclusivePlayback(els: seq<Option<Element>>, playing: Option<VideoId>, muted: map<VideoId, bool>)
    requires Consistent(els, playing, muted)
    ensures forall i, j :: 0 <= i < j < |els| && els[i].Some? && els[j].Some? ==> els[i].value.paused || els[j].value.paused
  {
    forall i, j | 0 <= i < j < |els| && els[i].Some? && els[j].Some?
      ensures els[i].value.paused || els[j].value.paused
    {
      assert Slot(VideoIds[i]) == i && Slot(VideoIds[j]) == j;
    }
  }

  /** `togglePlay` keeps the page consistent with the elements. */
  lemma TogglePlayKeepsConsistent(els: seq<Option<Element>>, playing: Option<VideoId>, muted: map<VideoId, bool>, v: VideoId)
    requires Consistent(els, playing, muted)
    ensures Consistent(PlayToggled(els, v), PlayingAfterToggle(els, playing, v), muted)
  {
    var r := PlayToggled(els, v);
    var p := PlayingAfterToggle(els, playing, v);
    forall w | r[Slot(w)].Some?
      ensures (!r[Slot(w)].value.paused <==> p == Some(w)) && r[Slot(w)].value.muted == muted[w]
    {
      assert els[Slot(w)].Some?;
      if w != v {
        assert Slot(w) != Slot(v);
      }
    }
  }

  /**
   * Starting a paused video leaves it the only one playing; pausing the
   * playing one leaves none playing. The clicked video changes nothing but
   * its paused flag.
   */
  lemma TogglePlayIsExclusive(els: seq<Option<Element>>, playing: Option<VideoId>, muted: map<VideoId, bool>, v: VideoId)
    requires Consistent(els, playing, muted) && els[Slot(v)].Some?
    ensures var r := PlayToggled(els, v);
      && r[Slot(v)].Some? && r[Slot(v)].value == els[Slot(v)].value.(paused := !els[Slot(v)].value.paused)
      && (els[Slot(v)].value.paused ==> forall w :: w != v && r[Slot(w)].Some? ==> r[Slot(w)].value.paused)
      && (!els[Slot(v)].value.paused ==> forall w :: r[Slot(w)].Some? ==> r[Slot(w)].value.paused)
  {
    var r := PlayToggled(els, v);
    TogglePlayKeepsConsistent(els, playing, muted, v);
    forall w | !els[Slot(v)].value.paused && r[Slot(w)].Some? ensures r[Slot(w)].value.paused {
      assert PlayingAfterToggle(els, playing, v).None?;
    }
  }

  lemma ToggleMuteKeepsConsistent(els: seq<Option<Element>>, playing: Option<VideoId>, muted: map<VideoId, bool>, v: VideoId)
    requires Consistent(els, playing, muted)
    ensures Consistent(MuteToggled(els, v), playing, MutedAfterToggle(els, muted, v))
  {
    var r := MuteToggled(els, v);
    var m := MutedAfterToggle(els, muted, v);
    forall w | r[Slot(w)].Some?
      ensures (!r[Slot(w)].value.paused <==> playing == Some(w)) && r[Slot(w)].value.muted == m[w]
    {
      if w != v {
        assert Slot(w) != Slot(v);
      }
    }
  }

  /** Muting twice restores both the element and the page's flag. */
  lemma ToggleMuteTwice(els: seq<Option<Element>>, muted: map<VideoId, bool>, v: VideoId)
    requires |els| == |VideoIds| && v in muted
    ensures MuteToggled(MuteToggled(els, v), v) == els
    ensures els[Slot(v)].Some? && els[Slot(v)].value.muted == muted[v] ==>
      MutedAfterToggle(MuteToggled(els, v), MutedAfterToggle(els, muted, v), v) == muted
  {
  }

  lemma RewindKeepsConsistent(els: seq<Option<Element>>, playing: Option<VideoId>, muted: map<VideoId, bool>, v: VideoId)
    requires Consistent(els, playing, muted)
    ensures Consistent(Rewound(els, v), playing, muted)
  {
    var r := Rewound(els, v);
    forall w | r[Slot(w)].Some?
      ensures (!r[Slot(w)].value.paused <==> playing == Some(w)) && r[Slot(w)].value.muted == muted[w]
    {
      if w != v {
        assert Slot(w) != Slot(v);
      }
    }
  }

  /**
   * A video that plays to its end is paused by the browser, and the
   * "ended" listener clears `playingVideo`, so afterwards no video plays.
   */
  lemma EndedKeepsConsistent(els: seq<Option<Element>>, playing: Option<VideoId>, muted: map<VideoId, bool>, v: VideoId)
    requires Consistent(els, playing, muted) && els[Slot(v)].Some? && !els[Slot(v)].value.paused
    ensures Consistent(els[Slot(v) := Paused(els[Slot(v)])], None, muted)
    ensures forall w :: els[Slot(v) := Paused(els[Slot(v)])][Slot(w)].Some? ==>
      els[Slot(v) := Paused(els[Slot(v)])][Slot(w)].value.paused
  {
    var r := els[Slot(v) := Paused(els[Slot(v)])];
    forall w | r[Slot(w)].Some? ensures r[Slot(w)].value.paused && r[Slot(w)].value.muted == muted[w] {
      if w != v {
        assert Slot(w) != Slot(v);
      }
    }
  }

  // ---------------------------------------------------------------- the component

  class Gallery {
    /** `videoRefs[id].current`, by slot. */
    var refs: array<Option<Element>>
    var playingVideo: Option<VideoId>
    var mutedStates: map<VideoId, bool>
    var progress: map<VideoId, real>

    ghost predicate Valid()
      reads this, refs
    {
      Consistent(refs[..], playingVideo, mutedStates) && forall v :: v in progress
    }

    /**
     * The page as first rendered: nothing playing, both videos muted at
     * progress 0; the mounted elements are paused and muted, as the
     * `<video muted>` tags without autoplay leave them.
     */
    constructor (mounted: seq<Option<Element>>)
      requires |mounted| == |VideoIds|
      requires forall k :: 0 <= k < |mounted| && mounted[k].Some? ==> mounted[k].value.paused && mounted[k].value.muted
      ensures Valid() && fresh(refs) && refs[..] == mounted
      ensures playingVideo.None?
      ensures mutedStates == map[Video1 := true, Video2 := true]
      ensures progress == map[Video1 := 0.0, Video2 := 0.0]
    {
      refs := new Option<Element>[|mounted|](i requires 0 <= i < |mounted| => mounted[i]);
      playingVideo := None;
      mutedStates := map[Video1 := true, Video2 := true];
      progress := map[Video1 := 0.0, Video2 := 0.0];
      new;
      assert refs[..] == mounted;
      forall v ensures v in mutedStates && v in progress {
        assert v == Video1 || v == Video2;
      }
      forall v | refs[Slot(v)].Some? ensures refs[Slot(v)].value.muted == mutedStates[v] {
        assert refs[Slot(v)].value.muted;
      }
    }

    method TogglePlay(v: VideoId)
      requires Valid()
      modifies this, refs
      ensures Valid() && refs == old(refs)
      ensures refs[..] == PlayToggled(old(refs[..]), v)
      ensures playingVideo == PlayingAfterToggle(old(refs[..]), old(playingVideo), v)
      ensures mutedStates == old(mutedStates) && progress == old(progress)
    {
      ghost var before := refs[..];
      TogglePlayKeepsConsistent(before, playingVideo, mutedStates, v);
      var k := Slot(v);
      var video := refs[k];
      if video.None? {
        return;
      }
      if video.value.paused {
        var i := 0;
        while i < refs.Length
          invariant unchanged(this) && refs.Length == |before| == |VideoIds|
          invariant 0 <= i <= refs.Length
          invariant forall j :: 0 <= j < refs.Length ==> refs[j] == (if j < i && j != k then Paused(before[j]) else before[j])
        {
          if VideoIds[i] != v && refs[i].Some? {
            refs[i] := Paused(refs[i]);
          }
          i := i + 1;
        }
        refs[k] := Some(video.value.(paused := false));
        playingVideo := Some(v);
      } else {
        refs[k] := Paused(video);
        playingVideo := None;
      }
      assert refs[..] == PlayToggled(before, v);
    }

    method ToggleMute(v: VideoId)
      requires Valid()
      modifies this, refs
      ensures Valid() && refs == old(refs)
      ensures refs[..] == MuteToggled(old(refs[..]), v)
      ensures mutedStates == MutedAfterToggle(old(refs[..]), old(mutedStates), v)
      ensures playingVideo == old(playingVideo) && progress == old(progress)
    {
      ghost var before := refs[..];
      ToggleMuteKeepsConsistent(before, playingVideo, mutedStates, v);
      var k := Slot(v);
      var video := refs[k];
      if video.Some? {
        var muted := !video.value.muted;
        refs[k] := Some(video.value.(muted := muted));
        mutedStates := mutedStates[v := muted];
      }
      assert refs[..] == MuteToggled(before, v);
    }

    method ResetVideo(v: VideoId)
      requires Valid()
      modifies this, refs
      ensures Valid() && refs == old(refs)
      ensures refs[..] == Rewound(old(refs[..]), v)
      ensures progress == (if old(refs[Slot(v)]).Some? then old(progress)[v := 0.0] else old(progress))
      ensures playingVideo == old(playingVideo) && mutedStates == old(mutedStates)
    {
      ghost var before := refs[..];
      RewindKeepsConsistent(before, playingVideo, mutedStates, v);
      var k := Slot(v);
      var video := refs[k];
      if video.Some? {
        refs[k] := Some(video.value.(currentTime := 0.0));
        progress := progress[v := 0.0];
      }
      assert refs[..] == Rewound(before, v);
    }

    /** The browser pauses a video that reached its end, then the "ended" listener runs. */
    method Ended(v: VideoId)
      requires Valid() && refs[Slot(v)].Some? && !refs[Slot(v)].value.paused
      modifies this, refs
      ensures Valid() && refs == old(refs)
      ensures refs[..] == old(refs[..])[Slot(v) := Paused(old(refs[Slot(v)]))]
      ensures playingVideo.None? && mutedStates == old(mutedStates) && progress == old(progress)
    {
      ghost var before := refs[..];
      EndedKeepsConsistent(before, playingVideo, mutedStates, v);
      var k := Slot(v);
      refs[k] := Paused(refs[k]);
      playingVideo := None;
      assert refs[..] == before[k := Paused(before[k])];
    }
  }
}
