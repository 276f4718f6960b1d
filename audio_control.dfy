/** The AudioControl component: the tick loop's state (parity and the one
    stored timeout), its lifecycle triggers, the seek buttons, and the edits
    the component makes in place to the scene's shared list of audio tracks. */
module AudioControl {
  import opened Js
  import opened AudioTiming

  // ---------------------------------------------------------------------
  // Lifecycle rules

  /** `componentDidUpdate` restarts the loop (with `tickLoop(true)`) when the
      component should play, tick is now on, and either tick was off in the
      previous snapshot or the mode has just left scene mode. */
  predicate RestartsOnUpdate(prev: Audio, cur: Audio, startPlaying: bool)
    ensures RestartsOnUpdate(prev, cur, startPlaying) ==> startPlaying && cur.tick
    ensures RestartsOnUpdate(prev, cur, startPlaying) ==>
              prev.tick != cur.tick || prev.tickMode != cur.tickMode
    ensures startPlaying && cur.tick && !prev.tick ==> RestartsOnUpdate(prev, cur, startPlaying)
  {
    && ((cur.tick && !prev.tick) || (cur.tick && prev.tickMode == Scene && cur.tickMode != Scene))
    && startPlaying
  }

  /** In scene mode with tick on, a replaced and previously non-empty list of
      scene paths flips the parity. `replaced` is the identity test `!==`
      between the previous and the current path arrays. */
  predicate SceneFlips(cur: Audio, prevPaths: Option<seq<string>>, replaced: bool)
    ensures SceneFlips(cur, prevPaths, replaced) ==> cur.tickMode == Scene && cur.tick
  {
    cur.tick && cur.tickMode == Scene && prevPaths.Some? && |prevPaths.value| > 0 && replaced
  }

  /** An update that restarts the loop arms a timer exactly when the new mode
      is not scene mode; a scene-mode flip never has a timer to arm. */
  lemma RestartArmsUnlessScene(prev: Audio, cur: Audio, startPlaying: bool, e: Sample)
    requires ValidSample(e)
    requires RestartsOnUpdate(prev, cur, startPlaying)
    ensures NextTimer(cur, e).Some? <==> cur.tickMode != Scene
    ensures prev.tick && prev.tickMode == Scene ==> NextTimer(cur, e).Some?
  {
  }

  // ---------------------------------------------------------------------
  // The shared list of audio tracks

  /** The index of the first track with this id, or -1: both `find` and
      `map(a => a.id).indexOf` look the track up this way. */
  function IndexOfId(s: seq<Audio>, id: int): (i: int)
    ensures -1 <= i < |s|
    ensures i >= 0 ==> s[i].id == id && forall j :: 0 <= j < i ==> s[j].id != id
    ensures i == -1 <==> forall j :: 0 <= j < |s| ==> s[j].id != id
    decreases |s|
  {
    if s == [] then -1
    else if s[0].id == id then 0
    else
      var k := IndexOfId(s[1..], id);
      if k < 0 then -1 else k + 1
  }

  /** The three end-of-track behaviours that are switched on and off together. */
  datatype EndSwitch = Tick | StopAtEnd | NextSceneAtEnd

  function SwitchOn(a: Audio, key: EndSwitch): bool
  {
    match key
    case Tick => a.tick
    case StopAtEnd => a.stopAtEnd
    case NextSceneAtEnd => a.nextSceneAtEnd
  }

  /** At most one of `tick`, `stopAtEnd` and `nextSceneAtEnd` is on. */
  predicate AtMostOneSwitch(a: Audio)
  {
    && !(a.tick && a.stopAtEnd)
    && !(a.tick && a.nextSceneAtEnd)
    && !(a.stopAtEnd && a.nextSceneAtEnd)
  }

  /** `onAudioBoolInput` on one track: the key takes the checkbox value, and
      checking it turns the other two off. */
  function ApplySwitch(a: Audio, key: EndSwitch, checked: bool): (b: Audio)
    ensures SwitchOn(b, key) == checked
    ensures checked ==> forall k :: k != key ==> !SwitchOn(b, k)
    ensures !checked ==> forall k :: k != key ==> SwitchOn(b, k) == SwitchOn(a, k)
    ensures b == a.(tick := b.tick, stopAtEnd := b.stopAtEnd, nextSceneAtEnd := b.nextSceneAtEnd)
    ensures AtMostOneSwitch(a) ==> AtMostOneSwitch(b)
    ensures checked ==> AtMostOneSwitch(b)
  {
    var b := match key
      case Tick => a.(tick := checked)
      case StopAtEnd => a.(stopAtEnd := checked)
      case NextSceneAtEnd => a.(nextSceneAtEnd := checked);
    if key == Tick && checked then b.(stopAtEnd := !checked, nextSceneAtEnd := !checked)
    else if key == StopAtEnd && checked then b.(tick := !checked, nextSceneAtEnd := !checked)
    else if key == NextSceneAtEnd && checked then b.(tick := !checked, stopAtEnd := !checked)
    else b
  }

  /** The whole list after `onAudioBoolInput`: only the first track with the
      id changes. Without such a track the handler throws before it saves, so
      the list stays as it was. */
  function SetSwitch(s: seq<Audio>, id: int, key: EndSwitch, checked: bool): (r: seq<Audio>)
    ensures |r| == |s|
    ensures IndexOfId(s, id) < 0 ==> r == s
    ensures IndexOfId(s, id) >= 0 ==> r[IndexOfId(s, id)] == ApplySwitch(s[IndexOfId(s, id)], key, checked)
    ensures forall j :: 0 <= j < |s| && j != IndexOfId(s, id) ==> r[j] == s[j]
    ensures (forall j :: 0 <= j < |s| ==> AtMostOneSwitch(s[j])) ==>
              forall j :: 0 <= j < |r| ==> AtMostOneSwitch(r[j])
  {
    var i := IndexOfId(s, id);
    if i < 0 then s else s[i := ApplySwitch(s[i], key, checked)]
  }

  /** `Array.prototype.splice(start, 1)` on a list: a negative start counts
      from the end (clamped at 0), a start past the end removes nothing. */
  function SpliceOne<T>(s: seq<T>, start: int): (r: seq<T>)
    ensures |r| == if s == [] || start >= |s| then |s| else |s| - 1
    ensures 0 <= start < |s| ==> r == s[..start] + s[start + 1..]
    ensures -|s| <= start < 0 ==> r == s[..|s| + start] + s[|s| + start + 1..]
    ensures start < -|s| && s != [] ==> r == s[1..]
    ensures start >= |s| ==> r == s
  {
    var k := if start < 0 then (if |s| + start < 0 then 0 else |s| + start) else start;
    if k < |s| then s[..k] + s[k + 1..] else s
  }

  /** `onDeleteAudioTrack`: splice at the index of the first track with the
      id. When no track has the id the index is -1 and the LAST track goes. */
  function DeleteById(s: seq<Audio>, id: int): (r: seq<Audio>)
    ensures s == [] ==> r == []
    ensures s != [] ==> |r| == |s| - 1
    ensures IndexOfId(s, id) >= 0 ==>
              r == s[..IndexOfId(s, id)] + s[IndexOfId(s, id) + 1..]
    ensures IndexOfId(s, id) < 0 && s != [] ==> r == s[..|s| - 1]
  {
    SpliceOne(s, IndexOfId(s, id))
  }

  predicate UniqueIds(s: seq<Audio>)
  {
    forall j, k :: 0 <= j < |s| && 0 <= k < |s| && s[j].id == s[k].id ==> j == k
  }

  /** Removing the element at `i` keeps exactly the elements at the other
      positions. */
  lemma RemoveAtKeepsOthers<T>(s: seq<T>, i: int, x: T)
    requires 0 <= i < |s|
    ensures x in s[..i] + s[i + 1..] <==> exists j :: 0 <= j < |s| && j != i && s[j] == x
  {
    var r := s[..i] + s[i + 1..];
    if x in r {
      var j :| 0 <= j < |r| && r[j] == x;
      var src := if j < i then j else j + 1;
      assert s[src] == x;
    }
    if exists j :: 0 <= j < |s| && j != i && s[j] == x {
      var j :| 0 <= j < |s| && j != i && s[j] == x;
      if j < i {
        assert r[j] == x;
      } else {
        assert r[j - 1] == x;
      }
    }
  }

  /** With distinct ids, deleting a present id removes exactly the track with
      that id and keeps every other track. */
  lemma DeleteRemovesExactlyThatTrack(s: seq<Audio>, id: int, x: Audio)
    requires UniqueIds(s)
    requires exists j :: 0 <= j < |s| && s[j].id == id
    ensures x in DeleteById(s, id) <==> x in s && x.id != id
  {
    var i := IndexOfId(s, id);
    assert DeleteById(s, id) == s[..i] + s[i + 1..];
    RemoveAtKeepsOthers(s, i, x);
    if x in s && x.id != id {
      var j :| 0 <= j < |s| && s[j] == x;
      assert j != i;
    }
  }

  // ---------------------------------------------------------------------
  // Seek buttons

  /** Back ten seconds, never before the start. */
  function SeekBack(position: real): (p: real)
    ensures p >= 0.0 && p >= position - 10000.0
    ensures p == 0.0 || p == position - 10000.0
  {
    if position - 10000.0 < 0.0 then 0.0 else position - 10000.0
  }

  /** Forward ten seconds, never past the duration. */
  function SeekForward(position: real, duration: real): (p: real)
    ensures p <= duration && p <= position + 10000.0
    ensures p == duration || p == position + 10000.0
  {
    if position + 10000.0 > duration then duration else position + 10000.0
  }

  /** From a position inside the track, both buttons stay inside it. */
  lemma SeekStaysInTrack(position: real, duration: real)
    requires 0.0 <= position <= duration
    ensures 0.0 <= SeekBack(position) <= duration
    ensures 0.0 <= SeekForward(position, duration) <= duration
    ensures SeekBack(position) <= position <= SeekForward(position, duration)
  {
  }

  // ---------------------------------------------------------------------
  // The component instance

  /** One mounted AudioControl. `pending` is the live timeout, the one
      scheduled and not cancelled, `None` when no timer is pending; `snapshot` is the copy of the audio kept
      in `_audio`, `None` before mount; `audios` is the scene's track list. */
  class Control {
    var tick: bool
    var pending: Option<Number>
    var snapshot: Option<Audio>
    var position: real
    var duration: real
    var audios: seq<Audio>

    constructor (sceneAudios: seq<Audio>)
      ensures !tick && pending == None && snapshot == None
      ensures position == 0.0 && duration == 0.0
      ensures audios == sceneAudios
    {
      tick := false;
      pending := None;
      snapshot := None;
      position := 0.0;
      duration := 0.0;
      audios := sceneAudios;
    }

    /** One step of the loop: flip the parity unless starting, then store the
        next timeout or clear the stored one. */
    method TickLoop(audio: Audio, starting: bool, e: Sample)
      requires ValidSample(e)
      modifies this`tick, this`pending
      ensures tick == if starting then old(tick) else !old(tick)
      ensures pending == NextTimer(audio, e)
    {
      if !starting {
        tick := !tick;
      }
      if audio.tick {
        var timeout: Option<Number> := None;
        match audio.tickMode {
          case Random =>
            timeout := Some(Finite(RandomDelay(audio.tickMinDelay, audio.tickMaxDelay, e.random) as real));
          case Sin =>
            var level := SinLevel(audio.tickSinRate, e.now, e.sin);
            timeout := Some(Finite(SinDelay(audio.tickMinDelay, audio.tickMaxDelay, level) as real));
          case Constant =>
            timeout := Some(Finite(audio.tickDelay as real));
          case Bpm =>
            timeout := Some(BpmDelay(audio.bpm, audio.tickBPMMulti));
          case Scene =>
        }
        if timeout.Some? {
          pending := timeout;
          return;
        }
      }
      pending := None;
    }

    /** The stored timeout fires: the loop runs again, not starting. */
    method Fire(audio: Audio, e: Sample)
      requires ValidSample(e)
      modifies this`tick, this`pending
      ensures tick == !old(tick)
      ensures pending == NextTimer(audio, e)
    {
      TickLoop(audio, false, e);
    }

    /** `componentDidMount`: keep the snapshot and start the loop when the
        component should play. Starting never flips the parity. */
    method DidMount(audio: Audio, startPlaying: bool, e: Sample)
      requires ValidSample(e)
      modifies this`tick, this`pending, this`snapshot
      ensures snapshot == Some(audio)
      ensures tick == old(tick)
      ensures pending == if startPlaying then NextTimer(audio, e) else old(pending)
    {
      snapshot := Some(audio);
      if startPlaying {
        TickLoop(audio, true, e);
      }
    }

    /** `componentDidUpdate`: restart the loop or flip the parity, as the
        rules say, and take a new snapshot. The stored timeout is not cleared
        first: a restart overwrites it. */
    method DidUpdate(audio: Audio, startPlaying: bool, prevPaths: Option<seq<string>>, replaced: bool, e: Sample)
      requires ValidSample(e)
      requires snapshot.Some?
      modifies this`tick, this`pending, this`snapshot
      ensures pending == if RestartsOnUpdate(old(snapshot).value, audio, startPlaying)
                         then NextTimer(audio, e) else old(pending)
      ensures tick == if SceneFlips(audio, prevPaths, replaced) then !old(tick) else old(tick)
      ensures SceneFlips(audio, prevPaths, replaced) ==> pending == None || pending == old(pending)
      ensures snapshot == Some(audio)
    {
      var prev := snapshot.value;
      if RestartsOnUpdate(prev, audio, startPlaying) {
        TickLoop(audio, true, e);
      }
      if SceneFlips(audio, prevPaths, replaced) {
        tick := !tick;
      }
      snapshot := Some(audio);
    }

    /** `componentWillUnmount`: cancel the stored timeout, if any, so that no
        timer is pending. */
    method WillUnmount()
      modifies this`pending
      ensures pending == None
    {
      if pending != None {
        pending := None;
      }
    }

    /** `onAudioBoolInput` for the track with this id. `found` is false when
        no track has the id; the handler then fails before it saves. */
    method OnAudioBoolInput(id: int, key: EndSwitch, checked: bool) returns (found: bool)
      modifies this`audios
      ensures found <==> exists j :: 0 <= j < |old(audios)| && old(audios)[j].id == id
      ensures audios == SetSwitch(old(audios), id, key, checked)
    {
      var i := IndexOfId(audios, id);
      if i < 0 {
        return false;
      }
      found := true;
      audios := audios[i := ApplySwitch(audios[i], key, checked)];
    }

    /** `onDeleteAudioTrack` for the track with this id. */
    method OnDeleteAudioTrack(id: int)
      modifies this`audios
      ensures audios == DeleteById(old(audios), id)
    {
      audios := SpliceOne(audios, IndexOfId(audios, id));
    }

    /** `onChangePosition`: the position slider sets the position. */
    method OnChangePosition(value: real)
      modifies this`position
      ensures position == value
    {
      position := value;
    }

    /** `onPlaying`: the player reports its position and duration; each is
        taken only when it is reported and not 0 (a falsy value keeps the old
        one). `None` stands for a field the player leaves out. */
    method OnPlaying(soundPosition: Option<real>, soundDuration: Option<real>)
      modifies this`position, this`duration
      ensures position == if soundPosition.Some? && soundPosition.value != 0.0
                          then soundPosition.value else old(position)
      ensures duration == if soundDuration.Some? && soundDuration.value != 0.0
                          then soundDuration.value else old(duration)
    {
      var p := position;
      var d := duration;
      if soundPosition.Some? && !Falsy(Finite(soundPosition.value)) {
        p := soundPosition.value;
      }
      if soundDuration.Some? && !Falsy(Finite(soundDuration.value)) {
        d := soundDuration.value;
      }
      position := p;
      duration := d;
    }

    /** `onBack`. */
    method OnBack()
      modifies this`position
      ensures position == SeekBack(old(position))
    {
      var p := position - 10000.0;
      if p < 0.0 {
        p := 0.0;
      }
      position := p;
    }

    /** `onForward`. */
    method OnForward()
      modifies this`position
      ensures position == SeekForward(old(position), duration)
    {
      var p := position + 10000.0;
      if p > duration {
        p := duration;
      }
      position := p;
    }
  }
}
