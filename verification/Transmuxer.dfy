/** `Transmuxer` of crates/transmuxer/src/lib.rs. */
module Transmuxer {
  // A transmuxer is a queue of FLV tags, two track clocks and a sequence number.  Frame rates are
  // reals, the contents of boxes and packets are left abstract, and the codec helpers are functions
  // that may fail.

  import opened Wrappers

  // ---------------------------------------------------------------- data

  datatype Data =
    | VideoHeader(config: seq<int>)
    | AudioHeader(config: seq<int>)
    | MetaData(entries: seq<int>)
    | AudioFrame(payload: seq<int>)
    | VideoFrame(keyframe: bool, payload: seq<int>)
    | Other

  datatype Tag = Tag(timestamp: nat, data: Data)

  datatype Track = Video | Audio

  /** The settings of `init_sequence`; it rejects a frame rate of zero. */
  datatype Settings = Settings(framerate: FrameRate, details: seq<int>)

  type FrameRate = x: real | x != 0.0 witness 1.0

  /** The codec helpers: building an init segment and building a sample. */
  datatype Codecs = Codecs(init: (seq<int>, seq<int>, Option<seq<int>>) -> Option<Settings>, sample: (Tag, nat) -> bool)

  /** What a call to `mux` returns. */
  datatype Event =
    | Nothing
    | InitSegment(settings: Settings)
    | MediaSegment(track: Track, keyframe: bool, timestamp: nat, sequence: nat, duration: nat, tag: Tag)
    | NoSequenceHeaders
    | InitFailed
    | SampleFailed(tag: Tag)

  datatype State = State(
    audioClock: nat, videoClock: nat, sequence: nat, lastVideo: nat, settings: Option<Settings>, tags: seq<Tag>)

  const INITIAL := State(0, 0, 1, 0, None, [])

  // ---------------------------------------------------------------- the duration rule

  function Abs(x: real): real {
    if x < 0.0 then -x else x
  }

  const MAX_U32: nat := 0xffff_ffff

  /** A cast from `f64` to `u32` truncates and saturates. */
  function CastU32(x: real): nat {
    if x <= 0.0 then 0 else if x >= MAX_U32 as real then MAX_U32 else x.Floor
  }

  function Duration(framerate: FrameRate, last: nat, now: nat): nat {
    if last == 0 || now == 0 || now < last then 1000
    else
      var delta := (now - last) as real;
      if Abs(delta - 1000.0 / framerate) <= 1.0 then 1000 else CastU32(delta * framerate)
  }

  // ---------------------------------------------------------------- the headers

  datatype Headers = Headers(video: Option<seq<int>>, audio: Option<seq<int>>, metadata: Option<seq<int>>)

  const NO_HEADERS := Headers(None, None, None)

  predicate AllFound(h: Headers) {
    h.video.Some? && h.audio.Some? && h.metadata.Some?
  }

  function Note(h: Headers, tag: Tag): Headers {
    match tag.data
    case VideoHeader(config) => h.(video := Some(config))
    case AudioHeader(config) => h.(audio := Some(config))
    case MetaData(entries) => h.(metadata := Some(entries))
    case _ => h
  }

  /** The last header of each kind, up to the first place where all three kinds have been seen. */
  function FindFrom(h: Headers, tags: seq<Tag>): Headers
    decreases tags
  {
    if tags == [] || AllFound(h) then h else FindFrom(Note(h, tags[0]), tags[1..])
  }

  function Find(tags: seq<Tag>): Headers {
    FindFrom(NO_HEADERS, tags)
  }

  predicate HasVideoHeader(tags: seq<Tag>) {
    exists i :: 0 <= i < |tags| && tags[i].data.VideoHeader?
  }

  predicate HasAudioHeader(tags: seq<Tag>) {
    exists i :: 0 <= i < |tags| && tags[i].data.AudioHeader?
  }

  lemma {:induction false} FindFromExactly(h: Headers, tags: seq<Tag>)
    ensures FindFrom(h, tags).video.Some? && FindFrom(h, tags).audio.Some?
       <==> (h.video.Some? || HasVideoHeader(tags)) && (h.audio.Some? || HasAudioHeader(tags))
    decreases tags
  {
    if tags != [] && !AllFound(h) {
      FindFromExactly(Note(h, tags[0]), tags[1..]);
      assert HasVideoHeader(tags) <==> tags[0].data.VideoHeader? || HasVideoHeader(tags[1..]) by {
        if i :| 0 <= i < |tags| && tags[i].data.VideoHeader? && i > 0 {
          assert tags[1..][i - 1].data.VideoHeader?;
        }
      }
      assert HasAudioHeader(tags) <==> tags[0].data.AudioHeader? || HasAudioHeader(tags[1..]) by {
        if i :| 0 <= i < |tags| && tags[i].data.AudioHeader? && i > 0 {
          assert tags[1..][i - 1].data.AudioHeader?;
        }
      }
    }
  }

  /** Stopping early never hides a header: both are found exactly when both are queued. */
  lemma FindsHeadersExactly(tags: seq<Tag>)
    ensures Find(tags).video.Some? && Find(tags).audio.Some? <==> HasVideoHeader(tags) && HasAudioHeader(tags)
  {
    FindFromExactly(NO_HEADERS, tags);
  }

  // ---------------------------------------------------------------- one call

  predicate Supported(tag: Tag) {
    tag.data.AudioFrame? || tag.data.VideoFrame?
  }

  /** `mux` before the init segment. */
  function MuxInit(c: Codecs, s: State): (State, Event) {
    var h := Find(s.tags);
    if h.video.None? || h.audio.None? then (s, if |s.tags| > 30 then NoSequenceHeaders else Nothing)
    else
      var settings := c.init(h.video.value, h.audio.value, h.metadata);
      if settings.None? then (s, InitFailed)
      else (s.(settings := settings), InitSegment(settings.value))
  }

  /** A supported tag, already taken from the queue. */
  function Emit(c: Codecs, framerate: FrameRate, s: State, tag: Tag): (State, Event)
    requires Supported(tag)
  {
    var duration := if tag.data.AudioFrame? then 1024 else Duration(framerate, s.lastVideo, tag.timestamp);
    if !c.sample(tag, duration) then (s, SampleFailed(tag))
    else if tag.data.AudioFrame? then
      (s.(sequence := s.sequence + 1, audioClock := s.audioClock + duration),
       MediaSegment(Audio, false, s.audioClock, s.sequence, duration, tag))
    else
      (s.(sequence := s.sequence + 1, videoClock := s.videoClock + duration, lastVideo := tag.timestamp),
       MediaSegment(Video, tag.data.keyframe, s.videoClock, s.sequence, duration, tag))
  }

  /** `mux` after the init segment: unsupported tags are dropped. */
  function MuxMedia(c: Codecs, framerate: FrameRate, s: State): (State, Event)
    decreases |s.tags|
  {
    if s.tags == [] then (s, Nothing)
    else
      var tag, popped := s.tags[0], s.(tags := s.tags[1..]);
      if Supported(tag) then Emit(c, framerate, popped, tag) else MuxMedia(c, framerate, popped)
  }

  function MuxStep(c: Codecs, s: State): (State, Event) {
    if s.settings.None? then MuxInit(c, s) else MuxMedia(c, s.settings.value.framerate, s)
  }

  // ---------------------------------------------------------------- the object

  class Transmuxer {
    const codecs: Codecs
    var audioDuration: nat
    var videoDuration: nat
    var sequenceNumber: nat
    var lastVideoTimestamp: nat
    var settings: Option<Settings>
    var tags: seq<Tag>

    function Current(): State
      reads this
    {
      State(audioDuration, videoDuration, sequenceNumber, lastVideoTimestamp, settings, tags)
    }

    constructor (codecs: Codecs)
      ensures this.codecs == codecs && Current() == INITIAL
    {
      this.codecs := codecs;
      audioDuration, videoDuration, sequenceNumber, lastVideoTimestamp, settings, tags := 0, 0, 1, 0, None, [];
    }

    method AddTag(tag: Tag)
      modifies this
      ensures Current() == old(Current()).(tags := old(tags) + [tag])
    {
      tags := tags + [tag];
    }

    method FindTags() returns (h: Headers)
      ensures h == Find(tags)
    {
      h := NO_HEADERS;
      var i := 0;
      assert tags[0..] == tags;
      while i < |tags| && !AllFound(h)
        invariant 0 <= i <= |tags|
        invariant FindFrom(h, tags[i..]) == Find(tags)
      {
        assert tags[i..][1..] == tags[i + 1..];
        h := Note(h, tags[i]);
        i := i + 1;
      }
    }

    method InitSequence() returns (event: Event)
      requires settings.None?
      modifies this
      ensures (Current(), event) == MuxInit(codecs, old(Current()))
    {
      var h := FindTags();
      if h.video.None? || h.audio.None? {
        return if |tags| > 30 then NoSequenceHeaders else Nothing;
      }
      var made := codecs.init(h.video.value, h.audio.value, h.metadata);
      if made.None? {
        return InitFailed;
      }
      settings := made;
      event := InitSegment(made.value);
    }

    method Write(framerate: FrameRate, tag: Tag) returns (event: Event)
      requires Supported(tag)
      modifies this
      ensures (Current(), event) == Emit(codecs, framerate, old(Current()), tag)
    {
      var isAudio := tag.data.AudioFrame?;
      var duration := if isAudio then 1024 else Duration(framerate, lastVideoTimestamp, tag.timestamp);
      if !codecs.sample(tag, duration) {
        return SampleFailed(tag);
      }
      var sequence := sequenceNumber;
      sequenceNumber := sequenceNumber + 1;
      if isAudio {
        audioDuration := audioDuration + duration;
        event := MediaSegment(Audio, false, audioDuration - duration, sequence, duration, tag);
      } else {
        videoDuration := videoDuration + duration;
        lastVideoTimestamp := tag.timestamp;
        event := MediaSegment(Video, tag.data.keyframe, videoDuration - duration, sequence, duration, tag);
      }
    }

    method Mux() returns (event: Event)
      modifies this
      ensures (Current(), event) == MuxStep(codecs, old(Current()))
    {
      if settings.None? {
        event := InitSequence();
        return;
      }
      var framerate := settings.value.framerate;
      while tags != []
        invariant settings == old(settings)
        invariant MuxMedia(codecs, framerate, Current()) == MuxMedia(codecs, framerate, old(Current()))
        decreases |tags|
      {
        var tag := tags[0];
        tags := tags[1..];
        if Supported(tag) {
          event := Write(framerate, tag);
          return;
        }
      }
      event := Nothing;
    }
  }

  // ---------------------------------------------------------------- runs

  datatype Op = Add(tag: Tag) | Mux

  /** A state with its history: the tags fed in, the tags taken out, and the events. */
  datatype World = World(state: State, added: seq<Tag>, taken: seq<Tag>, log: seq<Event>)

  const START := World(INITIAL, [], [], [])

  function Perform(c: Codecs, w: World, op: Op): World {
    match op
    case Add(tag) => w.(state := w.state.(tags := w.state.tags + [tag]), added := w.added + [tag])
    case Mux =>
      var (s, e) := MuxStep(c, w.state);
      TakesPrefix(c, w.state);
      var n := |w.state.tags| - |s.tags|;
      World(s, w.added, w.taken + w.state.tags[..n], w.log + [e])
  }

  /** Any sequence of calls on a new transmuxer. */
  function Run(c: Codecs, ops: seq<Op>): World {
    if ops == [] then START else Perform(c, Run(c, ops[..|ops| - 1]), ops[|ops| - 1])
  }

  function Frames(tags: seq<Tag>): seq<Tag> {
    if tags == [] then []
    else Frames(tags[..|tags| - 1]) + if Supported(tags[|tags| - 1]) then [tags[|tags| - 1]] else []
  }

  /** What an event says about the tag it handled. */
  function HandledBy(e: Event): seq<Tag> {
    if e.MediaSegment? || e.SampleFailed? then [e.tag] else []
  }

  /** The tags that media segments and failures were made of. */
  function Handled(log: seq<Event>): seq<Tag> {
    if log == [] then [] else Handled(log[..|log| - 1]) + HandledBy(log[|log| - 1])
  }

  lemma {:induction false} FramesAppend(a: seq<Tag>, b: seq<Tag>)
    ensures Frames(a + b) == Frames(a) + Frames(b)
  {
    if b == [] {
      assert a + b == a;
    } else {
      var n := |b| - 1;
      assert (a + b)[..|a| + n] == a + b[..n];
      FramesAppend(a, b[..n]);
    }
  }

  /** `mux` takes a prefix of the queue whose only supported tag is the one it reports on. */
  lemma {:induction false} TakesPrefixOfMedia(c: Codecs, framerate: FrameRate, s: State)
    ensures var (t, e) := MuxMedia(c, framerate, s); |t.tags| <= |s.tags|
    ensures var (t, e) := MuxMedia(c, framerate, s);
            var n := |s.tags| - |t.tags|;
            t.tags == s.tags[n..] && Frames(s.tags[..n]) == HandledBy(e)
    decreases |s.tags|
  {
    if s.tags != [] {
      var popped := s.(tags := s.tags[1..]);
      if Supported(s.tags[0]) {
        assert s.tags[..1] == [s.tags[0]] && [s.tags[0]][..0] == [];
      } else {
        TakesPrefixOfMedia(c, framerate, popped);
        var n := |s.tags| - |MuxMedia(c, framerate, s).0.tags|;
        assert s.tags[..n] == [s.tags[0]] + popped.tags[..n - 1];
        FramesAppend([s.tags[0]], popped.tags[..n - 1]);
        assert [s.tags[0]][..0] == [];
      }
    }
  }

  lemma TakesPrefix(c: Codecs, s: State)
    ensures var (t, e) := MuxStep(c, s); |t.tags| <= |s.tags|
    ensures var (t, e) := MuxStep(c, s);
            var n := |s.tags| - |t.tags|;
            t.tags == s.tags[n..] && Frames(s.tags[..n]) == HandledBy(e)
  {
    if s.settings.Some? {
      TakesPrefixOfMedia(c, s.settings.value.framerate, s);
    }
  }

  // ---------------------------------------------------------------- what a log says

  function Medias(log: seq<Event>): (r: seq<Event>)
    ensures forall i :: 0 <= i < |r| ==> r[i].MediaSegment?
  {
    if log == [] then []
    else
      var e := log[|log| - 1];
      Medias(log[..|log| - 1]) + if e.MediaSegment? then [e] else []
  }

  function OnTrack(log: seq<Event>, track: Track): (r: seq<Event>)
    ensures forall i :: 0 <= i < |r| ==> r[i].MediaSegment? && r[i].track == track
  {
    if log == [] then []
    else
      var e := log[|log| - 1];
      OnTrack(log[..|log| - 1], track) + if e.MediaSegment? && e.track == track then [e] else []
  }

  /** The sum of the durations of media segments. */
  function Total(segments: seq<Event>): nat
    requires forall i :: 0 <= i < |segments| ==> segments[i].MediaSegment?
  {
    if segments == [] then 0 else Total(segments[..|segments| - 1]) + segments[|segments| - 1].duration
  }

  /** The timestamps of the tags behind media segments. */
  function Times(segments: seq<Event>): (r: seq<nat>)
    requires forall i :: 0 <= i < |segments| ==> segments[i].MediaSegment?
    ensures |r| == |segments|
  {
    if segments == [] then [] else Times(segments[..|segments| - 1]) + [segments[|segments| - 1].tag.timestamp]
  }

  function LastOf(times: seq<nat>): nat {
    if times == [] then 0 else times[|times| - 1]
  }

  function VideoTimes(log: seq<Event>): seq<nat> {
    Times(OnTrack(log, Video))
  }

  function Started(log: seq<Event>): Option<Settings> {
    if log == [] then None
    else
      var e := log[|log| - 1];
      if e.InitSegment? then Some(e.settings) else Started(log[..|log| - 1])
  }

  /** What an event after `log` has to be. */
  predicate EventOk(log: seq<Event>, e: Event) {
    match e
    case MediaSegment(track, keyframe, timestamp, sequence, duration, tag) =>
      && Started(log).Some?
      && sequence == |Medias(log)| + 1
      && timestamp == Total(OnTrack(log, track))
      && (if track.Audio? then
            tag.data.AudioFrame? && !keyframe && duration == 1024
          else
            && tag.data.VideoFrame? && keyframe == tag.data.keyframe
            && duration == Duration(Started(log).value.framerate, LastOf(VideoTimes(log)), tag.timestamp))
    case SampleFailed(_) => Started(log).Some?
    case Nothing => true
    case _ => Started(log).None?
  }

  predicate LogOk(log: seq<Event>) {
    log == [] || (LogOk(log[..|log| - 1]) && EventOk(log[..|log| - 1], log[|log| - 1]))
  }

  lemma {:induction false} LogOkAt(log: seq<Event>, i: nat)
    requires LogOk(log) && i < |log|
    ensures EventOk(log[..i], log[i])
  {
    var n := |log| - 1;
    if i < n {
      LogOkAt(log[..n], i);
      assert log[..n][..i] == log[..i];
    }
  }

  /** The inductive invariant of every run. */
  ghost predicate Inv(w: World) {
    && w.added == w.taken + w.state.tags
    && Handled(w.log) == Frames(w.taken)
    && LogOk(w.log)
    && Agrees(w.state, w.log)
  }

  /** The fields of the object, read off the log. */
  predicate Agrees(s: State, log: seq<Event>) {
    && s.settings == Started(log)
    && s.sequence == |Medias(log)| + 1
    && s.videoClock == Total(OnTrack(log, Video)) && s.audioClock == Total(OnTrack(log, Audio))
    && s.lastVideo == LastOf(VideoTimes(log))
  }

  lemma EmitOk(c: Codecs, framerate: FrameRate, s: State, tag: Tag, log: seq<Event>)
    requires Supported(tag) && Agrees(s, log) && s.settings.Some? && framerate == s.settings.value.framerate
    ensures var (t, e) := Emit(c, framerate, s, tag); EventOk(log, e) && Agrees(t, log + [e])
  {
    AppendOk(s, log, Emit(c, framerate, s, tag).1);
  }

  lemma {:induction false} MediaStepOk(c: Codecs, s: State, framerate: FrameRate, log: seq<Event>)
    requires Agrees(s, log) && s.settings.Some? && framerate == s.settings.value.framerate
    ensures var (t, e) := MuxMedia(c, framerate, s); EventOk(log, e) && Agrees(t, log + [e])
    decreases |s.tags|
  {
    if s.tags == [] {
      AppendOk(s, log, Nothing);
    } else if Supported(s.tags[0]) {
      EmitOk(c, framerate, s.(tags := s.tags[1..]), s.tags[0], log);
    } else {
      MediaStepOk(c, s.(tags := s.tags[1..]), framerate, log);
    }
  }

  lemma TrackAppend(log: seq<Event>, e: Event, track: Track)
    ensures !(e.MediaSegment? && e.track == track) ==> OnTrack(log + [e], track) == OnTrack(log, track)
    ensures e.MediaSegment? && e.track == track ==>
              && OnTrack(log + [e], track) == OnTrack(log, track) + [e]
              && Total(OnTrack(log + [e], track)) == Total(OnTrack(log, track)) + e.duration
              && Times(OnTrack(log + [e], track)) == Times(OnTrack(log, track)) + [e.tag.timestamp]
  {
    assert (log + [e])[..|log|] == log;
    var segments := OnTrack(log, track);
    if e.MediaSegment? && e.track == track {
      assert (segments + [e])[..|segments|] == segments;
    } else {
      assert segments + [] == segments;
    }
  }

  lemma LogAppend(log: seq<Event>, e: Event)
    ensures |Medias(log + [e])| == |Medias(log)| + if e.MediaSegment? then 1 else 0
    ensures Started(log + [e]) == if e.InitSegment? then Some(e.settings) else Started(log)
  {
    assert (log + [e])[..|log|] == log;
  }

  lemma AppendOk(s: State, log: seq<Event>, e: Event)
    requires Agrees(s, log)
    ensures var t := s.(settings := if e.InitSegment? then Some(e.settings) else s.settings);
            !e.MediaSegment? ==> Agrees(t, log + [e])
    ensures e.MediaSegment? && e.track.Audio? ==>
              Agrees(s.(sequence := s.sequence + 1, audioClock := s.audioClock + e.duration), log + [e])
    ensures e.MediaSegment? && e.track.Video? ==>
              Agrees(s.(sequence := s.sequence + 1, videoClock := s.videoClock + e.duration, lastVideo := e.tag.timestamp),
                     log + [e])
  {
    LogAppend(log, e);
    TrackAppend(log, e, Video);
    TrackAppend(log, e, Audio);
  }

  lemma StepOk(c: Codecs, s: State, log: seq<Event>)
    requires Agrees(s, log)
    ensures var (t, e) := MuxStep(c, s); EventOk(log, e) && Agrees(t, log + [e])
  {
    if s.settings.Some? {
      MediaStepOk(c, s, s.settings.value.framerate, log);
    } else {
      AppendOk(s, log, MuxInit(c, s).1);
    }
  }

  lemma LogOkAppend(log: seq<Event>, e: Event)
    requires LogOk(log) && EventOk(log, e)
    ensures LogOk(log + [e])
  {
    assert (log + [e])[..|log|] == log;
  }

  lemma HandledKept(c: Codecs, w: World)
    requires Handled(w.log) == Frames(w.taken)
    ensures var (s, e) := MuxStep(c, w.state);
            |s.tags| <= |w.state.tags| && Handled(w.log + [e]) == Frames(w.taken + w.state.tags[..|w.state.tags| - |s.tags|])
  {
    var (s, e) := MuxStep(c, w.state);
    TakesPrefix(c, w.state);
    FramesAppend(w.taken, w.state.tags[..|w.state.tags| - |s.tags|]);
    assert (w.log + [e])[..|w.log|] == w.log;
  }

  lemma LogKept(c: Codecs, w: World)
    requires LogOk(w.log) && Agrees(w.state, w.log)
    ensures var (s, e) := MuxStep(c, w.state); LogOk(w.log + [e]) && Agrees(s, w.log + [e])
  {
    StepOk(c, w.state, w.log);
    LogOkAppend(w.log, MuxStep(c, w.state).1);
  }

  lemma TagsKept(c: Codecs, w: World)
    requires w.added == w.taken + w.state.tags
    ensures var w' := Perform(c, w, Mux); w'.added == w'.taken + w'.state.tags
  {
    var (s, e) := MuxStep(c, w.state);
    var n := |w.state.tags| - |s.tags|;
    TakesPrefix(c, w.state);
    assert w.taken + w.state.tags == (w.taken + w.state.tags[..n]) + s.tags;
  }

  lemma MuxOk(c: Codecs, w: World)
    requires Inv(w)
    ensures Inv(Perform(c, w, Mux))
  {
    var (s, e) := MuxStep(c, w.state);
    var t := Perform(c, w, Mux);
    TakesPrefix(c, w.state);
    assert t.state == s && t.log == w.log + [e] && t.taken == w.taken + w.state.tags[..|w.state.tags| - |s.tags|];
    assert t.added == t.taken + t.state.tags by {
      TagsKept(c, w);
    }
    assert Handled(t.log) == Frames(t.taken) by {
      HandledKept(c, w);
    }
    assert LogOk(t.log) && Agrees(t.state, t.log) by {
      LogKept(c, w);
    }
  }

  lemma AddOk(c: Codecs, w: World, tag: Tag)
    requires Inv(w)
    ensures Inv(Perform(c, w, Add(tag)))
  {
    var t := Perform(c, w, Add(tag));
    assert t.added == t.taken + t.state.tags;
    assert Agrees(t.state, t.log);
  }

  lemma PerformOk(c: Codecs, w: World, op: Op)
    requires Inv(w)
    ensures Inv(Perform(c, w, op))
  {
    match op
    case Add(tag) => AddOk(c, w, tag);
    case Mux => MuxOk(c, w);
  }

  /** Every run keeps the invariant. */
  lemma {:induction false} RunOk(c: Codecs, ops: seq<Op>)
    ensures Inv(Run(c, ops))
  {
    if ops != [] {
      RunOk(c, ops[..|ops| - 1]);
      PerformOk(c, Run(c, ops[..|ops| - 1]), ops[|ops| - 1]);
    }
  }

  // ---------------------------------------------------------------- segments

  lemma {:induction false} StartedMeans(log: seq<Event>)
    ensures Started(log).Some? <==> exists i :: 0 <= i < |log| && log[i].InitSegment?
  {
    if log != [] {
      var n := |log| - 1;
      StartedMeans(log[..n]);
      if i :| 0 <= i < n && log[i].InitSegment? {
        assert log[..n][i].InitSegment?;
      }
    }
  }

  lemma StartedBy(log: seq<Event>, i: nat, j: nat)
    requires LogOk(log) && i < j <= |log| && (log[i].InitSegment? || log[i].MediaSegment?)
    ensures Started(log[..j]).Some?
  {
    StartedMeans(log[..j]);
    if log[i].InitSegment? {
      assert log[..j][i].InitSegment?;
    } else {
      var k := InitBefore(log, i);
      assert log[..j][k].InitSegment?;
    }
  }

  lemma InitBefore(log: seq<Event>, j: nat) returns (i: nat)
    requires LogOk(log) && j < |log| && log[j].MediaSegment?
    ensures i < j && log[i].InitSegment?
  {
    LogOkAt(log, j);
    StartedMeans(log[..j]);
    i :| 0 <= i < j && log[..j][i].InitSegment?;
  }

  /** At most one init segment is emitted, and it precedes all media. */
  lemma InitOnceAndFirst(c: Codecs, ops: seq<Op>)
    ensures var log := Run(c, ops).log;
            && (forall i, j :: 0 <= i < j < |log| && log[j].InitSegment? ==> !log[i].InitSegment? && !log[i].MediaSegment?)
            && (forall j :: 0 <= j < |log| && log[j].MediaSegment? ==> exists i :: 0 <= i < j && log[i].InitSegment?)
  {
    RunOk(c, ops);
    var log := Run(c, ops).log;
    forall j | 0 <= j < |log| && log[j].MediaSegment? ensures exists i :: 0 <= i < j && log[i].InitSegment? {
      var i := InitBefore(log, j);
    }
    forall i, j | 0 <= i < j < |log| && log[j].InitSegment? ensures !log[i].InitSegment? && !log[i].MediaSegment? {
      LogOkAt(log, j);
      if log[i].InitSegment? || log[i].MediaSegment? {
        StartedBy(log, i, j);
      }
    }
  }

  lemma {:induction false} Numbered(log: seq<Event>)
    requires LogOk(log)
    ensures forall i :: 0 <= i < |Medias(log)| ==> Medias(log)[i].sequence == i + 1
  {
    if log != [] {
      Numbered(log[..|log| - 1]);
    }
  }

  /** The i-th media segment, counting from one, has sequence number i. */
  lemma MediaAreNumbered(c: Codecs, ops: seq<Op>)
    ensures var media := Medias(Run(c, ops).log); forall i :: 0 <= i < |media| ==> media[i].sequence == i + 1
  {
    RunOk(c, ops);
    Numbered(Run(c, ops).log);
  }

  /** Every segment starts at the sum of the durations before it. */
  predicate Seamless(segments: seq<Event>)
    requires forall i :: 0 <= i < |segments| ==> segments[i].MediaSegment?
  {
    forall i :: 0 <= i < |segments| ==> segments[i].timestamp == Total(segments[..i])
  }

  lemma SeamlessAppend(segments: seq<Event>, e: Event)
    requires forall i :: 0 <= i < |segments| ==> segments[i].MediaSegment?
    requires Seamless(segments) && e.MediaSegment? && e.timestamp == Total(segments)
    ensures Seamless(segments + [e])
  {
    var more := segments + [e];
    forall i | 0 <= i < |more| ensures more[i].timestamp == Total(more[..i]) {
      assert more[..i] == segments[..i];
      assert i == |segments| ==> segments[..i] == segments;
    }
  }

  lemma {:induction false} RunningSum(log: seq<Event>, track: Track)
    requires LogOk(log)
    ensures Seamless(OnTrack(log, track))
  {
    if log != [] {
      var n := |log| - 1;
      RunningSum(log[..n], track);
      assert log[..n] + [log[n]] == log;
      TrackAppend(log[..n], log[n], track);
      if log[n].MediaSegment? && log[n].track == track {
        SeamlessAppend(OnTrack(log[..n], track), log[n]);
      }
    }
  }

  lemma NextStart(segments: seq<Event>, i: nat)
    requires forall i :: 0 <= i < |segments| ==> segments[i].MediaSegment?
    requires Seamless(segments) && 0 < i < |segments|
    ensures segments[i].timestamp == segments[i - 1].timestamp + segments[i - 1].duration
  {
    assert segments[..i][..i - 1] == segments[..i - 1];
    assert segments[i].timestamp == Total(segments[..i]);
    assert segments[i - 1].timestamp == Total(segments[..i - 1]);
  }

  /** Each track is seamless: its segments start at zero and each starts where the one before ends. */
  lemma TracksAreSeamless(c: Codecs, ops: seq<Op>, track: Track)
    ensures var segments := OnTrack(Run(c, ops).log, track);
            && Seamless(segments)
            && (forall i :: 0 < i < |segments| ==>
                  segments[i].timestamp == segments[i - 1].timestamp + segments[i - 1].duration)
  {
    RunOk(c, ops);
    var segments := OnTrack(Run(c, ops).log, track);
    RunningSum(Run(c, ops).log, track);
    forall i | 0 < i < |segments|
      ensures segments[i].timestamp == segments[i - 1].timestamp + segments[i - 1].duration
    {
      NextStart(segments, i);
    }
  }

  function Fed(ops: seq<Op>): seq<Tag> {
    if ops == [] then []
    else Fed(ops[..|ops| - 1]) + if ops[|ops| - 1].Add? then [ops[|ops| - 1].tag] else []
  }

  lemma {:induction false} AddedIsFed(c: Codecs, ops: seq<Op>)
    ensures Run(c, ops).added == Fed(ops)
  {
    if ops != [] {
      AddedIsFed(c, ops[..|ops| - 1]);
    }
  }

  /** Conservation and order: the tags fed in are those taken and those still queued, and the
      events report the supported tags among those taken, each once, in queue order. */
  lemma QueueOrderIsKept(c: Codecs, ops: seq<Op>)
    ensures var w := Run(c, ops); Fed(ops) == w.taken + w.state.tags && Handled(w.log) == Frames(w.taken)
  {
    RunOk(c, ops);
    AddedIsFed(c, ops);
  }

  // ---------------------------------------------------------------- the video clock

  function Rule(framerate: FrameRate): (nat, nat) -> nat {
    (last, now) => Duration(framerate, last, now)
  }

  /** A clock that advances by a rule on neighbouring timestamps. */
  function ClockBy(rule: (nat, nat) -> nat, times: seq<nat>): nat {
    if times == [] then 0
    else
      var n := |times| - 1;
      ClockBy(rule, times[..n]) + rule(LastOf(times[..n]), times[n])
  }

  /** The video clock after frames with the given timestamps, whatever else is interleaved. */
  function VideoClock(framerate: FrameRate, times: seq<nat>): nat {
    ClockBy(Rule(framerate), times)
  }

  lemma {:induction false} NotStarted(log: seq<Event>)
    requires LogOk(log) && Started(log).None?
    ensures OnTrack(log, Video) == []
  {
    if log != [] {
      NotStarted(log[..|log| - 1]);
    }
  }

  lemma {:induction false} ClockFollowsTimes(log: seq<Event>)
    requires LogOk(log) && Started(log).Some?
    ensures Total(OnTrack(log, Video)) == VideoClock(Started(log).value.framerate, VideoTimes(log))
  {
    var n := |log| - 1;
    assert log[..n] + [log[n]] == log;
    TrackAppend(log[..n], log[n], Video);
    if log[n].InitSegment? {
      NotStarted(log[..n]);
    } else {
      ClockFollowsTimes(log[..n]);
      var times := VideoTimes(log[..n]);
      if log[n].MediaSegment? && log[n].track.Video? {
        assert (times + [log[n].tag.timestamp])[..|times|] == times;
      }
    }
  }

  /** The video clock of a run depends on the frame rate and the video timestamps alone. */
  lemma RunClock(c: Codecs, ops: seq<Op>)
    requires Run(c, ops).state.settings.Some?
    ensures var w := Run(c, ops);
            w.state.videoClock == VideoClock(w.state.settings.value.framerate, VideoTimes(w.log))
  {
    RunOk(c, ops);
    ClockFollowsTimes(Run(c, ops).log);
  }

  /** The time of frame `k` of an evenly spaced stream, in milliseconds. */
  function FrameTime(framerate: FrameRate, origin: real, k: nat): real {
    origin + k as real * (1000.0 / framerate)
  }

  /** The timestamps are the frame times, rounded in any way whose errors span at most one
      millisecond; `slack` is 0 for rounding down and -1/2 for rounding to nearest. */
  predicate Rounded(framerate: FrameRate, origin: real, slack: real, times: seq<nat>) {
    forall k :: 0 <= k < |times| ==>
      var error := FrameTime(framerate, origin, k) - times[k] as real; slack <= error <= slack + 1.0
  }

  lemma NextFrameTime(framerate: FrameRate, origin: real, k: nat)
    ensures FrameTime(framerate, origin, k + 1) == FrameTime(framerate, origin, k) + 1000.0 / framerate
  {
  }

  /** The timestamp before frame `k`, zero for the first. */
  function Before(times: seq<nat>, k: nat): nat
    requires k < |times|
  {
    if k == 0 then 0 else times[k - 1]
  }

  lemma {:induction false} ConstantClock(rule: (nat, nat) -> nat, times: seq<nat>)
    requires forall k :: 0 <= k < |times| ==> rule(Before(times, k), times[k]) == 1000
    ensures ClockBy(rule, times) == 1000 * |times|
  {
    if times != [] {
      var n := |times| - 1;
      forall k | 0 <= k < n ensures rule(Before(times[..n], k), times[..n][k]) == 1000 {
        assert rule(Before(times, k), times[k]) == 1000;
      }
      ConstantClock(rule, times[..n]);
      assert rule(Before(times, n), times[n]) == 1000;
    }
  }

  lemma EvenClock(framerate: FrameRate, origin: real, slack: real, times: seq<nat>)
    requires Rounded(framerate, origin, slack, times)
    ensures VideoClock(framerate, times) == 1000 * |times|
  {
    forall k | 0 <= k < |times| ensures Rule(framerate)(Before(times, k), times[k]) == 1000 {
      if k > 0 {
        NextFrameTime(framerate, origin, k - 1);
      }
    }
    ConstantClock(Rule(framerate), times);
  }

  /** Evenly spaced frames, rounded to milliseconds, advance the clock by exactly 1000 each. */
  lemma EvenFramesAreExact(c: Codecs, ops: seq<Op>, origin: real, slack: real)
    requires var w := Run(c, ops);
             w.state.settings.Some? && Rounded(w.state.settings.value.framerate, origin, slack, VideoTimes(w.log))
    ensures Run(c, ops).state.videoClock == 1000 * |OnTrack(Run(c, ops).log, Video)|
  {
    RunClock(c, ops);
    EvenClock(Run(c, ops).state.settings.value.framerate, origin, slack, VideoTimes(Run(c, ops).log));
  }

  /** Rounding down and rounding to nearest are both covered. */
  lemma FloorsAndRoundsAreRounded(framerate: FrameRate, origin: real, times: seq<nat>)
    ensures (forall k :: 0 <= k < |times| ==> times[k] == FrameTime(framerate, origin, k).Floor)
            ==> Rounded(framerate, origin, 0.0, times)
    ensures (forall k :: 0 <= k < |times| ==> times[k] == (FrameTime(framerate, origin, k) + 0.5).Floor)
            ==> Rounded(framerate, origin, -0.5, times)
  {
  }

  function Max(a: real, b: real): real {
    if a < b then b else a
  }

  /** Positive timestamps in order, with frame durations that fit `u32`. */
  predicate Steady(framerate: FrameRate, times: seq<nat>) {
    && (forall k :: 0 <= k < |times| ==> times[k] > 0)
    && (forall k {:trigger Gap(times, k)} :: 0 < k < |times| ==>
          0.0 <= Gap(times, k) && Gap(times, k) * framerate < MAX_U32 as real + 1.0)
  }

  /** The time between frame `k` and the one before. */
  function Gap(times: seq<nat>, k: nat): real
    requires 0 < k < |times|
  {
    times[k] as real - times[k - 1] as real
  }

  /** Two clocks are at most `bound` apart. */
  predicate Within(a: real, b: real, bound: real) {
    a - b <= bound && b - a <= bound
  }

  lemma Expected(f: FrameRate)
    ensures f * (1000.0 / f) == 1000.0
  {
  }

  lemma NearExpected(f: real, delta: real, expected: real)
    requires f > 0.0 && f * expected == 1000.0 && Within(delta, expected, 1.0)
    ensures Within(1000.0, f * delta, f)
  {
    assert f * (delta - expected) == f * delta - f * expected;
    assert f * (1.0 - (delta - expected)) >= 0.0 && f * (1.0 + (delta - expected)) >= 0.0;
  }

  lemma CastBound(x: real)
    requires 0.0 <= x < MAX_U32 as real + 1.0
    ensures Within(CastU32(x) as real, x, 1.0)
  {
  }

  lemma StepDrift(framerate: FrameRate, last: nat, now: nat, delta: real)
    requires framerate > 0.0 && 0 < last <= now && delta == now as real - last as real
    requires delta * framerate < MAX_U32 as real + 1.0
    ensures Within(Duration(framerate, last, now) as real, framerate * delta, Max(framerate, 1.0))
  {
    assert (now - last) as real == delta;
    if Abs(delta - 1000.0 / framerate) <= 1.0 {
      Expected(framerate);
      NearExpected(framerate, delta, 1000.0 / framerate);
    } else {
      NotNegative(framerate, delta);
      CastBound(delta * framerate);
    }
  }

  lemma NotNegative(f: real, x: real)
    requires f > 0.0 && x >= 0.0
    ensures x * f >= 0.0
  {
  }

  /** `n` times `m`. */
  function Repeated(n: nat, m: real): real {
    if n == 0 then 0.0 else Repeated(n - 1, m) + m
  }

  lemma OneMore(x: real, m: real)
    ensures (x + 1.0) * m == x * m + m
  {
  }

  lemma {:induction false} RepeatedIsProduct(n: nat, m: real)
    ensures Repeated(n, m) == n as real * m
  {
    if n > 0 {
      RepeatedIsProduct(n - 1, m);
      OneMore((n - 1) as real, m);
    }
  }

  /** A clock whose steps miss the steps of `ideal` by at most `m` each. */
  lemma {:induction false} ErrorsAddUp(rule: (nat, nat) -> nat, ideal: nat -> real, m: real, times: seq<nat>)
    requires times != [] && rule(0, times[0]) == 1000
    requires forall k :: 0 < k < |times| ==>
               Within(rule(times[k - 1], times[k]) as real, ideal(times[k]) - ideal(times[k - 1]), m)
    ensures Within(ClockBy(rule, times) as real, 1000.0 + (ideal(times[|times| - 1]) - ideal(times[0])),
                   Repeated(|times| - 1, m))
  {
    var n := |times| - 1;
    if n > 0 {
      ErrorsAddUp(rule, ideal, m, times[..n]);
      assert LastOf(times[..n]) == times[n - 1];
    } else {
      assert times[..0] == [];
    }
  }

  /** The tick that a timestamp stands for. */
  function Ideal(framerate: real): nat -> real {
    t => framerate * t as real
  }

  lemma StepIsClose(framerate: FrameRate, times: seq<nat>, k: nat)
    requires framerate > 0.0 && Steady(framerate, times) && 0 < k < |times|
    ensures Within(Rule(framerate)(times[k - 1], times[k]) as real,
                   Ideal(framerate)(times[k]) - Ideal(framerate)(times[k - 1]), Max(framerate, 1.0))
  {
    var gap := Gap(times, k);
    StepDrift(framerate, times[k - 1], times[k], gap);
    IdealGap(framerate, times[k - 1], times[k], gap);
  }

  lemma IdealGap(framerate: real, last: nat, now: nat, gap: real)
    requires gap == now as real - last as real
    ensures Ideal(framerate)(now) - Ideal(framerate)(last) == framerate * gap
  {
    Distributes(framerate, now as real, last as real);
  }

  lemma Distributes(f: real, a: real, b: real)
    ensures f * (a - b) == f * a - f * b
  {
  }

  /** Where the clock should be after the last of the given frames. */
  function Target(framerate: real, times: seq<nat>): real
    requires times != []
  {
    1000.0 + framerate * (times[|times| - 1] as real - times[0] as real)
  }

  lemma TargetIsIdeal(framerate: real, times: seq<nat>)
    requires times != []
    ensures Target(framerate, times) == 1000.0 + (Ideal(framerate)(times[|times| - 1]) - Ideal(framerate)(times[0]))
  {
    Distributes(framerate, times[|times| - 1] as real, times[0] as real);
  }

  lemma Drift(framerate: FrameRate, times: seq<nat>, clock: nat)
    requires framerate > 0.0 && times != [] && Steady(framerate, times) && clock == VideoClock(framerate, times)
    ensures Within(clock as real, Target(framerate, times), Repeated(|times| - 1, Max(framerate, 1.0)))
  {
    forall k | 0 < k < |times|
      ensures Within(Rule(framerate)(times[k - 1], times[k]) as real,
                     Ideal(framerate)(times[k]) - Ideal(framerate)(times[k - 1]), Max(framerate, 1.0))
    {
      StepIsClose(framerate, times, k);
    }
    ErrorsAddUp(Rule(framerate), Ideal(framerate), Max(framerate, 1.0), times);
    TargetIsIdeal(framerate, times);
  }

  lemma WithinProduct(a: real, b: real, n: nat, m: real)
    requires Within(a, b, Repeated(n, m))
    ensures Within(a, b, n as real * m)
  {
    RepeatedIsProduct(n, m);
  }

  lemma DriftOfClock(framerate: FrameRate, times: seq<nat>, clock: nat)
    requires framerate > 0.0 && times != [] && Steady(framerate, times) && clock == VideoClock(framerate, times)
    ensures Within(clock as real, Target(framerate, times), (|times| - 1) as real * Max(framerate, 1.0))
  {
    Drift(framerate, times, clock);
    WithinProduct(clock as real, Target(framerate, times), |times| - 1, Max(framerate, 1.0));
  }

  /** The drift bound: for ordered positive timestamps the clock after n frames stays within
      (n - 1) * max(framerate, 1) ticks of the elapsed time, whatever audio is interleaved. */
  lemma DriftIsBounded(c: Codecs, ops: seq<Op>, framerate: FrameRate, times: seq<nat>)
    requires Run(c, ops).state.settings.Some? && framerate == Run(c, ops).state.settings.value.framerate > 0.0
    requires times == VideoTimes(Run(c, ops).log) && times != [] && Steady(framerate, times)
    ensures Within(Run(c, ops).state.videoClock as real, Target(framerate, times),
                   (|times| - 1) as real * Max(framerate, 1.0))
  {
    RunClock(c, ops);
    DriftOfClock(framerate, times, Run(c, ops).state.videoClock);
  }
}
