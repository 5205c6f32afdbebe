/** What one call of `mux` must do, and that no frame is left behind. */
module TransmuxerProgress {
  import opened Wrappers
  import opened Transmuxer

  // ---------------------------------------------------------------- media

  /** Tag `i` is the first that is supported. */
  predicate FirstFrame(tags: seq<Tag>, i: nat) {
    i < |tags| && Supported(tags[i]) && forall j :: 0 <= j < i ==> !Supported(tags[j])
  }

  predicate NoFrames(tags: seq<Tag>) {
    forall i :: 0 <= i < |tags| ==> !Supported(tags[i])
  }

  lemma {:induction false} MediaOfFirst(c: Codecs, framerate: FrameRate, s: State, i: nat)
    requires FirstFrame(s.tags, i)
    ensures MuxMedia(c, framerate, s) == Emit(c, framerate, s.(tags := s.tags[i + 1..]), s.tags[i])
    decreases i
  {
    if i > 0 {
      var popped := s.(tags := s.tags[1..]);
      assert popped.tags[i..] == s.tags[i + 1..];
      MediaOfFirst(c, framerate, popped, i - 1);
    }
  }

  lemma {:induction false} MediaOfNone(c: Codecs, framerate: FrameRate, s: State)
    requires NoFrames(s.tags)
    ensures MuxMedia(c, framerate, s) == (s.(tags := []), Nothing)
    decreases |s.tags|
  {
    if s.tags != [] {
      MediaOfNone(c, framerate, s.(tags := s.tags[1..]));
    } else {
      assert s == s.(tags := []);
    }
  }

  /** The ticks that a frame lasts. */
  function TicksOf(s: State, tag: Tag): nat
    requires s.settings.Some?
  {
    if tag.data.AudioFrame? then 1024 else Duration(s.settings.value.framerate, s.lastVideo, tag.timestamp)
  }

  /** After the init segment a call reports on the first supported tag of the queue and leaves what
      follows it; it fails exactly when the sample cannot be built, and then changes nothing else. */
  lemma MuxReportsFirstFrame(c: Codecs, s: State, i: nat)
    requires s.settings.Some? && FirstFrame(s.tags, i)
    ensures var (t, e) := MuxStep(c, s);
            && t.tags == s.tags[i + 1..]
            && (e.MediaSegment? || e.SampleFailed?) && e.tag == s.tags[i]
            && (e.MediaSegment? <==> c.sample(s.tags[i], TicksOf(s, s.tags[i])))
            && (e.MediaSegment? ==> e.duration == TicksOf(s, s.tags[i]) && (e.track.Audio? <==> s.tags[i].data.AudioFrame?))
            && (e.SampleFailed? ==> t == s.(tags := t.tags))
  {
    MediaOfFirst(c, s.settings.value.framerate, s, i);
  }

  lemma {:induction false} FindFirst(tags: seq<Tag>) returns (i: nat)
    requires !NoFrames(tags)
    ensures FirstFrame(tags, i)
    decreases |tags|
  {
    if Supported(tags[0]) {
      i := 0;
    } else {
      i := FindFirst(tags[1..]);
      i := i + 1;
      forall j | 0 <= j < i ensures !Supported(tags[j]) {
        assert j > 0 ==> tags[j] == tags[1..][j - 1];
      }
    }
  }

  /** `Nothing` comes exactly when no supported tag is queued, and the queue ends empty. */
  lemma MuxIsNothingExactly(c: Codecs, s: State)
    requires s.settings.Some?
    ensures MuxStep(c, s).1.Nothing? <==> NoFrames(s.tags)
    ensures NoFrames(s.tags) ==> MuxStep(c, s).0 == s.(tags := [])
  {
    if NoFrames(s.tags) {
      MediaOfNone(c, s.settings.value.framerate, s);
    } else {
      var i := FindFirst(s.tags);
      MuxReportsFirstFrame(c, s, i);
    }
  }

  // ---------------------------------------------------------------- the init segment

  datatype Kind = ForVideo | ForAudio | ForMetadata

  function Content(kind: Kind, tag: Tag): Option<seq<int>> {
    match (kind, tag.data)
    case (ForVideo, VideoHeader(config)) => Some(config)
    case (ForAudio, AudioHeader(config)) => Some(config)
    case (ForMetadata, MetaData(entries)) => Some(entries)
    case _ => None
  }

  /** `found` is the content of the last header of its kind in `tags`, if there is one. */
  ghost predicate IsLast(kind: Kind, tags: seq<Tag>, found: Option<seq<int>>) {
    if found.None? then forall i :: 0 <= i < |tags| ==> Content(kind, tags[i]).None?
    else exists i :: 0 <= i < |tags| && Content(kind, tags[i]) == found
                  && forall j :: i < j < |tags| ==> Content(kind, tags[j]).None?
  }

  ghost predicate AreLast(tags: seq<Tag>, h: Headers) {
    IsLast(ForVideo, tags, h.video) && IsLast(ForAudio, tags, h.audio) && IsLast(ForMetadata, tags, h.metadata)
  }

  lemma NoteLast(kind: Kind, tags: seq<Tag>, tag: Tag, found: Option<seq<int>>)
    requires IsLast(kind, tags, found)
    ensures IsLast(kind, tags + [tag], if Content(kind, tag).Some? then Content(kind, tag) else found)
  {
    var more := tags + [tag];
    if Content(kind, tag).Some? {
      assert Content(kind, more[|tags|]) == Content(kind, tag);
    } else if found.Some? {
      var i :| 0 <= i < |tags| && Content(kind, tags[i]) == found && forall j :: i < j < |tags| ==> Content(kind, tags[j]).None?;
      assert Content(kind, more[i]) == found;
    }
  }

  lemma NoteAll(tags: seq<Tag>, tag: Tag, h: Headers)
    requires AreLast(tags, h)
    ensures AreLast(tags + [tag], Note(h, tag))
  {
    NoteLast(ForVideo, tags, tag, h.video);
    NoteLast(ForAudio, tags, tag, h.audio);
    NoteLast(ForMetadata, tags, tag, h.metadata);
  }

  predicate Has(kind: Kind, tags: seq<Tag>) {
    exists i :: 0 <= i < |tags| && Content(kind, tags[i]).Some?
  }

  predicate HasAll(tags: seq<Tag>) {
    Has(ForVideo, tags) && Has(ForAudio, tags) && Has(ForMetadata, tags)
  }

  lemma AllFoundMeans(tags: seq<Tag>, h: Headers)
    requires AreLast(tags, h)
    ensures AllFound(h) <==> HasAll(tags)
  {
  }

  /** The search from position `n` on, with the headers before it noted. */
  lemma {:induction false} FindsFrom(tags: seq<Tag>, n: nat, h: Headers) returns (end: nat)
    requires n <= |tags| && AreLast(tags[..n], h)
    ensures n <= end <= |tags| && AreLast(tags[..end], FindFrom(h, tags[n..]))
    ensures end < |tags| ==> HasAll(tags[..end])
    ensures forall k :: n <= k < end ==> !HasAll(tags[..k])
    decreases |tags| - n
  {
    end := n;
    AllFoundMeans(tags[..n], h);
    if n < |tags| && !AllFound(h) {
      assert tags[n..][1..] == tags[n + 1..] && tags[..n] + [tags[n]] == tags[..n + 1];
      NoteAll(tags[..n], tags[n], h);
      end := FindsFrom(tags, n + 1, Note(h, tags[n]));
    }
  }

  /** The search finds the last header of each kind in the shortest prefix of the queue that has all
      three, or in the whole queue. */
  lemma FindsLastHeaders(tags: seq<Tag>) returns (end: nat)
    ensures end <= |tags| && AreLast(tags[..end], Find(tags))
    ensures end < |tags| ==> HasAll(tags[..end])
    ensures forall k :: 0 <= k < end ==> !HasAll(tags[..k])
  {
    assert tags[0..] == tags && AreLast(tags[..0], NO_HEADERS);
    end := FindsFrom(tags, 0, NO_HEADERS);
  }

  /** Before the init segment the queue stays as it is; the segment comes exactly when both headers
      are queued and the codecs accept them. */
  lemma InitExactly(c: Codecs, s: State)
    requires s.settings.None?
    ensures var (t, e) := MuxStep(c, s);
            var h := Find(s.tags);
            if HasVideoHeader(s.tags) && HasAudioHeader(s.tags) then
              && h.video.Some? && h.audio.Some?
              && var made := c.init(h.video.value, h.audio.value, h.metadata);
                 && t == s.(settings := made)
                 && e == if made.Some? then InitSegment(made.value) else InitFailed
            else t == s && e == if |s.tags| > 30 then NoSequenceHeaders else Nothing
  {
    FindsHeadersExactly(s.tags);
  }

  // ---------------------------------------------------------------- whole runs

  function Muxes(n: nat): seq<Op> {
    seq(n, _ => Mux)
  }

  lemma {:induction false} NoFramesMeans(tags: seq<Tag>)
    ensures NoFrames(tags) <==> Frames(tags) == []
  {
    if tags != [] {
      NoFramesMeans(tags[..|tags| - 1]);
    }
  }

  /** One call reports one frame, if there is one. */
  lemma MuxTakesOneFrame(c: Codecs, s: State)
    requires s.settings.Some? && Frames(s.tags) != []
    ensures var (t, e) := MuxStep(c, s);
            t.settings == s.settings && |HandledBy(e)| == 1 && Frames(s.tags) == HandledBy(e) + Frames(t.tags)
  {
    var (t, e) := MuxStep(c, s);
    NoFramesMeans(s.tags);
    var i := FindFirst(s.tags);
    MuxReportsFirstFrame(c, s, i);
    MediaOfFirst(c, s.settings.value.framerate, s, i);
    TakesPrefix(c, s);
    var n := |s.tags| - |t.tags|;
    FramesAppend(s.tags[..n], s.tags[n..]);
    assert s.tags[..n] + s.tags[n..] == s.tags;
  }

  /** One call of `mux`, with its history. */
  function Muxed(c: Codecs): World -> World {
    w => Perform(c, w, Mux)
  }

  function Repeat(step: World -> World, w: World, n: nat): World {
    if n == 0 then w else step(Repeat(step, w, n - 1))
  }

  lemma {:induction false} RunRepeats(c: Codecs, ops: seq<Op>, n: nat)
    ensures Run(c, ops + Muxes(n)) == Repeat(Muxed(c), Run(c, ops), n)
  {
    if n == 0 {
      assert ops + Muxes(n) == ops;
    } else {
      RunRepeats(c, ops, n - 1);
      var all := ops + Muxes(n);
      assert all[..|all| - 1] == ops + Muxes(n - 1) && all[|all| - 1] == Mux;
      assert Run(c, all) == Muxed(c)(Run(c, all[..|all| - 1]));
    }
  }

  /** Event `e` reports the first frame of the queue of `w`. */
  ghost predicate Reported(w: World, e: Event, t: World) {
    && t.log == w.log + [e] && Handled(t.log) == Handled(w.log) + HandledBy(e) && t.state.settings.Some?
    && |HandledBy(e)| == 1 && Frames(w.state.tags) == HandledBy(e) + Frames(t.state.tags)
  }

  lemma ReportsOne(c: Codecs, w: World) returns (e: Event)
    requires w.state.settings.Some? && Frames(w.state.tags) != []
    ensures Reported(w, e, Muxed(c)(w))
  {
    e := MuxStep(c, w.state).1;
    MuxTakesOneFrame(c, w.state);
    assert (w.log + [e])[..|w.log|] == w.log;
  }

  /** After `n` calls the first `n` frames are reported. */
  ghost predicate Drained(w: World, n: nat, t: World) {
    && n <= |Frames(w.state.tags)| && |t.log| == |w.log| + n && t.state.settings.Some?
    && Handled(t.log) == Handled(w.log) + Frames(w.state.tags)[..n] && Frames(t.state.tags) == Frames(w.state.tags)[n..]
  }

  lemma DrainedStep(w: World, n: nat, t: World, e: Event, u: World)
    requires Drained(w, n, t) && n < |Frames(w.state.tags)| && Reported(t, e, u)
    ensures Drained(w, n + 1, u)
  {
    NextOfFrames(Frames(w.state.tags), n, Handled(w.log), HandledBy(e), Frames(u.state.tags));
  }

  lemma NextOfFrames(frames: seq<Tag>, n: nat, done: seq<Tag>, next: seq<Tag>, rest: seq<Tag>)
    requires n < |frames| && |next| == 1 && frames[n..] == next + rest
    ensures done + frames[..n] + next == done + frames[..n + 1] && rest == frames[n + 1..]
  {
    assert next == [frames[n]] && frames[n..][1..] == rest;
    assert frames[..n + 1] == frames[..n] + [frames[n]];
  }

  lemma {:induction false} Drains(c: Codecs, w: World, n: nat)
    requires w.state.settings.Some? && n <= |Frames(w.state.tags)|
    ensures Drained(w, n, Repeat(Muxed(c), w, n))
  {
    if n > 0 {
      Drains(c, w, n - 1);
      var t := Repeat(Muxed(c), w, n - 1);
      var e := ReportsOne(c, t);
      DrainedStep(w, n - 1, t, e, Muxed(c)(t));
    }
  }

  /** Once the init segment is out, as many calls as there are supported tags in the queue report on
      each of them, one a call; then every supported tag that was ever fed in has been reported
      exactly once, in order, and the next call returns nothing and leaves the queue empty. */
  lemma EveryFrameIsReported(c: Codecs, ops: seq<Op>)
    requires Run(c, ops).state.settings.Some?
    ensures var n := |Frames(Run(c, ops).state.tags)|;
            var t, u := Run(c, ops + Muxes(n)), Run(c, ops + Muxes(n) + [Mux]);
            && |t.log| == |Run(c, ops).log| + n && Handled(t.log) == Frames(Fed(ops))
            && u.log == t.log + [Nothing] && u.state.tags == []
  {
    var w := Run(c, ops);
    var n := |Frames(w.state.tags)|;
    assert Frames(Fed(ops)) == Handled(w.log) + Frames(w.state.tags) by {
      QueueOrderIsKept(c, ops);
      FramesAppend(w.taken, w.state.tags);
    }
    Drains(c, w, n);
    RunRepeats(c, ops, n);
    NothingLeft(c, ops + Muxes(n));
  }

  lemma NothingLeft(c: Codecs, ops: seq<Op>)
    requires Run(c, ops).state.settings.Some? && Frames(Run(c, ops).state.tags) == []
    ensures var t, u := Run(c, ops), Run(c, ops + [Mux]); u.log == t.log + [Nothing] && u.state.tags == []
  {
    NoFramesMeans(Run(c, ops).state.tags);
    MuxIsNothingExactly(c, Run(c, ops).state);
    assert (ops + [Mux])[..|ops|] == ops;
  }

  /** A video frame with no timestamp to compare with, or one that goes backwards, lasts one frame. */
  lemma UntimedFramesLastOneFrame(c: Codecs, ops: seq<Op>, i: nat)
    requires i < |Run(c, ops).log| && Run(c, ops).log[i].MediaSegment? && Run(c, ops).log[i].track.Video?
    ensures var log := Run(c, ops).log;
            var last, now := LastOf(VideoTimes(log[..i])), log[i].tag.timestamp;
            last == 0 || now == 0 || now < last ==> log[i].duration == 1000
  {
    RunOk(c, ops);
    LogOkAt(Run(c, ops).log, i);
  }

  /** A gap that is not near the frame time lasts its own number of ticks, rounded down, and at most
      what 32 bits can say. */
  lemma LongGapsSaturate(framerate: FrameRate, last: nat, now: nat, ticks: real)
    requires 0 < last <= now && ticks == (now - last) as real * framerate
    requires !Within((now - last) as real, 1000.0 / framerate, 1.0)
    ensures ticks >= 4294967295.0 ==> Duration(framerate, last, now) == 0xffff_ffff
    ensures 0.0 <= ticks < 4294967295.0 ==>
              Duration(framerate, last, now) as real <= ticks < Duration(framerate, last, now) as real + 1.0
    ensures ticks < 0.0 ==> Duration(framerate, last, now) == 0
  {
    var delta := (now - last) as real;
    assert Within(delta, 1000.0 / framerate, 1.0) <==> Abs(delta - 1000.0 / framerate) <= 1.0;
  }
}
