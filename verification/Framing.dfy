/**
 Newline-delimited frames read from chunks of bytes, as the conformance monitor and the agent adapter both do:
 the same frames come out however the stream was cut.
 */
module Framing {
  import opened Sequences

  newtype byte = x: int | 0 <= x < 256

  const Newline: byte := 10

  type Frame = seq<byte>

  datatype Failure = StdoutLimit | FrameLimit | BadFrame

  /** `skipEmpty`: the adapter drops empty frames, the monitor hands them on. `accepts` judges the frames so
      far, the newest last. */
  datatype Rules = Rules(byteLimit: nat, frameLimit: nat, skipEmpty: bool, accepts: seq<Frame> -> bool)

  predicate Anything(frames: seq<Frame>) { true }

  datatype Reading = Reading(frames: seq<Frame>, rest: seq<byte>, failure: Option<Failure>)

  function IndexOf(s: seq<byte>, b: byte): (r: int)
    ensures -1 <= r < |s|
    ensures r >= 0 ==> s[r] == b && forall k :: 0 <= k < r ==> s[k] != b
    ensures r < 0 ==> b !in s
  {
    if s == [] then -1
    else if s[0] == b then 0
    else
      var r := IndexOf(s[1..], b);
      assert s == [s[0]] + s[1..];
      if r < 0 then -1 else
      assert forall k :: 1 <= k < r + 1 ==> s[k] == s[1..][k - 1];
      r + 1
  }

  function Taken(rules: Rules, frames: seq<Frame>, frame: Frame): seq<Frame> {
    if rules.skipEmpty && frame == [] then frames else frames + [frame]
  }

  predicate Takes(rules: Rules, frames: seq<Frame>, frame: Frame) {
    (rules.skipEmpty && frame == []) || rules.accepts(frames + [frame])
  }

  /** Take frames off `buffer` until no newline is left or something fails. The adapter has taken a frame off
      its buffer when it finds it too long. */
  function Drain(rules: Rules, frames: seq<Frame>, buffer: seq<byte>): Reading
    decreases |buffer|
  {
    var end := IndexOf(buffer, Newline);
    if end < 0 then Reading(frames, buffer, if |buffer| > rules.frameLimit then Some(FrameLimit) else None)
    else if end > rules.frameLimit then
      Reading(frames, if rules.skipEmpty then buffer[end + 1..] else buffer, Some(FrameLimit))
    else if !Takes(rules, frames, buffer[..end]) then Reading(frames, buffer[end + 1..], Some(BadFrame))
    else Drain(rules, Taken(rules, frames, buffer[..end]), buffer[end + 1..])
  }

  /** What a reader shows: its frames, why it stopped, and the rest it keeps while it has not. */
  ghost predicate Same(a: Reading, b: Reading) {
    a.frames == b.frames && a.failure == b.failure && (a.failure.None? ==> a.rest == b.rest)
  }

  class NdjsonReader {
    const rules: Rules
    var buffer: seq<byte>
    var bytes: nat
    var frames: seq<Frame>
    var failure: Option<Failure>

    ghost function Now(): Reading
      reads this
    {
      Reading(frames, buffer, failure)
    }

    constructor (rules: Rules)
      ensures this.rules == rules && bytes == 0 && Now() == Reading([], [], None)
    {
      this.rules := rules;
      buffer, bytes, frames, failure := [], 0, [], None;
    }

    method Receive(chunk: seq<byte>)
      modifies this
      ensures (Now(), bytes) == Received(rules, old(Now()), old(bytes), chunk)
    {
      if failure.Some? {
        return;
      }
      bytes := bytes + |chunk|;
      if bytes > rules.byteLimit {
        failure := Some(StdoutLimit);
        return;
      }
      buffer := buffer + chunk;
      ghost var goal := Drain(rules, frames, buffer);
      while true
        invariant failure.None? && Drain(rules, frames, buffer) == goal
        invariant bytes == old(bytes) + |chunk|
        decreases |buffer|
      {
        var end := IndexOf(buffer, Newline);
        if end < 0 {
          if |buffer| > rules.frameLimit {
            failure := Some(FrameLimit);
          }
          return;
        }
        if end > rules.frameLimit {
          if rules.skipEmpty {
            buffer := buffer[end + 1..];
          }
          failure := Some(FrameLimit);
          return;
        }
        var frame := buffer[..end];
        buffer := buffer[end + 1..];
        if !(rules.skipEmpty && frame == []) {
          if !rules.accepts(frames + [frame]) {
            failure := Some(BadFrame);
            return;
          }
          frames := frames + [frame];
        }
      }
    }

    /** The stream has ended: nothing may be left over. */
    method Seal() returns (ok: bool)
      ensures ok == (failure.None? && buffer == [])
    {
      ok := failure.None? && |buffer| == 0;
    }
  }

  /** One chunk, and the bytes counted so far. */
  function Received(rules: Rules, s: Reading, bytes: nat, chunk: seq<byte>): (Reading, nat) {
    if s.failure.Some? then (s, bytes)
    else if bytes + |chunk| > rules.byteLimit then (s.(failure := Some(StdoutLimit)), bytes + |chunk|)
    else (Drain(rules, s.frames, s.rest + chunk), bytes + |chunk|)
  }

  ghost function ReceivedAll(rules: Rules, s: Reading, bytes: nat, chunks: seq<seq<byte>>): Reading
    decreases |chunks|
  {
    if chunks == [] then s else
    var (t, n) := Received(rules, s, bytes, chunks[0]);
    ReceivedAll(rules, t, n, chunks[1..])
  }

  function Concat(chunks: seq<seq<byte>>): seq<byte> {
    if chunks == [] then [] else chunks[0] + Concat(chunks[1..])
  }

  // ---- chunk independence ----------------------------------------------------------------------

  lemma IndexIs(s: seq<byte>, r: nat)
    requires r < |s| && s[r] == Newline && forall k :: 0 <= k < r ==> s[k] != Newline
    ensures IndexOf(s, Newline) == r
  {
    assert s[r] in s;
  }

  lemma IndexOfAppend(a: seq<byte>, b: seq<byte>)
    ensures IndexOf(a, Newline) >= 0 ==> IndexOf(a + b, Newline) == IndexOf(a, Newline)
    ensures IndexOf(a, Newline) < 0 && IndexOf(b, Newline) >= 0 ==> IndexOf(a + b, Newline) == |a| + IndexOf(b, Newline)
    ensures IndexOf(a, Newline) < 0 && IndexOf(b, Newline) < 0 ==> IndexOf(a + b, Newline) < 0
  {
    var i, j := IndexOf(a, Newline), IndexOf(b, Newline);
    if i >= 0 {
      IndexIs(a + b, i);
    } else if j >= 0 {
      assert forall k :: 0 <= k < |a| ==> (a + b)[k] == a[k] && a[k] != Newline;
      IndexIs(a + b, |a| + j);
    }
  }

  /** Draining what two chunks hold is draining the first, then the rest with the second. */
  lemma {:induction false} DrainSplits(rules: Rules, frames: seq<Frame>, a: seq<byte>, b: seq<byte>)
    ensures var first := Drain(rules, frames, a);
      if first.failure.Some? then
        Drain(rules, frames, a + b).failure == first.failure && Drain(rules, frames, a + b).frames == first.frames
      else Drain(rules, frames, a + b) == Drain(rules, first.frames, first.rest + b)
    decreases |a|
  {
    hide Drain, IndexOf;
    var end := IndexOf(a, Newline);
    IndexOfAppend(a, b);
    if end < 0 {
      OpenFrame(rules, frames, a, b);
    } else {
      TakenOff(a, b, end);
      DrainOnce(rules, frames, a, end);
      DrainOnce(rules, frames, a + b, end);
      if end <= rules.frameLimit && Takes(rules, frames, a[..end]) {
        DrainSplits(rules, Taken(rules, frames, a[..end]), a[end + 1..], b);
      }
    }
  }

  lemma TakenOff(a: seq<byte>, b: seq<byte>, end: nat)
    requires end < |a|
    ensures (a + b)[..end] == a[..end] && (a + b)[end + 1..] == a[end + 1..] + b
  {
  }

  /** One round of the loop, when there is a newline. */
  lemma DrainOnce(rules: Rules, frames: seq<Frame>, buffer: seq<byte>, end: nat)
    requires IndexOf(buffer, Newline) == end < |buffer|
    ensures end > rules.frameLimit ==>
      Drain(rules, frames, buffer).frames == frames && Drain(rules, frames, buffer).failure == Some(FrameLimit)
    ensures end <= rules.frameLimit && !Takes(rules, frames, buffer[..end]) ==>
      Drain(rules, frames, buffer).frames == frames && Drain(rules, frames, buffer).failure == Some(BadFrame)
    ensures end <= rules.frameLimit && Takes(rules, frames, buffer[..end]) ==>
      Drain(rules, frames, buffer) == Drain(rules, Taken(rules, frames, buffer[..end]), buffer[end + 1..])
  {
    hide IndexOf, Taken, Takes;
  }

  /** A buffer without a newline waits for more, or is too long already, whatever follows. */
  lemma OpenFrame(rules: Rules, frames: seq<Frame>, a: seq<byte>, b: seq<byte>)
    requires IndexOf(a, Newline) < 0
    ensures var first, both := Drain(rules, frames, a), Drain(rules, frames, a + b);
      if |a| > rules.frameLimit then
        first.failure == both.failure == Some(FrameLimit) && first.frames == both.frames
      else first == Reading(frames, a, None)
  {
    IndexOfAppend(a, b);
    hide IndexOf, Taken, Takes;
  }

  /** A drained buffer has nothing more to give. */
  lemma {:induction false} DrainedIsStable(rules: Rules, frames: seq<Frame>, buffer: seq<byte>)
    ensures var r := Drain(rules, frames, buffer);
      r.failure.None? ==>
        Drain(rules, r.frames, r.rest) == r && IndexOf(r.rest, Newline) < 0 && |r.rest| <= rules.frameLimit
    decreases |buffer|
  {
    hide Drain, IndexOf, Takes, Taken;
    var end := IndexOf(buffer, Newline);
    if end < 0 {
      OpenFrame(rules, frames, buffer, []);
    } else {
      DrainOnce(rules, frames, buffer, end);
      if end <= rules.frameLimit && Takes(rules, frames, buffer[..end]) {
        DrainedIsStable(rules, Taken(rules, frames, buffer[..end]), buffer[end + 1..]);
      }
    }
  }

  /** Any cut of a stream within the byte limit shows what reading it in one piece shows. */
  lemma {:induction false} CutsAgree(rules: Rules, s: Reading, bytes: nat, chunks: seq<seq<byte>>)
    requires s.failure.None? ==> Drain(rules, s.frames, s.rest) == s
    requires bytes + |Concat(chunks)| <= rules.byteLimit
    ensures s.failure.Some? ==> ReceivedAll(rules, s, bytes, chunks) == s
    ensures s.failure.None? ==>
      Same(ReceivedAll(rules, s, bytes, chunks), Drain(rules, s.frames, s.rest + Concat(chunks)))
    decreases |chunks|
  {
    hide Drain, IndexOf;
    if chunks == [] {
      assert s.rest + [] == s.rest;
    } else {
      var (t, n) := Received(rules, s, bytes, chunks[0]);
      if s.failure.None? {
        DrainedIsStable(rules, s.frames, s.rest + chunks[0]);
        DrainSplits(rules, s.frames, s.rest + chunks[0], Concat(chunks[1..]));
        assert s.rest + chunks[0] + Concat(chunks[1..]) == s.rest + Concat(chunks);
      }
      CutsAgree(rules, t, n, chunks[1..]);
    }
  }

  lemma ChunksDoNotMatter(rules: Rules, chunks: seq<seq<byte>>, others: seq<seq<byte>>)
    requires Concat(chunks) == Concat(others) && |Concat(chunks)| <= rules.byteLimit
    ensures Same(ReceivedAll(rules, Reading([], [], None), 0, chunks),
                 ReceivedAll(rules, Reading([], [], None), 0, others))
  {
    assert [] + Concat(chunks) == Concat(chunks);
    assert [] + Concat(others) == Concat(others);
    CutsAgree(rules, Reading([], [], None), 0, chunks);
    CutsAgree(rules, Reading([], [], None), 0, others);
  }

  /** The chunks up to the first that would exceed the byte limit. */
  function Fitting(limit: nat, bytes: nat, chunks: seq<seq<byte>>): seq<seq<byte>>
    decreases |chunks|
  {
    if chunks == [] || bytes + |chunks[0]| > limit then []
    else [chunks[0]] + Fitting(limit, bytes + |chunks[0]|, chunks[1..])
  }

  /** Beyond the limit the cut matters, exactly so: a chunk that exceeds the limit is dropped whole, with the
      frames it completes. */
  lemma {:induction false} BeyondTheLimit(rules: Rules, s: Reading, bytes: nat, chunks: seq<seq<byte>>)
    requires s.failure.None? ==> Drain(rules, s.frames, s.rest) == s
    ensures var fitting := Fitting(rules.byteLimit, bytes, chunks);
      var kept := ReceivedAll(rules, s, bytes, fitting);
      && ReceivedAll(rules, s, bytes, chunks).frames == kept.frames
      && ReceivedAll(rules, s, bytes, chunks).failure ==
           if kept.failure.None? && fitting != chunks then Some(StdoutLimit) else kept.failure
    decreases |chunks|
  {
    if chunks != [] {
      var (t, n) := Received(rules, s, bytes, chunks[0]);
      var rest := Fitting(rules.byteLimit, n, chunks[1..]);
      if s.failure.Some? {
        FailedStays(rules, s, bytes, chunks);
        FailedStays(rules, s, bytes, Fitting(rules.byteLimit, bytes, chunks));
      } else if n > rules.byteLimit {
        FailedStays(rules, t, n, chunks[1..]);
      } else {
        DrainedIsStable(rules, s.frames, s.rest + chunks[0]);
        BeyondTheLimit(rules, t, n, chunks[1..]);
        assert Fitting(rules.byteLimit, bytes, chunks) == [chunks[0]] + rest;
        assert ([chunks[0]] + rest)[1..] == rest;
        assert rest != chunks[1..] <==> [chunks[0]] + rest != chunks by {
          assert chunks == [chunks[0]] + chunks[1..];
          assert ([chunks[0]] + rest)[1..] == rest;
        }
      }
    }
  }

  lemma {:induction false} FailedStays(rules: Rules, s: Reading, bytes: nat, chunks: seq<seq<byte>>)
    requires s.failure.Some?
    ensures ReceivedAll(rules, s, bytes, chunks) == s
    decreases |chunks|
  {
    if chunks != [] {
      FailedStays(rules, s, bytes, chunks[1..]);
    }
  }

  /** The failing case: an acceptable frame, its newline, and more than the limit leaves room for, in one chunk
      or in two. */
  lemma CutsDifferBeyondTheLimit(rules: Rules, frame: Frame, more: seq<byte>)
    requires frame != [] && Newline !in frame && |frame| <= rules.frameLimit && rules.accepts([frame])
    requires |frame| < rules.byteLimit < |frame| + 1 + |more|
    ensures var s := Reading([], [], None); var line := frame + [Newline];
      && Concat([line + more]) == Concat([line, more])
      && ReceivedAll(rules, s, 0, [line + more]) == Reading([], [], Some(StdoutLimit))
      && ReceivedAll(rules, s, 0, [line, more]) == Reading([frame], [], Some(StdoutLimit))
  {
    hide Drain, IndexOf;
    var s, line := Reading([], [], None), frame + [Newline];
    assert [line, more][1..] == [more] && [line + more][1..] == [] && [more][1..] == [];
    assert Concat([line, more]) == line + (more + []) == line + more;
    FirstLine(frame, []);
    assert frame + [Newline] + [] == line && [] + line == line;
    DrainOnce(rules, [], line, |frame|);
    NothingMore(rules, [frame]);
    assert [] + [frame] == [frame];
    FailedStays(rules, Reading([], [], Some(StdoutLimit)), |line + more|, []);
    FailedStays(rules, Reading([frame], [], Some(StdoutLimit)), |line| + |more|, []);
    assert ReceivedAll(rules, Reading([frame], [], None), |line|, [more]) == Reading([frame], [], Some(StdoutLimit));
  }

  lemma NothingMore(rules: Rules, frames: seq<Frame>)
    ensures Drain(rules, frames, []) == Reading(frames, [], None)
  {
  }

  // ---- what the frames are ---------------------------------------------------------------------

  function Lines(frames: seq<Frame>): seq<byte> {
    if frames == [] then [] else Lines(frames[..|frames| - 1]) + frames[|frames| - 1] + [Newline]
  }

  /** Frames of a stream: no newline inside, none too long, and each followed by one. */
  ghost predicate Framed(limit: nat, frames: seq<Frame>) {
    forall f :: f in frames ==> Newline !in f && |f| <= limit
  }

  /** Reading everything: the frames followed by newlines, then the rest, make up the stream; and it fails on
      a frame exactly when the next newline is too far away. */
  lemma {:induction false} DrainIsSplitting(bytes: nat, limit: nat, frames: seq<Frame>, buffer: seq<byte>)
    requires Framed(limit, frames)
    ensures var r := Drain(Rules(bytes, limit, false, Anything), frames, buffer);
      && Framed(limit, r.frames) && Lines(r.frames) + r.rest == Lines(frames) + buffer
      && (r.failure.None? ==> Newline !in r.rest && |r.rest| <= limit)
      && (r.failure.Some? ==> r.failure == Some(FrameLimit) && |r.rest| > limit && Newline !in r.rest[..limit + 1])
    decreases |buffer|
  {
    hide Drain, IndexOf, Lines, Framed;
    var rules, end := Rules(bytes, limit, false, Anything), IndexOf(buffer, Newline);
    if 0 <= end <= limit {
      var frame := buffer[..end];
      LineTaken(limit, frames, buffer, end);
      DrainOnce(rules, frames, buffer, end);
      DrainIsSplitting(bytes, limit, frames + [frame], buffer[end + 1..]);
    } else {
      SplittingStops(rules, frames, buffer);
    }
  }

  lemma LineTaken(limit: nat, frames: seq<Frame>, buffer: seq<byte>, end: nat)
    requires Framed(limit, frames) && IndexOf(buffer, Newline) == end <= limit
    ensures Framed(limit, frames + [buffer[..end]])
    ensures Lines(frames + [buffer[..end]]) + buffer[end + 1..] == Lines(frames) + buffer
  {
    hide IndexOf, Lines;
    var frame := buffer[..end];
    LastLine(frames + [frame]);
    assert (frames + [frame])[..|frames|] == frames;
    assert buffer == frame + [Newline] + buffer[end + 1..];
    Regroup(Lines(frames), frame, [Newline], buffer[end + 1..]);
  }

  /** No newline soon enough: the whole buffer is left. */
  lemma SplittingStops(rules: Rules, frames: seq<Frame>, buffer: seq<byte>)
    requires !rules.skipEmpty
    requires var end := IndexOf(buffer, Newline); end < 0 || end > rules.frameLimit
    ensures var r := Drain(rules, frames, buffer); var limit := rules.frameLimit;
      && r.frames == frames && r.rest == buffer
      && (r.failure.None? ==> Newline !in buffer && |buffer| <= limit)
      && (r.failure.Some? ==> r.failure == Some(FrameLimit) && |buffer| > limit && Newline !in buffer[..limit + 1])
  {
    hide IndexOf, Takes, Taken;
  }

  function NonEmpty(frames: seq<Frame>): seq<Frame> {
    if frames == [] then [] else
    var n := |frames| - 1;
    NonEmpty(frames[..n]) + if frames[n] == [] then [] else [frames[n]]
  }

  /** The adapter reads what the monitor reads, less the empty frames, and fails when it does. */
  lemma {:induction false} TwinsAgree(bytes: nat, limit: nat, frames: seq<Frame>, buffer: seq<byte>)
    ensures var wire := Drain(Rules(bytes, limit, false, Anything), frames, buffer);
      var adapter := Drain(Rules(bytes, limit, true, Anything), NonEmpty(frames), buffer);
      Same(adapter, Reading(NonEmpty(wire.frames), wire.rest, wire.failure))
    decreases |buffer|
  {
    var end := IndexOf(buffer, Newline);
    if 0 <= end <= limit {
      var frame := buffer[..end];
      var wire, adapter := Rules(bytes, limit, false, Anything), Rules(bytes, limit, true, Anything);
      assert (frames + [frame])[..|frames|] == frames && (frames + [frame])[|frames|] == frame;
      assert NonEmpty(frames + [frame]) == Taken(adapter, NonEmpty(frames), frame);
      assert Taken(wire, frames, frame) == frames + [frame];
      TwinsAgree(bytes, limit, frames + [frame], buffer[end + 1..]);
    }
  }

  // ---- the end of the stream -------------------------------------------------------------------

  lemma {:induction false} LinesFrom(first: Frame, rest: seq<Frame>)
    ensures Lines([first] + rest) == first + [Newline] + Lines(rest)
    decreases |rest|
  {
    hide Lines;
    if rest == [] {
      assert [first] + rest == [first] && [first][..0] == [];
      LastLine([first]);
      NoLines();
      assert [] + first + [Newline] == first + [Newline] + [];
    } else {
      var n := |rest| - 1;
      LinesFrom(first, rest[..n]);
      LastLine([first] + rest);
      LastLine(rest);
      assert ([first] + rest)[..n + 1] == [first] + rest[..n] && ([first] + rest)[n + 1] == rest[n];
      Regroup(first + [Newline], Lines(rest[..n]), rest[n], [Newline]);
    }
  }

  lemma NoLines()
    ensures Lines([]) == []
  {
  }

  lemma LastLine(frames: seq<Frame>)
    requires frames != []
    ensures Lines(frames) == Lines(frames[..|frames| - 1]) + frames[|frames| - 1] + [Newline]
  {
  }

  lemma Regroup(a: seq<byte>, b: seq<byte>, c: seq<byte>, d: seq<byte>)
    ensures (a + b) + c + d == a + (b + c + d)
  {
  }

  lemma FirstLine(first: Frame, rest: seq<byte>)
    requires Newline !in first
    ensures var buffer := first + [Newline] + rest;
      && IndexOf(buffer, Newline) == |first|
      && buffer[..|first|] == first && buffer[|first| + 1..] == rest
  {
    var buffer := first + [Newline] + rest;
    assert forall k :: 0 <= k < |first| ==> buffer[k] == first[k] && first[k] in first;
    IndexIs(buffer, |first|);
  }

  /** Frames written one after the other come out again, and nothing is left. */
  lemma {:induction false} LinesDrain(bytes: nat, limit: nat, before: seq<Frame>, frames: seq<Frame>)
    requires Framed(limit, frames)
    ensures Drain(Rules(bytes, limit, false, Anything), before, Lines(frames)) == Reading(before + frames, [], None)
    decreases |frames|
  {
    hide Drain, IndexOf;
    if frames == [] {
      NothingMore(Rules(bytes, limit, false, Anything), before);
      assert before + frames == before && Lines([]) == [];
    } else {
      var first, rest := frames[0], frames[1..];
      assert frames == [first] + rest;
      LinesFrom(first, rest);
      FirstLine(first, Lines(rest));
      DrainOnce(Rules(bytes, limit, false, Anything), before, Lines(frames), |first|);
      LinesDrain(bytes, limit, before + [first], rest);
      assert before + [first] + rest == before + frames;
    }
  }

  ghost predicate Whole(limit: nat, stream: seq<byte>, frames: seq<Frame>) {
    Framed(limit, frames) && stream == Lines(frames)
  }

  /** A stream within the byte limit, however it was cut, leaves nothing over and no failure exactly when it
      is a sequence of frames within the frame limit, each ended by its newline; and then those frames, without
      the empty ones for the adapter, are what was read. */
  lemma SealedExactly(bytes: nat, limit: nat, skipEmpty: bool, chunks: seq<seq<byte>>)
    requires |Concat(chunks)| <= bytes
    ensures var r := ReceivedAll(Rules(bytes, limit, skipEmpty, Anything), Reading([], [], None), 0, chunks);
      && (r.failure.None? && r.rest == [] <==> exists frames :: Whole(limit, Concat(chunks), frames))
      && forall frames :: Whole(limit, Concat(chunks), frames) ==>
           r.frames == if skipEmpty then NonEmpty(frames) else frames
  {
    hide ReceivedAll, Drain, Framed, Lines, NonEmpty;
    var stream := Concat(chunks);
    var wire := Drain(Rules(bytes, limit, false, Anything), [], stream);
    ReadsAsOne(bytes, limit, skipEmpty, chunks);
    SplitsWhole(bytes, limit, stream);
    forall frames | Whole(limit, stream, frames) ensures wire == Reading(frames, [], None) {
      LinesDrain(bytes, limit, [], frames);
      assert [] + frames == frames;
    }
  }

  lemma ReadsAsOne(bytes: nat, limit: nat, skipEmpty: bool, chunks: seq<seq<byte>>)
    requires |Concat(chunks)| <= bytes
    ensures var r := ReceivedAll(Rules(bytes, limit, skipEmpty, Anything), Reading([], [], None), 0, chunks);
      var wire := Drain(Rules(bytes, limit, false, Anything), [], Concat(chunks));
      Same(r, Reading(if skipEmpty then NonEmpty(wire.frames) else wire.frames, wire.rest, wire.failure))
  {
    CutsAgree(Rules(bytes, limit, skipEmpty, Anything), Reading([], [], None), 0, chunks);
    assert [] + Concat(chunks) == Concat(chunks);
    TwinsAgree(bytes, limit, [], Concat(chunks));
  }

  lemma SplitsWhole(bytes: nat, limit: nat, stream: seq<byte>)
    ensures var wire := Drain(Rules(bytes, limit, false, Anything), [], stream);
      wire.failure.None? && wire.rest == [] ==> Whole(limit, stream, wire.frames)
  {
    DrainIsSplitting(bytes, limit, [], stream);
    var wire := Drain(Rules(bytes, limit, false, Anything), [], stream);
    assert Lines([]) + stream == stream;
    assert wire.rest == [] ==> Lines(wire.frames) + wire.rest == Lines(wire.frames);
  }

  // ---- frames that are judged ------------------------------------------------------------------

  /** What the reader shows of frames it has taken. */
  function Shown(rules: Rules, frames: seq<Frame>): seq<Frame> {
    if rules.skipEmpty then NonEmpty(frames) else frames
  }

  /** Frame `i` is skipped, or judged good together with what was shown before it. */
  ghost predicate Passes(rules: Rules, frames: seq<Frame>, i: nat)
    requires i < |frames|
  {
    (rules.skipEmpty && frames[i] == []) || rules.accepts(Shown(rules, frames[..i + 1]))
  }

  /** The first `n` frames pass, and the next, if there is one, does not. */
  ghost predicate StopsAt(rules: Rules, frames: seq<Frame>, n: nat) {
    n <= |frames| && (forall i :: 0 <= i < n ==> Passes(rules, frames, i))
    && (n < |frames| ==> !Passes(rules, frames, n))
  }

  lemma ShownOneMore(rules: Rules, frames: seq<Frame>, frame: Frame)
    ensures Shown(rules, frames + [frame]) == Taken(rules, Shown(rules, frames), frame)
  {
    assert (frames + [frame])[..|frames|] == frames;
  }

  lemma PassesIsTaken(rules: Rules, done: seq<Frame>, frame: Frame, rest: seq<Frame>)
    ensures var all := done + ([frame] + rest);
      Passes(rules, all, |done|) <==> Takes(rules, Shown(rules, done), frame)
  {
    var all := done + ([frame] + rest);
    ShownOneMore(rules, done, frame);
    assert all[..|done| + 1] == done + [frame] && all[|done|] == frame;
  }

  lemma {:induction false} LinesAreJudged(rules: Rules, done: seq<Frame>, frames: seq<Frame>, rest: seq<byte>, n: nat)
    requires Framed(rules.frameLimit, frames) && |done| <= n && StopsAt(rules, done + frames, n)
    ensures var r := Drain(rules, Shown(rules, done), Lines(frames) + rest); var all := done + frames;
      if n == |all| then r == Drain(rules, Shown(rules, all), rest)
      else r.frames == Shown(rules, all[..n]) && r.failure == Some(BadFrame)
    decreases |frames|
  {
    hide Drain, IndexOf, Lines, Shown, Taken, Takes, Passes, Framed;
    var all := done + frames;
    if frames == [] {
      NoLines();
      assert [] + rest == rest && all == done;
    } else {
      var first, later := frames[0], frames[1..];
      var more := Lines(later) + rest;
      assert frames == [first] + later && all == (done + [first]) + later;
      FramedParts(rules.frameLimit, frames);
      LinesFrom(first, later);
      assert Lines(frames) + rest == first + [Newline] + more;
      FirstLine(first, more);
      DrainOnce(rules, Shown(rules, done), Lines(frames) + rest, |first|);
      PassesIsTaken(rules, done, first, later);
      if n == |done| {
        assert all[..n] == done;
      } else {
        assert Passes(rules, all, |done|);
        ShownOneMore(rules, done, first);
        LinesAreJudged(rules, done + [first], later, rest, n);
      }
    }
  }

  lemma FramedParts(limit: nat, frames: seq<Frame>)
    requires Framed(limit, frames) && frames != []
    ensures Newline !in frames[0] && |frames[0]| <= limit && Framed(limit, frames[1..])
  {
  }

  /** However a stream within the byte limit was cut: its frames are shown, without the empty ones for the adapter,
      up to the first that is judged bad together with those before it, which ends the reading; and if none is,
      reading goes on with what follows them. */
  lemma FramesAreShownUntilABadOne(
    rules: Rules, frames: seq<Frame>, rest: seq<byte>, chunks: seq<seq<byte>>, n: nat)
    requires Framed(rules.frameLimit, frames) && StopsAt(rules, frames, n)
    requires Concat(chunks) == Lines(frames) + rest && |Concat(chunks)| <= rules.byteLimit
    ensures var r := ReceivedAll(rules, Reading([], [], None), 0, chunks);
      if n < |frames| then r.frames == Shown(rules, frames[..n]) && r.failure == Some(BadFrame)
      else Same(r, Drain(rules, Shown(rules, frames), rest))
  {
    hide Drain, IndexOf, Passes, Framed, Lines, ReceivedAll, Concat;
    NothingMore(rules, []);
    CutsAgree(rules, Reading([], [], None), 0, chunks);
    assert [] + Concat(chunks) == Concat(chunks) && [] + frames == frames;
    LinesAreJudged(rules, [], frames, rest, n);
  }
}
