// Cutting a byte stream into frames: the server's receive path (net/session.h RecvBuffer,
// net/iocp_server.cpp drain_frames and post_recv) and the client's (client/frame_codec.h, socket_set.h).
//
// TCP has no boundaries. The kernel hands over the stream in pieces of any size, and what is delivered
// has to be what one look at the whole stream would give.

module Frames {
  import opened Wire

  /** Both protocols start a frame with the body size; they differ in header size and body limit. */
  datatype Layout = Layout(header: nat, cap: nat)

  const ClientFrames := Layout(4, 4096)
  const ServerFrames := Layout(8, 4092)         // frame_size_bounded, the session server's acceptor
  const RECV_BUFFER: nat := 4100

  /** A whole frame of either protocol just fits the receive buffer. */
  predicate FitsBuffer(l: Layout) {
    l.header >= 2 && l.header + l.cap <= RECV_BUFFER
  }

  /** The body size field, the first two bytes of a header. */
  function BodySize(data: seq<Byte>, at: nat): nat
    requires at + 2 <= |data|
  {
    data[at] as nat * 0x100 + data[at + 1]
  }

  lemma BodySizeIsBigEndian(data: seq<Byte>, at: nat)
    requires at + 2 <= |data|
    ensures BodySize(data, at) == FromBytes(data[at..at + 2]) < U16
  {
    Unfold(data[at..at + 2]);
  }

  /** The frame sizer at a position: > 0 a whole frame, 0 not yet, < 0 a violation. */
  function SizeAt(l: Layout, data: seq<Byte>, at: nat): (size: int)
    requires l.header >= 2 && at <= |data|
    ensures size <= |data| - at && size <= l.header + l.cap && (size > 0 ==> size >= l.header)
  {
    var len := |data| - at;
    if len < l.header then 0
    else
      var body := BodySize(data, at);
      if body > l.cap then -1
      else if len - l.header < body then 0
      else l.header + body
  }

  /** The two sizers: what they refuse, and when a frame is whole. */
  lemma Verdicts(data: seq<Byte>)
    requires |data| >= 8
    ensures var body := 0x100 * data[0] as nat + data[1];
            && (SizeAt(ClientFrames, data, 0) < 0 <==> body > 4096)
            && (SizeAt(ServerFrames, data, 0) < 0 <==> body > 4092)
            && (SizeAt(ClientFrames, data, 0) > 0 <==> body <= 4096 && 4 + body <= |data|)
            && (SizeAt(ServerFrames, data, 0) > 0 <==> body <= 4092 && 8 + body <= |data|)
    ensures FitsBuffer(ClientFrames) && FitsBuffer(ServerFrames) && RECV_BUFFER == 4100
  {
  }

  /** frames: the whole frames. end: where the first unfinished or bad one starts. */
  datatype Parsed = Parsed(frames: seq<seq<Byte>>, end: nat, bad: bool)

  /** One look at all of the data, from a position on. */
  function ParseFrom(l: Layout, data: seq<Byte>, at: nat): (p: Parsed)
    requires l.header >= 2 && at <= |data|
    ensures at <= p.end <= |data|
    decreases |data| - at
  {
    var size := SizeAt(l, data, at);
    if size == 0 then Parsed([], at, false)
    else if size < 0 then Parsed([], at, true)
    else
      var rest := ParseFrom(l, data, at + size);
      Prepend(data[at..at + size], rest)
  }

  function Parse(l: Layout, data: seq<Byte>): Parsed
    requires l.header >= 2
  {
    ParseFrom(l, data, 0)
  }

  /** A verdict other than "not yet" does not change when more arrives. */
  lemma SizeIsFinal(l: Layout, a: seq<Byte>, b: seq<Byte>, at: nat)
    requires l.header >= 2 && at <= |a| && SizeAt(l, a, at) != 0
    ensures SizeAt(l, a + b, at) == SizeAt(l, a, at)
  {
  }

  /** p, and then q from where p ended. */
  function Then(p: Parsed, q: Parsed): Parsed {
    Parsed(p.frames + q.frames, q.end, q.bad)
  }

  function Prepend(f: seq<Byte>, p: Parsed): Parsed {
    p.(frames := [f] + p.frames)
  }

  lemma PrependThen(f: seq<Byte>, p: Parsed, q: Parsed)
    ensures Prepend(f, Then(p, q)) == Then(Prepend(f, p), q)
  {
    assert [f] + (p.frames + q.frames) == ([f] + p.frames) + q.frames;
  }

  /** Parsing can stop at any byte and go on from where it stopped: no frame is cut, lost or repeated. */
  lemma {:induction false} ParseInPieces(l: Layout, a: seq<Byte>, b: seq<Byte>, at: nat)
    requires l.header >= 2 && at <= |a|
    ensures var p := ParseFrom(l, a, at);
            ParseFrom(l, a + b, at) == if p.bad then p else Then(p, ParseFrom(l, a + b, p.end))
    decreases |a| - at
  {
    var size := SizeAt(l, a, at);
    if size != 0 {
      SizeIsFinal(l, a, b, at);
    }
    if size > 0 {
      var f, r := a[at..at + size], ParseFrom(l, a, at + size);
      assert (a + b)[at..at + size] == f;
      ParseInPieces(l, a, b, at + size);
      PrependThen(f, r, ParseFrom(l, a + b, r.end));
    } else if size == 0 {
      var q := ParseFrom(l, a + b, at);
      assert [] + q.frames == q.frames;
    }
  }

  // ---- What parsing means -------------------------------------------------------------------------

  /** One frame and nothing else. */
  predicate IsFrame(l: Layout, f: seq<Byte>)
    requires l.header >= 2
  {
    |f| > 0 && SizeAt(l, f, 0) == |f|
  }

  /** From at to end, the data is the frames from the k-th on, one right after another. */
  ghost predicate Tiles(l: Layout, data: seq<Byte>, at: nat, end: nat, frames: seq<seq<Byte>>, k: nat)
    requires l.header >= 2 && k <= |frames|
    decreases |frames| - k
  {
    if k == |frames| then at == end <= |data|
    else
      && at + |frames[k]| <= |data| && data[at..at + |frames[k]|] == frames[k] && IsFrame(l, frames[k])
      && Tiles(l, data, at + |frames[k]|, end, frames, k + 1)
  }

  lemma SizeOfFrame(l: Layout, data: seq<Byte>, at: nat, f: seq<Byte>)
    requires l.header >= 2 && IsFrame(l, f) && at + |f| <= |data| && data[at..at + |f|] == f
    ensures SizeAt(l, data, at) == |f|
  {
    assert data[at] == f[0] && data[at + 1] == f[1];
  }

  lemma FrameAt(l: Layout, data: seq<Byte>, at: nat)
    requires l.header >= 2 && at <= |data| && SizeAt(l, data, at) > 0
    ensures IsFrame(l, data[at..at + SizeAt(l, data, at)])
  {
    var f := data[at..at + SizeAt(l, data, at)];
    assert f[0] == data[at] && f[1] == data[at + 1];
  }

  /** What was sent as frames is received as the same frames, up to an unfinished or bad one. */
  lemma {:induction false} TilesParse(l: Layout, data: seq<Byte>, at: nat, end: nat, frames: seq<seq<Byte>>, k: nat)
    requires l.header >= 2 && k <= |frames| && Tiles(l, data, at, end, frames, k)
    ensures at <= end <= |data|
    ensures SizeAt(l, data, end) <= 0 ==> ParseFrom(l, data, at) == Parsed(frames[k..], end, SizeAt(l, data, end) < 0)
    decreases |frames| - k
  {
    if k < |frames| {
      SizeOfFrame(l, data, at, frames[k]);
      TilesParse(l, data, at + |frames[k]|, end, frames, k + 1);
      assert frames[k..] == [frames[k]] + frames[k + 1..];
    }
  }

  lemma {:induction false} TilesShift(l: Layout, data: seq<Byte>, at: nat, end: nat, f: seq<Byte>,
                                      frames: seq<seq<Byte>>, k: nat)
    requires l.header >= 2 && k <= |frames| && Tiles(l, data, at, end, frames, k)
    ensures Tiles(l, data, at, end, [f] + frames, k + 1)
    decreases |frames| - k
  {
    if k < |frames| {
      assert ([f] + frames)[k + 1] == frames[k];
      TilesShift(l, data, at + |frames[k]|, end, f, frames, k + 1);
    }
  }

  lemma TilesPrepend(l: Layout, data: seq<Byte>, at: nat, rest: Parsed)
    requires l.header >= 2 && at <= |data| && SizeAt(l, data, at) > 0
    requires Tiles(l, data, at + SizeAt(l, data, at), rest.end, rest.frames, 0)
    ensures Tiles(l, data, at, rest.end, Prepend(data[at..at + SizeAt(l, data, at)], rest).frames, 0)
  {
    var f := data[at..at + SizeAt(l, data, at)];
    FrameAt(l, data, at);
    TilesShift(l, data, at + |f|, rest.end, f, rest.frames, 0);
    assert ([f] + rest.frames)[0] == f;
  }

  /** Parsing stops only at an unfinished or a bad frame. */
  lemma {:induction false} ParseStops(l: Layout, data: seq<Byte>, at: nat)
    requires l.header >= 2 && at <= |data|
    ensures var p := ParseFrom(l, data, at);
            if p.bad then SizeAt(l, data, p.end) < 0 else SizeAt(l, data, p.end) == 0
    decreases |data| - at
  {
    if SizeAt(l, data, at) > 0 {
      ParseStops(l, data, at + SizeAt(l, data, at));
    }
  }

  /** The other direction: what is delivered are whole frames, and they tile the stream. */
  lemma {:induction false} ParseTiles(l: Layout, data: seq<Byte>, at: nat)
    requires l.header >= 2 && at <= |data|
    ensures Tiles(l, data, at, ParseFrom(l, data, at).end, ParseFrom(l, data, at).frames, 0)
    decreases |data| - at
  {
    var size := SizeAt(l, data, at);
    if size > 0 {
      var rest := ParseFrom(l, data, at + size);
      ParseTiles(l, data, at + size);
      TilesPrepend(l, data, at, rest);
      assert ParseFrom(l, data, at) == Prepend(data[at..at + size], rest);
    }
  }

  /** An unfinished frame always leaves room in the receive buffer. */
  lemma UnfinishedLeavesRoom(l: Layout, data: seq<Byte>, at: nat)
    requires FitsBuffer(l) && at <= |data| && SizeAt(l, data, at) == 0
    ensures |data| - at < RECV_BUFFER
  {
  }
}

/** The server's side. */
module Receiving {
  import opened Wire
  import opened Frames

  class RecvBuffer {
    const buffer: array<Byte>
    var readPos: nat
    var writePos: nat

    ghost predicate Valid()
      reads this
    {
      buffer.Length == RECV_BUFFER && readPos <= writePos <= RECV_BUFFER
    }

    /** The bytes received and not cut off yet. */
    function View(): seq<Byte>
      requires Valid()
      reads this, buffer
    {
      buffer[readPos..writePos]
    }

    constructor ()
      ensures Valid() && View() == [] && fresh(buffer) && writePos == 0
    {
      buffer := new Byte[RECV_BUFFER](_ => 0);
      readPos, writePos := 0, 0;
    }

    function Space(): nat
      requires Valid()
      reads this
    {
      RECV_BUFFER - writePos
    }

    /** Moves what is left to the front. */
    method Compact()
      requires Valid()
      modifies this, buffer
      ensures Valid() && View() == old(View()) && readPos == 0
    {
      if readPos == 0 {
        return;
      }
      var left := writePos - readPos;
      var from := readPos;
      ghost var was := View();
      for i := 0 to left
        invariant Valid() && from == readPos && writePos == from + left
        invariant forall k :: 0 <= k < i ==> buffer[k] == was[k]
        invariant forall k :: i <= k < left ==> buffer[from + k] == was[k]
      {
        buffer[i] := buffer[from + i];
      }
      readPos := 0;
      writePos := left;
    }

    /** What the kernel does to the free part. */
    method Fill(bytes: seq<Byte>)
      requires Valid() && |bytes| <= Space()
      modifies this, buffer
      ensures Valid() && View() == old(View()) + bytes && readPos == old(readPos)
    {
      var start := writePos;
      ghost var was := View();
      forall i | 0 <= i < |bytes| {
        buffer[start + i] := bytes[i];
      }
      writePos := start + |bytes|;
    }

    method Consume(n: nat, ghost rest: seq<Byte>)
      requires Valid() && n <= |View()| && rest == View()[n..]
      modifies `readPos
      ensures Valid() && View() == rest
    {
      readPos := readPos + n;
    }
  }

  /** What has been cut and what is still to come is the one-shot parse of the stream. */
  ghost predicate OnTrack(l: Layout, stream: seq<Byte>, base: nat, jobs: seq<seq<Byte>>)
    requires l.header >= 2 && base <= |stream|
  {
    Parse(l, stream) == Then(Parsed(jobs, base, false), ParseFrom(l, stream, base))
  }

  datatype Turn = Cut | NotYet | Violation | NotQueued

  /** One session's receive path. jobs is what drain_frames has handed to the job sink. */
  class Receiver {
    const layout: Layout
    const recvBuf: RecvBuffer
    var jobs: seq<seq<Byte>>
    ghost var stream: seq<Byte>        // everything received so far
    ghost var base: nat                // how much of it has been cut into frames

    ghost predicate Valid()
      reads this, recvBuf, recvBuf.buffer
    {
      && FitsBuffer(layout) && recvBuf.Valid()
      && base <= |stream| && recvBuf.View() == stream[base..]
    }

    ghost predicate Parsing()
      requires FitsBuffer(layout) && base <= |stream|
      reads this
    {
      OnTrack(layout, stream, base, jobs)
    }

    /** Between two completions nothing whole is left uncut. */
    ghost predicate Drained()
      requires FitsBuffer(layout) && base <= |stream|
      reads this
    {
      SizeAt(layout, stream, base) == 0
    }

    /** Every frame handed over so far was one the pool and the sink take. */
    ghost predicate AllTaken(takes: nat -> bool)
      reads this
    {
      forall k: nat :: k < |jobs| ==> takes(k)
    }

    /** A whole frame is next, and it is not taken. */
    ghost predicate Refused(takes: nat -> bool)
      requires FitsBuffer(layout) && base <= |stream|
      reads this
    {
      !takes(|jobs|) && SizeAt(layout, stream, base) > 0
    }

    constructor (layout: Layout)
      requires FitsBuffer(layout)
      ensures Valid() && Parsing() && Drained() && jobs == [] && stream == [] && this.layout == layout
      ensures fresh(recvBuf) && fresh(recvBuf.buffer) && recvBuf.Space() == RECV_BUFFER
    {
      this.layout := layout;
      recvBuf := new RecvBuffer();
      jobs, stream, base := [], [], 0;
    }

    /** Hands one whole frame over and moves behind it. */
    method CutFrame(pending: seq<Byte>, frameLen: nat)
      requires Valid() && Parsing() && pending == stream[base..] && 0 < frameLen == SizeAt(layout, pending, 0)
      modifies this`jobs, this`base, recvBuf`readPos
      ensures Valid() && Parsing() && base == old(base) + frameLen && jobs == old(jobs) + [pending[..frameLen]]
    {
      OneFrame(layout, stream, base, jobs, pending);
      jobs := jobs + [pending[..frameLen]];
      base := base + frameLen;
      recvBuf.Consume(frameLen, pending[frameLen..]);
    }

    /** One turn of drain_frames' loop. takes says of each frame whether the frame pool and the job sink take it. */
    method Turn(takes: nat -> bool) returns (turn: Turn)
      requires Valid() && Parsing() && AllTaken(takes)
      modifies this`jobs, this`base, recvBuf`readPos
      ensures Valid() && Parsing() && AllTaken(takes)
      ensures match turn
              case Cut => base > old(base)
              case NotYet => Drained()
              case Violation => SizeAt(layout, stream, base) < 0
              case NotQueued => Refused(takes)
      ensures turn != Cut ==> base == old(base) && jobs == old(jobs)
    {
      var pending := recvBuf.View();
      if pending == [] {
        return NotYet;
      }
      var frameLen := SizeAt(layout, pending, 0);
      SizeOfView(layout, stream, base);
      if frameLen == 0 {
        return NotYet;
      }
      if frameLen < 0 {
        return Violation;
      }
      if !takes(|jobs|) {
        return NotQueued;
      }
      CutFrame(pending, frameLen);
      return Cut;
    }

    /** drain_frames. It stops early only at a violation, or at a frame that is not taken. */
    method DrainFrames(takes: nat -> bool) returns (ok: bool, refused: bool)
      requires Valid() && Parsing() && AllTaken(takes)
      modifies this`jobs, this`base, recvBuf`readPos
      ensures Valid() && Parsing() && AllTaken(takes)
      ensures ok ==> Drained() && !refused
      ensures !ok && !refused ==> SizeAt(layout, stream, base) < 0
      ensures refused ==> Refused(takes)
    {
      var turn := Turn(takes);
      while turn == Cut
        invariant Valid() && Parsing() && AllTaken(takes)
        invariant turn == NotYet ==> Drained()
        invariant turn == Violation ==> SizeAt(layout, stream, base) < 0
        invariant turn == NotQueued ==> Refused(takes)
        decreases |stream| - base, turn == Cut
      {
        turn := Turn(takes);
      }
      return turn == NotYet, turn == NotQueued;
    }

    /** post_recv up to the issue. The buffer-full branch is dead. */
    method PrepareRecv() returns (ok: bool)
      requires Valid() && Drained()
      modifies recvBuf, recvBuf.buffer
      ensures Valid() && ok && recvBuf.Space() > 0
    {
      recvBuf.Compact();
      UnfinishedLeavesRoom(layout, stream, base);
      return recvBuf.Space() > 0;
    }

    /** How many of the bytes on the way one receive brings. */
    method SomeOf(bytes: seq<Byte>) returns (n: nat)
      requires Valid() && |bytes| > 0 && recvBuf.Space() > 0
      ensures 0 < n <= |bytes| && n <= recvBuf.Space()
    {
      var some: nat := *;
      n := if 0 < some <= |bytes| && some <= recvBuf.Space() then some else 1;
    }

    /** One receive completion, from the kernel's bytes to the next receive. */
    method OnRecv(bytes: seq<Byte>, takes: nat -> bool) returns (ok: bool, refused: bool)
      requires Valid() && Parsing() && Drained() && |bytes| <= recvBuf.Space() && AllTaken(takes)
      modifies this, recvBuf, recvBuf.buffer
      ensures Valid() && Parsing() && stream == old(stream) + bytes && AllTaken(takes)
      ensures ok ==> !refused && Drained() && recvBuf.Space() > 0 && jobs == Parse(layout, stream).frames
      ensures !ok && !refused ==> Parse(layout, stream).bad && jobs == Parse(layout, stream).frames
      ensures !refused ==> ok == !Parse(layout, stream).bad
      ensures refused ==> !ok && !takes(|jobs|) && jobs < Parse(layout, stream).frames
    {
      Arrival(layout, stream, bytes, base, jobs);
      recvBuf.Fill(bytes);
      stream := stream + bytes;
      ok, refused := DrainFrames(takes);
      if ok {
        ok := PrepareRecv();
      }
      OneMoreToCome(layout, stream, base, jobs);
    }
  }

  lemma OneMoreToCome(l: Layout, stream: seq<Byte>, base: nat, jobs: seq<seq<Byte>>)
    requires l.header >= 2 && base <= |stream| && OnTrack(l, stream, base, jobs)
    ensures SizeAt(l, stream, base) > 0 ==> jobs < Parse(l, stream).frames
  {
  }

  /** Bytes that arrive behind a drained stream. */
  lemma Arrival(l: Layout, stream: seq<Byte>, bytes: seq<Byte>, base: nat, jobs: seq<seq<Byte>>)
    requires l.header >= 2 && base <= |stream| && SizeAt(l, stream, base) == 0
    requires OnTrack(l, stream, base, jobs)
    ensures OnTrack(l, stream + bytes, base, jobs)
    ensures (stream + bytes)[base..] == stream[base..] + bytes
  {
    assert jobs + [] == jobs;
    ParseInPieces(l, stream, bytes, 0);
  }

  /** The buffer is looked at from its own start. */
  lemma SizeOfView(l: Layout, stream: seq<Byte>, base: nat)
    requires l.header >= 2 && base <= |stream|
    ensures SizeAt(l, stream[base..], 0) == SizeAt(l, stream, base)
  {
  }

  lemma OneFrame(l: Layout, stream: seq<Byte>, base: nat, jobs: seq<seq<Byte>>, pending: seq<Byte>)
    requires l.header >= 2 && base <= |stream| && pending == stream[base..] && SizeAt(l, pending, 0) > 0
    requires OnTrack(l, stream, base, jobs)
    ensures var size := SizeAt(l, pending, 0);
            && base + size <= |stream| && pending[size..] == stream[base + size..]
            && OnTrack(l, stream, base + size, jobs + [pending[..size]])
  {
    SizeOfView(l, stream, base);
    var size := SizeAt(l, pending, 0);
    var f, rest := stream[base..base + size], ParseFrom(l, stream, base + size);
    assert pending[..size] == f;
    assert jobs + ([f] + rest.frames) == (jobs + [f]) + rest.frames;
  }

  /** A connection from its first byte: however the kernel splits the stream, the frames delivered are the one-shot
      parse of what has arrived, up to the first one that is not taken; and it is closed exactly if there is such a
      frame or the stream has a violation. */
  method ReceiveAll(layout: Layout, whole: seq<Byte>, takes: nat -> bool)
    returns (jobs: seq<seq<Byte>>, closed: bool, refused: bool)
    requires FitsBuffer(layout)
    ensures jobs <= Parse(layout, whole).frames && forall k: nat :: k < |jobs| ==> takes(k)
    ensures refused <==> |jobs| < |Parse(layout, whole).frames|
    ensures refused ==> !takes(|jobs|)
    ensures closed <==> refused || Parse(layout, whole).bad
  {
    var r := new Receiver(layout);
    var ok, left := true, whole;
    refused := false;
    ghost var seen: seq<Byte> := [];
    while |left| > 0 && ok
      invariant r.Valid() && r.Parsing() && r.AllTaken(takes) && r.layout == layout
      invariant r.stream == seen && whole == seen + left
      invariant fresh(r) && fresh(r.recvBuf) && fresh(r.recvBuf.buffer)
      invariant ok ==> r.Drained() && r.recvBuf.Space() > 0 && !refused
      invariant !refused ==> r.jobs == Parse(layout, seen).frames && ok == !Parse(layout, seen).bad
      invariant refused ==> !ok && !takes(|r.jobs|) && r.jobs < Parse(layout, seen).frames
      decreases |left|
    {
      var n := r.SomeOf(left);
      var bytes := left[..n];
      Regroup(whole, seen, left, n);
      seen := seen + bytes;
      ok, refused := r.OnRecv(bytes, takes);
      left := left[n..];
    }
    jobs, closed := r.jobs, !ok;
    AfterClose(layout, seen, left);
    assert whole == seen + left;
  }

  /** Behind a violation nothing is parsed. */
  lemma AfterClose(l: Layout, seen: seq<Byte>, left: seq<Byte>)
    requires l.header >= 2
    ensures Parse(l, seen).bad ==> Parse(l, seen + left) == Parse(l, seen)
    ensures left == [] ==> Parse(l, seen + left) == Parse(l, seen)
    ensures Parse(l, seen).frames <= Parse(l, seen + left).frames
  {
    ParseInPieces(l, seen, left, 0);
    assert left == [] ==> seen + left == seen;
  }

  lemma Regroup(whole: seq<Byte>, seen: seq<Byte>, left: seq<Byte>, n: nat)
    requires whole == seen + left && n <= |left|
    ensures whole == (seen + left[..n]) + left[n..]
  {
  }
}

/** The client's side: building frames, parsing them, and counting them per connection. */
module ClientFraming {
  import opened Wire
  import opened Wrappers
  import opened Frames

  datatype Frame = Frame(id: nat, body: seq<Byte>)

  /** build_frame. rawSize is the length the header claims, when a test wants it to lie. */
  function BuildFrame(id: nat, body: seq<Byte>, rawSize: Option<nat>): seq<Byte> {
    ToBytes(if rawSize.Some? then rawSize.value else |body|, 2) + ToBytes(id, 2) + body
  }

  function FrameOf(f: seq<Byte>): Frame {
    if |f| < 4 then Frame(0, f) else Frame(BodySize(f, 2), f[4..])
  }

  lemma HeaderReadsBack(f: seq<Byte>, at: nat, n: nat)
    requires at + 2 <= |f| && f[at..at + 2] == ToBytes(n, 2) && n < U16
    ensures BodySize(f, at) == n
  {
    BodySizeIsBigEndian(f, at);
    Widths();
    ReadsBack(n, 2);
  }

  /** An honest frame is cut as one frame exactly if its body is within the limit, and reads back. */
  lemma BuiltFrameReadsBack(id: nat, body: seq<Byte>)
    requires id < U16 && |body| < U16
    ensures IsFrame(ClientFrames, BuildFrame(id, body, None)) <==> |body| <= 4096
    ensures FrameOf(BuildFrame(id, body, None)) == Frame(id, body)
  {
    var f := BuildFrame(id, body, None);
    assert f[0..2] == ToBytes(|body|, 2) && f[2..4] == ToBytes(id, 2) && f[4..] == body;
    HeaderReadsBack(f, 0, |body|);
    HeaderReadsBack(f, 2, id);
  }

  /** A frame that claims another length is never taken for what it is. */
  lemma LyingFrameIsNotCutWhole(id: nat, body: seq<Byte>, rawSize: nat)
    requires id < U16 && rawSize < U16 && rawSize != |body|
    ensures !IsFrame(ClientFrames, BuildFrame(id, body, Some(rawSize)))
  {
    var f := BuildFrame(id, body, Some(rawSize));
    assert f[0..2] == ToBytes(rawSize, 2);
    HeaderReadsBack(f, 0, rawSize);
  }

  /** The first n frames on the wire. */
  function OnWire(frames: seq<seq<Byte>>, n: nat): seq<Byte>
    requires n <= |frames|
  {
    if n == 0 then [] else OnWire(frames, n - 1) + frames[n - 1]
  }

  lemma {:induction false} WireGrows(frames: seq<seq<Byte>>, k: nat, n: nat)
    requires k <= n <= |frames|
    ensures OnWire(frames, k) <= OnWire(frames, n)
  {
    if k < n {
      WireGrows(frames, k, n - 1);
    }
  }

  lemma {:induction false} WireTiles(l: Layout, frames: seq<seq<Byte>>, k: nat, tail: seq<Byte>)
    requires l.header >= 2 && k <= |frames| && forall i :: 0 <= i < |frames| ==> IsFrame(l, frames[i])
    ensures Tiles(l, OnWire(frames, |frames|) + tail, |OnWire(frames, k)|, |OnWire(frames, |frames|)|, frames, k)
    decreases |frames| - k
  {
    if k < |frames| {
      WireGrows(frames, k + 1, |frames|);
      WireTiles(l, frames, k + 1, tail);
    }
  }

  /** Frames sent one after another come out again, in order, whatever unfinished frame follows. */
  lemma SentIsParsed(l: Layout, frames: seq<seq<Byte>>, tail: seq<Byte>)
    requires l.header >= 2 && forall i :: 0 <= i < |frames| ==> IsFrame(l, frames[i])
    requires SizeAt(l, tail, 0) == 0
    ensures Parse(l, OnWire(frames, |frames|) + tail) == Parsed(frames, |OnWire(frames, |frames|)|, false)
  {
    var sent := OnWire(frames, |frames|);
    WireTiles(l, frames, 0, tail);
    assert SizeAt(l, sent + tail, |sent|) == 0 by {
      if |tail| >= 2 {
        assert (sent + tail)[|sent|] == tail[0] && (sent + tail)[|sent| + 1] == tail[1];
      }
    }
    TilesParse(l, sent + tail, 0, |sent|, frames, 0);
  }

  function FramesOf(raw: seq<seq<Byte>>): seq<Frame> {
    seq(|raw|, i requires 0 <= i < |raw| => FrameOf(raw[i]))
  }

  method ParseFrames(data: seq<Byte>) returns (frames: seq<Frame>, consumed: nat, protocolError: bool)
    ensures var p := Parse(ClientFrames, data);
            frames == FramesOf(p.frames) && consumed == p.end && protocolError == p.bad
  {
    protocolError := false;
    var offset := 0;
    frames := [];
    ghost var raw: seq<seq<Byte>> := [];
    while offset + 4 <= |data|
      invariant offset <= |data| && frames == FramesOf(raw)
      invariant Parse(ClientFrames, data) == Joined(raw, ParseFrom(ClientFrames, data, offset))
      invariant !protocolError
    {
      var bodySize := BodySize(data, offset);
      if bodySize > 4096 {
        protocolError := true;
        break;
      }
      if offset + 4 + bodySize > |data| {
        break;
      }
      var f := data[offset..offset + 4 + bodySize];
      ParseOne(data, offset, raw);
      raw := raw + [f];
      frames := frames + [Frame(BodySize(data, offset + 2), data[offset + 4..offset + 4 + bodySize])];
      assert FrameOf(f) == frames[|frames| - 1];
      offset := offset + 4 + bodySize;
    }
    assert raw + [] == raw;
    consumed := offset;
  }

  function Joined(raw: seq<seq<Byte>>, p: Parsed): Parsed {
    p.(frames := raw + p.frames)
  }

  lemma ParseOne(data: seq<Byte>, at: nat, raw: seq<seq<Byte>>)
    requires at <= |data| && SizeAt(ClientFrames, data, at) > 0
    ensures var size := SizeAt(ClientFrames, data, at);
            Joined(raw, ParseFrom(ClientFrames, data, at))
            == Joined(raw + [data[at..at + size]], ParseFrom(ClientFrames, data, at + size))
  {
    var size := SizeAt(ClientFrames, data, at);
    var f, rest := data[at..at + size], ParseFrom(ClientFrames, data, at + size);
    assert raw + ([f] + rest.frames) == (raw + [f]) + rest.frames;
  }

  /** How many of the first n frames have that id. */
  function CountOf(frames: seq<seq<Byte>>, id: nat, n: nat): nat
    requires n <= |frames|
  {
    if n == 0 then 0 else CountOf(frames, id, n - 1) + if FrameOf(frames[n - 1]).id == id then 1 else 0
  }

  ghost predicate Counted(byId: map<nat, nat>, frames: seq<seq<Byte>>, n: nat)
    requires n <= |frames|
  {
    forall id: nat :: CountOf(frames, id, n) == if id in byId then byId[id] else 0
  }

  lemma {:induction false} CountPrefix(a: seq<seq<Byte>>, b: seq<seq<Byte>>, id: nat, n: nat)
    requires n <= |a|
    ensures CountOf(a + b, id, n) == CountOf(a, id, n)
  {
    if n > 0 {
      CountPrefix(a, b, id, n - 1);
    }
  }

  /** Parsing a suffix on its own. */
  lemma {:induction false} ParseSuffix(l: Layout, data: seq<Byte>, base: nat, at: nat)
    requires l.header >= 2 && base + at <= |data|
    ensures var q := ParseFrom(l, data[base..], at);
            ParseFrom(l, data, base + at) == Parsed(q.frames, base + q.end, q.bad)
    decreases |data| - base - at
  {
    var suffix := data[base..];
    var size := SizeAt(l, suffix, at);
    assert size == SizeAt(l, data, base + at);
    if size > 0 {
      var f := data[base + at..base + at + size];
      assert suffix[at..at + size] == f;
      ParseSuffix(l, data, base, at + size);
      assert ParseFrom(l, suffix, at) == Prepend(f, ParseFrom(l, suffix, at + size));
      assert ParseFrom(l, data, base + at) == Prepend(f, ParseFrom(l, data, base + (at + size)));
    }
  }

  class FrameTally {
    var pending: seq<Byte>
    var byId: map<nat, nat>
    var protocolError: bool
    ghost var stream: seq<Byte>

    /** The tally is what one look at the whole stream would give. */
    ghost predicate Valid()
      reads this
    {
      var p := Parse(ClientFrames, stream);
      && pending == stream[p.end..] && protocolError == p.bad
      && Counted(byId, p.frames, |p.frames|)
    }

    constructor ()
      ensures Valid() && stream == []
    {
      pending, byId, protocolError, stream := [], map[], false, [];
    }

    method Count(ghost before: seq<seq<Byte>>, ghost raw: seq<seq<Byte>>, frames: seq<Frame>)
      requires frames == FramesOf(raw) && Counted(byId, before, |before|)
      modifies `byId
      ensures Counted(byId, before + raw, |before + raw|)
    {
      ghost var all := before + raw;
      forall id: nat
        ensures CountOf(all, id, |before|) == CountOf(before, id, |before|)
      {
        CountPrefix(before, raw, id, |before|);
      }
      for i := 0 to |frames|
        invariant Counted(byId, all, |before| + i)
      {
        var id := frames[i].id;
        assert FrameOf(all[|before| + i]) == frames[i];
        byId := byId[id := (if id in byId then byId[id] else 0) + 1];
      }
    }

    /** tally_feed, for any piece of the stream. */
    method Feed(bytes: seq<Byte>)
      requires Valid()
      modifies this
      ensures Valid() && stream == old(stream) + bytes
    {
      ghost var p := Parse(ClientFrames, stream);
      FeedStep(stream, bytes, pending);
      pending := pending + bytes;
      stream := stream + bytes;
      if protocolError {
        return;
      }
      var frames, consumed, error := ParseFrames(pending);
      Count(p.frames, Parse(ClientFrames, pending).frames, frames);
      pending := pending[consumed..];
      protocolError := error;
    }
  }

  /** What feeding more bytes does to the one-shot parse. */
  lemma FeedStep(stream: seq<Byte>, bytes: seq<Byte>, pending: seq<Byte>)
    requires pending == stream[Parse(ClientFrames, stream).end..]
    ensures var p, p' := Parse(ClientFrames, stream), Parse(ClientFrames, stream + bytes);
            var q := Parse(ClientFrames, pending + bytes);
            if p.bad then p' == p && (stream + bytes)[p.end..] == pending + bytes
            else p'.frames == p.frames + q.frames && p'.bad == q.bad
                 && (stream + bytes)[p'.end..] == (pending + bytes)[q.end..]
  {
    var end := Parse(ClientFrames, stream).end;
    ParseInPieces(ClientFrames, stream, bytes, 0);
    TailOf(stream, bytes, end);
    ParseSuffix(ClientFrames, stream + bytes, end, 0);
    DropTwice(stream + bytes, end, Parse(ClientFrames, pending + bytes).end);
  }

  lemma TailOf(a: seq<Byte>, b: seq<Byte>, k: nat)
    requires k <= |a|
    ensures (a + b)[k..] == a[k..] + b
  {
  }

  lemma DropTwice(a: seq<Byte>, k: nat, m: nat)
    requires k + m <= |a|
    ensures a[k..][m..] == a[k + m..]
  {
  }
}
