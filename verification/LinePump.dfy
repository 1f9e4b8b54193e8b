/**
 The line pump in front of both stream converters: bytes go into a buffer, complete lines
 come out, and `data:` payloads go to the converter until `[DONE]`.

 The pump is generic in the state `S` it feeds: `feed(s, payload)` is the converter's
 `feed_chunk` on the parsed payload, or `s` itself when the payload is not JSON.
 */
module LinePump {
  import opened Wrappers

  newtype byte = x: int | 0 <= x < 256

  type Bytes = seq<byte>

  const NEWLINE: byte := 10
  const DATA_PREFIX: Bytes := [100, 97, 116, 97, 58] // "data:"
  const DONE_MARKER: Bytes := [91, 68, 79, 78, 69, 93] // "[DONE]"

  /** Longer lines are dropped whole. */
  const MAX_SSE_LINE_BYTES := 8 * 1024 * 1024

  type Feed<!S> = (S, Bytes) -> S

  predicate IsBlank(b: byte) {
    b == 32 || b == 9 || b == 13
  }

  function TrimStart(s: Bytes): Bytes {
    if s != [] && IsBlank(s[0]) then TrimStart(s[1..]) else s
  }

  function TrimEnd(s: Bytes): Bytes {
    if s != [] && IsBlank(s[|s| - 1]) then TrimEnd(s[..|s| - 1]) else s
  }

  function Trim(s: Bytes): Bytes {
    TrimEnd(TrimStart(s))
  }

  /** What one line means: nothing at all, an event line without data, a payload, or the end. */
  datatype Meaning = Ignored | Noted | Payload(payload: Bytes) | Done

  function Read(raw: Bytes): Meaning {
    var line := Trim(raw);
    if line == [] || |line| > MAX_SSE_LINE_BYTES then Ignored
    else if !(DATA_PREFIX <= line) then Noted
    else
      var payload := Trim(line[|DATA_PREFIX|..]);
      if payload == DONE_MARKER then Done else Payload(payload)
  }

  /** `sawEvent` is the watchdog's `got_first_event`; `done` is `on_bytes` returning `Some`. */
  datatype Pump<S> = Pump(buffer: Bytes, state: S, sawEvent: bool, done: bool)

  function FirstNewline(s: Bytes): (i: Option<nat>)
    ensures i.Some? ==> i.value < |s| && s[i.value] == NEWLINE && NEWLINE !in s[..i.value]
    ensures i.None? ==> NEWLINE !in s
  {
    if s == [] then None
    else if s[0] == NEWLINE then Some(0)
    else
      var rest := FirstNewline(s[1..]);
      assert s == [s[0]] + s[1..];
      if rest.Some? then
        assert s[..rest.value + 1] == [s[0]] + s[1..][..rest.value];
        Some(rest.value + 1)
      else None
  }

  function OnLine<S>(feed: Feed<S>, p: Pump<S>, raw: Bytes): Pump<S> {
    match Read(raw)
    case Ignored => p
    case Noted => p.(sawEvent := true)
    case Payload(payload) => p.(sawEvent := true, state := feed(p.state, payload))
    case Done => p.(sawEvent := true, done := true)
  }

  function Drain<S>(feed: Feed<S>, p: Pump<S>): Pump<S>
    decreases |p.buffer|
  {
    var i := FirstNewline(p.buffer);
    if p.done || i.None? then p
    else Drain(feed, OnLine(feed, p.(buffer := p.buffer[i.value + 1..]), p.buffer[..i.value]))
  }

  /** One `on_bytes` call. */
  function Absorb<S>(feed: Feed<S>, p: Pump<S>, bytes: Bytes): Pump<S> {
    Drain(feed, p.(buffer := p.buffer + bytes))
  }

  /** The drive loop: chunk after chunk, until `[DONE]` or the end of input. */
  function RunChunks<S>(feed: Feed<S>, p: Pump<S>, chunks: seq<Bytes>): Pump<S>
    decreases |chunks|
  {
    if p.done || chunks == [] then p else RunChunks(feed, Absorb(feed, p, chunks[0]), chunks[1..])
  }

  function Concat(chunks: seq<Bytes>): Bytes {
    if chunks == [] then [] else chunks[0] + Concat(chunks[1..])
  }

  // ---- The plain specification ----

  /** `bytes` split at every newline; the last piece is the unterminated remainder. */
  function Split(bytes: Bytes): (pieces: seq<Bytes>)
    ensures |pieces| >= 1
  {
    if bytes == [] then [[]] else
      var pieces, b := Split(bytes[..|bytes| - 1]), bytes[|bytes| - 1];
      if b == NEWLINE then pieces + [[]] else pieces[|pieces| - 1 := pieces[|pieces| - 1] + [b]]
  }

  function CompleteLines(bytes: Bytes): seq<Bytes> {
    Split(bytes)[..|Split(bytes)| - 1]
  }

  function Remainder(bytes: Bytes): Bytes {
    Split(bytes)[|Split(bytes)| - 1]
  }

  /** The payloads of the `data:` lines before the first `[DONE]`. */
  function Payloads(lines: seq<Bytes>): seq<Bytes> {
    if lines == [] then [] else
      match Read(lines[0])
      case Done => []
      case Payload(payload) => [payload] + Payloads(lines[1..])
      case _ => Payloads(lines[1..])
  }

  predicate HasDone(lines: seq<Bytes>) {
    exists i :: 0 <= i < |lines| && Read(lines[i]) == Done
  }

  function FeedPayloads<S>(feed: Feed<S>, s: S, payloads: seq<Bytes>): S {
    if payloads == [] then s else FeedPayloads(feed, feed(s, payloads[0]), payloads[1..])
  }

  // ---- Fragmentation independence ----

  /** The two runs agree in all that is observed: converter state, watchdog flag, end, and what is left over. */
  ghost predicate Agree<S(!new)>(a: Pump<S>, b: Pump<S>) {
    a.state == b.state && a.sawEvent == b.sawEvent && a.done == b.done && (!a.done ==> a.buffer == b.buffer)
  }

  lemma {:induction false} FirstNewlineAt(s: Bytes, i: nat)
    requires i < |s| && s[i] == NEWLINE && NEWLINE !in s[..i]
    ensures FirstNewline(s) == Some(i)
  {
    if i > 0 {
      assert s[0] == s[..i][0] && s[1..][..i - 1] == s[..i][1..];
      FirstNewlineAt(s[1..], i - 1);
    }
  }

  /** More bytes leave the first line as it was. */
  lemma FirstLineStays(s: Bytes, more: Bytes)
    requires FirstNewline(s).Some?
    ensures var i := FirstNewline(s).value;
      FirstNewline(s + more) == Some(i) && (s + more)[..i] == s[..i] && (s + more)[i + 1..] == s[i + 1..] + more
  {
    var i := FirstNewline(s).value;
    assert (s + more)[..i] == s[..i];
    FirstNewlineAt(s + more, i);
  }

  /** What is done with a line does not depend on the bytes behind it. */
  lemma OnLineMeaning<S>(feed: Feed<S>, p: Pump<S>, line: Bytes, more: Bytes)
    ensures var q := OnLine(feed, p, line);
      q.buffer == p.buffer && q.done == (p.done || Read(line) == Done) &&
      q.state == (if Read(line).Payload? then feed(p.state, Read(line).payload) else p.state) &&
      OnLine(feed, p.(buffer := p.buffer + more), line) == q.(buffer := q.buffer + more)
  {
  }

  /** Draining now and then again with more bytes is draining once with all of them. */
  lemma {:induction false} DrainAppend<S(!new)>(feed: Feed<S>, p: Pump<S>, more: Bytes)
    requires !p.done
    ensures var q := Drain(feed, p);
      Agree(if q.done then q else Drain(feed, q.(buffer := q.buffer + more)),
            Drain(feed, p.(buffer := p.buffer + more)))
    decreases |p.buffer|
  {
    var i := FirstNewline(p.buffer);
    if i.Some? {
      var line, rest := p.buffer[..i.value], p.buffer[i.value + 1..];
      FirstLineStays(p.buffer, more);
      var p1 := OnLine(feed, p.(buffer := rest), line);
      OnLineMeaning(feed, p.(buffer := rest), line, more);
      DrainStep(feed, p, i.value);
      DrainStep(feed, p.(buffer := p.buffer + more), i.value);
      if !p1.done { DrainAppend(feed, p1, more); }
    }
  }

  lemma DrainStep<S>(feed: Feed<S>, p: Pump<S>, i: nat)
    requires !p.done && FirstNewline(p.buffer) == Some(i)
    ensures Drain(feed, p) == Drain(feed, OnLine(feed, p.(buffer := p.buffer[i + 1..]), p.buffer[..i]))
  {
  }

  lemma {:induction false} DrainedHasNoLine<S>(feed: Feed<S>, p: Pump<S>)
    ensures Drain(feed, p).done || NEWLINE !in Drain(feed, p).buffer
    decreases |p.buffer|
  {
    var i := FirstNewline(p.buffer);
    if !p.done && i.Some? {
      DrainedHasNoLine(feed, OnLine(feed, p.(buffer := p.buffer[i.value + 1..]), p.buffer[..i.value]));
    }
  }

  /** However the bytes are cut, running the pump over the pieces is running it once over the whole. */
  lemma {:induction false} ChunksDoNotMatter<S(!new)>(feed: Feed<S>, p: Pump<S>, chunks: seq<Bytes>)
    requires !p.done && NEWLINE !in p.buffer
    decreases |chunks|
    ensures Agree(RunChunks(feed, p, chunks), Absorb(feed, p, Concat(chunks)))
  {
    if chunks == [] {
      assert p.buffer + [] == p.buffer;
    } else {
      var p0 := p.(buffer := p.buffer + chunks[0]);
      var q, rest := Drain(feed, p0), Concat(chunks[1..]);
      assert p.buffer + Concat(chunks) == p.buffer + chunks[0] + rest;
      DrainAppend(feed, p0, rest);
      DrainedHasNoLine(feed, p0);
      if !q.done { ChunksDoNotMatter(feed, q, chunks[1..]); }
    }
  }

  /** Two ways of cutting the same bytes cannot be told apart. */
  lemma FragmentationIndependence<S(!new)>(feed: Feed<S>, start: S, a: seq<Bytes>, b: seq<Bytes>)
    requires Concat(a) == Concat(b)
    ensures Agree(RunChunks(feed, Pump([], start, false, false), a), RunChunks(feed, Pump([], start, false, false), b))
  {
    ChunksDoNotMatter(feed, Pump([], start, false, false), a);
    ChunksDoNotMatter(feed, Pump([], start, false, false), b);
  }

  // ---- The pump meets the plain specification ----

  /** Splitting off the first line. */
  lemma {:induction false} SplitFirst(line: Bytes, rest: Bytes)
    requires NEWLINE !in line
    ensures Split(line + [NEWLINE] + rest) == [line] + Split(rest)
  {
    var all := line + [NEWLINE] + rest;
    if rest == [] {
      assert all[..|all| - 1] == line;
      SplitOne(line);
    } else {
      var n := |rest| - 1;
      assert all[..|all| - 1] == line + [NEWLINE] + rest[..n];
      SplitFirst(line, rest[..n]);
    }
  }

  lemma {:induction false} SplitOne(line: Bytes)
    requires NEWLINE !in line
    ensures Split(line) == [line]
  {
    if line != [] {
      assert line[|line| - 1] in line && line == line[..|line| - 1] + [line[|line| - 1]];
      SplitOne(line[..|line| - 1]);
    }
  }

  lemma HasDoneFirst(lines: seq<Bytes>)
    requires lines != []
    ensures HasDone(lines) <==> Read(lines[0]) == Done || HasDone(lines[1..])
  {
    if HasDone(lines) && Read(lines[0]) != Done {
      var j :| 0 <= j < |lines| && Read(lines[j]) == Done;
      assert Read(lines[1..][j - 1]) == Done;
    }
    if HasDone(lines[1..]) {
      var j :| 0 <= j < |lines[1..]| && Read(lines[1..][j]) == Done;
      assert Read(lines[j + 1]) == Done;
    }
  }

  lemma FirstLine(bytes: Bytes)
    requires FirstNewline(bytes).Some?
    ensures var i := FirstNewline(bytes).value;
            && CompleteLines(bytes) == [bytes[..i]] + CompleteLines(bytes[i + 1..])
            && Remainder(bytes) == Remainder(bytes[i + 1..])
  {
    var i := FirstNewline(bytes).value;
    assert bytes == bytes[..i] + [NEWLINE] + bytes[i + 1..];
    SplitFirst(bytes[..i], bytes[i + 1..]);
  }

  lemma {:induction false} DrainMeetsSplit<S(!new)>(feed: Feed<S>, p: Pump<S>)
    requires !p.done
    ensures var q, lines := Drain(feed, p), CompleteLines(p.buffer);
            && q.state == FeedPayloads(feed, p.state, Payloads(lines))
            && q.done == HasDone(lines)
            && (!q.done ==> q.buffer == Remainder(p.buffer))
    decreases |p.buffer|
  {
    var i := FirstNewline(p.buffer);
    if i.None? {
      SplitOne(p.buffer);
      assert CompleteLines(p.buffer) == [];
    } else {
      var line, rest := p.buffer[..i.value], p.buffer[i.value + 1..];
      FirstLine(p.buffer);
      var lines := CompleteLines(p.buffer);
      assert lines[1..] == CompleteLines(rest);
      HasDoneFirst(lines);
      var p1 := OnLine(feed, p.(buffer := rest), line);
      OnLineMeaning(feed, p.(buffer := rest), line, []);
      DrainStep(feed, p, i.value);
      if !p1.done { DrainMeetsSplit(feed, p1); }
    }
  }

  /** For every cutting: split on newline, trim, take the `data:` lines, stop at `[DONE]`. */
  lemma PumpMeetsSplit<S(!new)>(feed: Feed<S>, start: S, chunks: seq<Bytes>)
    ensures var q, lines := RunChunks(feed, Pump([], start, false, false), chunks), CompleteLines(Concat(chunks));
            && q.state == FeedPayloads(feed, start, Payloads(lines))
            && q.done == HasDone(lines)
            && (!q.done ==> q.buffer == Remainder(Concat(chunks)))
  {
    ChunksDoNotMatter(feed, Pump([], start, false, false), chunks);
    assert [] + Concat(chunks) == Concat(chunks);
    DrainMeetsSplit(feed, Pump(Concat(chunks), start, false, false));
  }

  /** Nothing is lost in splitting: the pieces joined by newlines are the bytes. */
  function Unsplit(pieces: seq<Bytes>): Bytes
    requires pieces != []
  {
    if |pieces| == 1 then pieces[0] else Unsplit(pieces[..|pieces| - 1]) + [NEWLINE] + pieces[|pieces| - 1]
  }

  lemma {:induction false} SplitIsFaithful(bytes: Bytes)
    ensures Unsplit(Split(bytes)) == bytes
    ensures forall i | 0 <= i < |Split(bytes)| :: NEWLINE !in Split(bytes)[i]
  {
    if bytes != [] {
      var init, b := bytes[..|bytes| - 1], bytes[|bytes| - 1];
      SplitIsFaithful(init);
      var pieces, all := Split(init), Split(bytes);
      if b == NEWLINE {
        assert all[..|all| - 1] == pieces;
      } else {
        assert all[..|all| - 1] == pieces[..|pieces| - 1];
      }
      assert bytes == init + [b];
    }
  }

  // ---- The pump as the object it is ----

  class StreamPump<S> {
    const feed: Feed<S>
    var buffer: Bytes
    var state: S
    var sawEvent: bool

    constructor (feed: Feed<S>, start: S)
      ensures this.feed == feed && buffer == [] && state == start && !sawEvent
    {
      this.feed, buffer, state, sawEvent := feed, [], start, false;
    }

    method OnBytes(bytes: Bytes) returns (done: bool)
      modifies this
      ensures Pump(buffer, state, sawEvent, done) == Absorb(feed, old(Pump(buffer, state, sawEvent, false)), bytes)
    {
      buffer := buffer + bytes;
      ghost var p := Pump(buffer, state, sawEvent, false);
      var newline := FirstNewline(buffer);
      while newline.Some?
        invariant newline == FirstNewline(buffer)
        invariant Drain(feed, p) == Drain(feed, Pump(buffer, state, sawEvent, false))
        decreases |buffer|
      {
        var raw := buffer[..newline.value];
        buffer := buffer[newline.value + 1..];
        newline := FirstNewline(buffer);
        var line := Trim(raw);
        if line == [] || |line| > MAX_SSE_LINE_BYTES { continue; }
        sawEvent := true;
        if !(DATA_PREFIX <= line) { continue; }
        var payload := Trim(line[|DATA_PREFIX|..]);
        if payload == DONE_MARKER { return true; }
        state := feed(state, payload);
      }
      return false;
    }
  }
}
