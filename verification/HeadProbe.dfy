/**
 The probe of a 200 response's first bytes for an early `event:error` frame, and the replay of the
 bytes it consumed.
 */
module HeadProbe {
  import opened Wrappers
  import opened LinePump

  const EVENT_PREFIX: Bytes := [101, 118, 101, 110, 116, 58] // "event:"
  const ERROR_NAME: Bytes := [101, 114, 114, 111, 114] // "error"

  const MAX_PREFIX_INSPECT_BYTES: nat := 8 * 1024

  /** The business code in an error payload, if it has one. */
  type Decoder = Bytes -> Option<int>

  predicate IsSpace(b: byte) {
    b == 32 || 9 <= b <= 13
  }

  function StripStart(s: Bytes): Bytes {
    if s != [] && IsSpace(s[0]) then StripStart(s[1..]) else s
  }

  function StripEnd(s: Bytes): Bytes {
    if s != [] && IsSpace(s[|s| - 1]) then StripEnd(s[..|s| - 1]) else s
  }

  function Strip(s: Bytes): Bytes {
    StripEnd(StripStart(s))
  }

  // ---- Frames ----

  /** What the lines of one block amount to. */
  datatype Frame = Frame(isError: bool, payload: Option<Bytes>, sawData: bool)

  function ReadLine(f: Frame, line: Bytes): Frame {
    if EVENT_PREFIX <= line then
      if Strip(line[|EVENT_PREFIX|..]) == ERROR_NAME then f.(isError := true) else f
    else if DATA_PREFIX <= line then
      var data := Strip(line[|DATA_PREFIX|..]);
      if data == DONE_MARKER then f
      else if f.isError then f.(payload := Some(data))
      else f.(sawData := true)
    else f
  }

  function ReadLines(lines: seq<Bytes>): Frame {
    if lines == [] then Frame(false, None, false)
    else ReadLine(ReadLines(lines[..|lines| - 1]), lines[|lines| - 1])
  }

  function ReadFrame(block: Bytes): Frame {
    ReadLines(Split(block))
  }

  predicate BreakAt(s: Bytes, i: int) {
    0 <= i < |s| - 1 && s[i] == NEWLINE && s[i + 1] == NEWLINE
  }

  /** Where the first blank line begins. */
  function FirstBreak(s: Bytes): (i: Option<nat>)
    ensures i.Some? ==> i.value + 2 <= |s|
  {
    if |s| < 2 then None
    else if s[0] == NEWLINE && s[1] == NEWLINE then Some(0)
    else
      var rest := FirstBreak(s[1..]);
      if rest.Some? then Some(rest.value + 1) else None
  }

  lemma {:induction false} FirstBreakMeaning(s: Bytes)
    ensures var i := FirstBreak(s);
      if i.Some? then BreakAt(s, i.value) && forall j | 0 <= j < i.value :: !BreakAt(s, j)
      else forall j :: !BreakAt(s, j)
  {
    if |s| >= 2 {
      FirstBreakMeaning(s[1..]);
      assert forall j :: j > 0 ==> (BreakAt(s, j) <==> BreakAt(s[1..], j - 1));
    }
  }

  // ---- Scanning ----

  datatype Found = Found(code: Option<int>, end: nat)

  /** A complete error frame before any data frame. */
  function Scan(decode: Decoder, text: Bytes): Option<Found>
    decreases |text|
  {
    var i := FirstBreak(text);
    if i.None? then None else
      var frame := ReadFrame(text[..i.value]);
      if frame.isError then Some(Found(if frame.payload.Some? then decode(frame.payload.value) else None, i.value + 2))
      else if frame.sawData then None
      else
        var rest := Scan(decode, text[i.value + 2..]);
        if rest.None? then None else Some(Found(rest.value.code, i.value + 2 + rest.value.end))
  }

  // ---- Probing ----

  /** What the network delivers: bytes, or a read error. */
  datatype Chunk = Data(bytes: Bytes) | ReadError

  datatype Peek = Healthy(prefix: Bytes, rest: seq<Chunk>) | Errored(code: Option<int>) | Unavailable

  function PeekFrom(decode: Decoder, prefix: Bytes, chunks: seq<Chunk>): Peek
    decreases |chunks|
  {
    var found := Scan(decode, prefix);
    if found.Some? then Errored(found.value.code)
    else if FirstBreak(prefix).Some? then Healthy(prefix, chunks)
    else if |prefix| >= MAX_PREFIX_INSPECT_BYTES then Healthy(prefix, chunks)
    else if chunks == [] || chunks[0].ReadError? then Unavailable
    else PeekFrom(decode, prefix + chunks[0].bytes, chunks[1..])
  }

  /** `into_byte_stream`: the consumed prefix first. */
  function Replay(prefix: Bytes, rest: seq<Chunk>): seq<Chunk> {
    if prefix == [] then rest else [Data(prefix)] + rest
  }

  /** All a reader sees of a stream: its bytes, and whether it broke off. */
  datatype Seen = Seen(bytes: Bytes, broken: bool)

  function ReadAll(chunks: seq<Chunk>): Seen {
    if chunks == [] then Seen([], false)
    else if chunks[0].ReadError? then Seen([], true)
    else var rest := ReadAll(chunks[1..]); Seen(chunks[0].bytes + rest.bytes, rest.broken)
  }

  // ---- The same, step by step ----

  method ScanLines(lines: seq<Bytes>) returns (isError: bool, payload: Option<Bytes>, sawData: bool)
    ensures Frame(isError, payload, sawData) == ReadLines(lines)
  {
    isError, payload, sawData := false, None, false;
    for k := 0 to |lines|
      invariant Frame(isError, payload, sawData) == ReadLines(lines[..k])
    {
      assert lines[..k + 1][..k] == lines[..k];
      var line := lines[k];
      if EVENT_PREFIX <= line {
        if Strip(line[|EVENT_PREFIX|..]) == ERROR_NAME { isError := true; }
      } else if DATA_PREFIX <= line {
        var data := Strip(line[|DATA_PREFIX|..]);
        if data == DONE_MARKER { continue; }
        if isError { payload := Some(data); } else { sawData := true; }
      }
    }
    assert lines[..|lines|] == lines;
  }

  /** What one complete frame contributes to the scan. */
  lemma ScanStep(decode: Decoder, text: Bytes, i: nat, frame: Frame, rest: Bytes)
    requires FirstBreak(text) == Some(i) && frame == ReadFrame(text[..i]) && rest == text[i + 2..]
    ensures Scan(decode, text) ==
      if frame.isError then Some(Found(if frame.payload.Some? then decode(frame.payload.value) else None, i + 2))
      else if frame.sawData then None
      else Shifted(Scan(decode, rest), i + 2)
  {
  }

  /** The first complete frame of the text, where it ends, and what follows it. */
  method NextFrame(text: Bytes) returns (end: Option<nat>, frame: Frame, rest: Bytes)
    ensures end == FirstBreak(text)
    ensures end.Some? ==> frame == ReadFrame(text[..end.value]) && rest == text[end.value + 2..]
  {
    end, frame, rest := FirstBreak(text), Frame(false, None, false), [];
    if end.Some? {
      var isError, payload, sawData := ScanLines(Split(text[..end.value]));
      frame, rest := Frame(isError, payload, sawData), text[end.value + 2..];
    }
  }

  /** Judges the first frame: an answer, or the text to go on with. */
  method ScanFrame(decode: Decoder, text: Bytes, offset: nat)
    returns (done: bool, found: Option<Found>, next: nat, rest: Bytes)
    ensures done ==> found == Shifted(Scan(decode, text), offset)
    ensures !done ==> |rest| < |text| && Shifted(Scan(decode, rest), next) == Shifted(Scan(decode, text), offset)
  {
    var end, frame;
    end, frame, rest := NextFrame(text);
    done, found, next := true, None, offset;
    if end.None? { return; }
    ScanStep(decode, text, end.value, frame, rest);
    next := offset + end.value + 2;
    if frame.isError {
      found := Some(Found(if frame.payload.Some? then decode(frame.payload.value) else None, next));
    } else {
      done := frame.sawData;
    }
  }

  method ScanPrefix(decode: Decoder, prefix: Bytes) returns (found: Option<Found>)
    ensures found == Scan(decode, prefix)
  {
    var offset, remaining := 0, prefix;
    while true
      invariant Shifted(Scan(decode, remaining), offset) == Shifted(Scan(decode, prefix), 0)
      decreases |remaining|
    {
      var done, next, rest;
      done, found, next, rest := ScanFrame(decode, remaining, offset);
      if done { return; }
      offset, remaining := next, rest;
    }
  }

  function Shifted(found: Option<Found>, offset: nat): Option<Found> {
    if found.None? then None else Some(Found(found.value.code, offset + found.value.end))
  }

  method PeekStreamError(decode: Decoder, stream: seq<Chunk>) returns (peek: Peek)
    ensures peek == PeekFrom(decode, [], stream)
  {
    var prefix: Bytes, next := [], 0;
    assert stream[0..] == stream;
    while true
      invariant next <= |stream|
      invariant PeekFrom(decode, prefix, stream[next..]) == PeekFrom(decode, [], stream)
      decreases |stream| - next
    {
      var found := ScanPrefix(decode, prefix);
      if found.Some? { return Errored(found.value.code); }
      if FirstBreak(prefix).Some? { return Healthy(prefix, stream[next..]); }
      if |prefix| >= MAX_PREFIX_INSPECT_BYTES { return Healthy(prefix, stream[next..]); }
      if next == |stream| || stream[next].ReadError? { return Unavailable; }
      assert stream[next..][1..] == stream[next + 1..];
      prefix := prefix + stream[next].bytes;
      next := next + 1;
    }
  }

  // ---- The probe never alters the stream ----

  /** Whatever the chunking, prefix and rest together are the stream as it was. */
  lemma {:induction false} ProbeKeepsTheStream(decode: Decoder, prefix: Bytes, chunks: seq<Chunk>)
    ensures var peek := PeekFrom(decode, prefix, chunks);
      peek.Healthy? ==>
        var seen, kept := ReadAll(chunks), ReadAll(Replay(peek.prefix, peek.rest));
        kept.bytes == prefix + seen.bytes && kept.broken == seen.broken
    decreases |chunks|
  {
    if Scan(decode, prefix).Some? || FirstBreak(prefix).Some? || |prefix| >= MAX_PREFIX_INSPECT_BYTES {
      if prefix != [] { assert Replay(prefix, chunks)[1..] == chunks; }
    } else if chunks != [] && chunks[0].Data? {
      ProbeKeepsTheStream(decode, prefix + chunks[0].bytes, chunks[1..]);
    }
  }

  // ---- What the verdict depends on ----

  /** The verdict without the bytes. */
  datatype Verdict = StreamHealthy | StreamErrored(code: Option<int>) | StreamUnavailable

  function VerdictOf(peek: Peek): Verdict {
    match peek
    case Healthy(_, _) => StreamHealthy
    case Errored(code) => StreamErrored(code)
    case Unavailable => StreamUnavailable
  }

  /** One way of cutting `whole` into chunks. */
  predicate Cuts(chunks: seq<Chunk>, whole: Bytes) {
    ReadAll(chunks) == Seen(whole, false)
  }

  function Judge(decode: Decoder, chunks: seq<Chunk>): Verdict {
    VerdictOf(PeekFrom(decode, [], chunks))
  }

  /** A blank line stays the first one when more bytes arrive. */
  lemma BreakStays(s: Bytes, more: Bytes)
    ensures FirstBreak(s).Some? ==> FirstBreak(s + more) == FirstBreak(s)
    ensures FirstBreak(s).None? && FirstBreak(s + more).Some? ==> FirstBreak(s + more).value + 2 > |s|
  {
    var both := s + more;
    FirstBreakMeaning(s);
    FirstBreakMeaning(both);
    assert forall j | BreakAt(s, j) :: BreakAt(both, j);
    assert forall j | j + 2 <= |s| && BreakAt(both, j) :: BreakAt(s, j);
  }

  /** An error once found stays found, and where. */
  lemma {:induction false} FoundStays(decode: Decoder, s: Bytes, more: Bytes)
    ensures Scan(decode, s).Some? ==> Scan(decode, s + more) == Scan(decode, s)
    decreases |s|
  {
    BreakStays(s, more);
    var i := FirstBreak(s);
    if i.Some? {
      var frame, rest := ReadFrame(s[..i.value]), s[i.value + 2..];
      assert (s + more)[..i.value] == s[..i.value];
      assert (s + more)[i.value + 2..] == rest + more;
      FoundStays(decode, rest, more);
      ScanStep(decode, s, i.value, frame, rest);
      ScanStep(decode, s + more, i.value, frame, rest + more);
    }
  }

  /** Without an error in the whole, only the first blank line and the size matter. */
  lemma {:induction false} NoErrorVerdict(decode: Decoder, prefix: Bytes, chunks: seq<Chunk>)
    requires !ReadAll(chunks).broken && Scan(decode, prefix + ReadAll(chunks).bytes).None?
    ensures var whole := prefix + ReadAll(chunks).bytes;
      VerdictOf(PeekFrom(decode, prefix, chunks)) ==
        if FirstBreak(whole).Some? || |whole| >= 8192 then StreamHealthy else StreamUnavailable
    decreases |chunks|
  {
    var rest := ReadAll(chunks).bytes;
    FoundStays(decode, prefix, rest);
    BreakStays(prefix, rest);
    if chunks == [] {
      assert prefix + rest == prefix;
    } else {
      assert (prefix + chunks[0].bytes) + ReadAll(chunks[1..]).bytes == prefix + rest;
      if FirstBreak(prefix).None? && |prefix| < 8192 {
        NoErrorVerdict(decode, prefix + chunks[0].bytes, chunks[1..]);
      }
    }
  }

  /** The first frame is an error frame, and the probe is sure to read all of it. */
  predicate PromptError(whole: Bytes) {
    var i := FirstBreak(whole);
    i.Some? && ReadFrame(whole[..i.value]).isError && i.value + 2 <= 8192
  }

  lemma {:induction false} ErrorVerdict(decode: Decoder, prefix: Bytes, chunks: seq<Chunk>)
    requires !ReadAll(chunks).broken && PromptError(prefix + ReadAll(chunks).bytes)
    ensures var found := Scan(decode, prefix + ReadAll(chunks).bytes);
      found.Some? && VerdictOf(PeekFrom(decode, prefix, chunks)) == StreamErrored(found.value.code)
    decreases |chunks|
  {
    var rest := ReadAll(chunks).bytes;
    var whole := prefix + rest;
    BreakStays(prefix, rest);
    assert chunks == [] ==> whole == prefix;
    if FirstBreak(prefix).Some? {
      assert whole[..FirstBreak(prefix).value] == prefix[..FirstBreak(prefix).value];
    } else {
      assert (prefix + chunks[0].bytes) + ReadAll(chunks[1..]).bytes == whole;
      ErrorVerdict(decode, prefix + chunks[0].bytes, chunks[1..]);
    }
  }

  lemma TwoChunks(whole: Bytes, n: nat)
    requires n <= |whole|
    ensures Cuts([Data(whole[..n]), Data(whole[n..])], whole) && Cuts([Data(whole)], whole)
  {
    OneChunk(whole);
    OneChunk(whole[n..]);
    var two := [Data(whole[..n]), Data(whole[n..])];
    assert two[1..] == [Data(whole[n..])];
    assert whole[..n] + whole[n..] == whole;
  }

  lemma OneChunk(bytes: Bytes)
    ensures Cuts([Data(bytes)], bytes)
  {
    assert [Data(bytes)][1..] == [];
    assert bytes + [] == bytes;
  }

  /** One chunk with everything: judged by the scan. */
  lemma WholeVerdict(decode: Decoder, whole: Bytes)
    requires Scan(decode, whole).Some?
    ensures Judge(decode, [Data(whole)]) == StreamErrored(Scan(decode, whole).value.code)
  {
    var one := [Data(whole)];
    assert [] + whole == whole;
    assert Scan(decode, []).None? && FirstBreak([]).None?;
    assert PeekFrom(decode, [], one) == PeekFrom(decode, [] + one[0].bytes, one[1..]);
    assert PeekFrom(decode, whole, one[1..]) == Errored(Scan(decode, whole).value.code);
  }

  /** Cutting after `n` bytes that are judged healthy by themselves. */
  lemma CutVerdict(decode: Decoder, whole: Bytes, n: nat)
    requires n <= |whole| && Scan(decode, whole[..n]).None?
    requires FirstBreak(whole[..n]).Some? || n >= 8192
    ensures Judge(decode, [Data(whole[..n]), Data(whole[n..])]) == StreamHealthy
  {
    var two := [Data(whole[..n]), Data(whole[n..])];
    assert [] + whole[..n] == whole[..n];
    assert Scan(decode, []).None? && FirstBreak([]).None?;
    assert PeekFrom(decode, [], two) == PeekFrom(decode, [] + two[0].bytes, two[1..]);
  }

  /** Where a chunk boundary hides an error that the whole shows. */
  lemma HidingCut(decode: Decoder, whole: Bytes) returns (n: nat)
    requires Scan(decode, whole).Some? && !PromptError(whole)
    ensures n <= |whole| && Judge(decode, [Data(whole[..n]), Data(whole[n..])]) == StreamHealthy
  {
    var i := FirstBreak(whole).value;
    var frame := ReadFrame(whole[..i]);
    if frame.isError {
      n := 8192;
      assert whole == whole[..n] + whole[n..];
      BreakStays(whole[..n], whole[n..]);
      assert FirstBreak(whole[..n]).None?;
    } else {
      n := i + 2;
      assert whole == whole[..n] + whole[n..];
      BreakStays(whole[..n], whole[n..]);
      FirstBreakMeaning(whole);
      FirstBreakMeaning(whole[..n]);
      assert BreakAt(whole[..n], i);
      assert whole[..n][..i] == whole[..i] && whole[..n][i + 2..] == [];
    }
    CutVerdict(decode, whole, n);
  }

  /** Every chunking of these bytes gets the same verdict. */
  ghost predicate ChunksDoNotMatter(decode: Decoder, whole: Bytes) {
    forall chunks: seq<Chunk> | Cuts(chunks, whole) :: Judge(decode, chunks) == Judge(decode, [Data(whole)])
  }

  /**
   The verdict is the same for every chunking exactly when the bytes show no early error, or show it
   in a first frame of at most 8192 bytes.  A data frame first means no early error, so it is settled.
   */
  lemma ChunksMatterIff(decode: Decoder, whole: Bytes)
    ensures ChunksDoNotMatter(decode, whole) <==> Scan(decode, whole).None? || PromptError(whole)
  {
    TwoChunks(whole, |whole|);
    if Scan(decode, whole).None? || PromptError(whole) {
      forall chunks: seq<Chunk> | Cuts(chunks, whole) ensures Judge(decode, chunks) == Judge(decode, [Data(whole)]) {
        SettledVerdict(decode, whole, chunks);
        SettledVerdict(decode, whole, [Data(whole)]);
      }
    } else {
      var n := HidingCut(decode, whole);
      TwoChunks(whole, n);
      WholeVerdict(decode, whole);
      assert Judge(decode, [Data(whole[..n]), Data(whole[n..])]) != Judge(decode, [Data(whole)]);
    }
  }

  lemma SettledVerdict(decode: Decoder, whole: Bytes, chunks: seq<Chunk>)
    requires Cuts(chunks, whole) && (Scan(decode, whole).None? || PromptError(whole))
    ensures Judge(decode, chunks) ==
      if Scan(decode, whole).Some? then StreamErrored(Scan(decode, whole).value.code)
      else if FirstBreak(whole).Some? || |whole| >= 8192 then StreamHealthy
      else StreamUnavailable
  {
    assert [] + whole == whole;
    if PromptError(whole) {
      ErrorVerdict(decode, [], chunks);
    } else {
      NoErrorVerdict(decode, [], chunks);
    }
  }

  /** When a data frame comes first, no chunking makes a later error retryable. */
  lemma ErrorAfterDataIsNotRetried(decode: Decoder, whole: Bytes, chunks: seq<Chunk>)
    requires FirstBreak(whole).Some? && Cuts(chunks, whole)
    requires var frame := ReadFrame(whole[..FirstBreak(whole).value]); frame.sawData && !frame.isError
    ensures Judge(decode, chunks) == StreamHealthy
  {
    SettledVerdict(decode, whole, chunks);
  }

  /** Lines ended by CR LF never make a blank line: such a stream is refused unless it fills the probe. */
  lemma CarriageReturnsHideFrames(decode: Decoder, whole: Bytes, chunks: seq<Chunk>)
    requires forall i | 0 < i < |whole| && whole[i] == NEWLINE :: whole[i - 1] == 13
    requires Cuts(chunks, whole)
    ensures Judge(decode, chunks) == if |whole| >= 8192 then StreamHealthy else StreamUnavailable
  {
    FirstBreakMeaning(whole);
    SettledVerdict(decode, whole, chunks);
  }

  // ---- A cut that hides an error ----

  const BLANK_LINE: Bytes := [NEWLINE, NEWLINE]

  /** `:ping`, a comment. */
  const COMMENT: Bytes := [58, 112, 105, 110, 103]

  const ERROR_LINE: Bytes := EVENT_PREFIX + ERROR_NAME

  /** `data:{}`. */
  const BODY_LINE: Bytes := DATA_PREFIX + [123, 125]

  const ERROR_BLOCK: Bytes := ERROR_LINE + [NEWLINE] + BODY_LINE

  lemma FirstBlock(block: Bytes, rest: Bytes)
    requires block != [] && block[|block| - 1] != NEWLINE && forall j :: !BreakAt(block, j)
    ensures var whole := block + BLANK_LINE + rest;
      FirstBreak(whole) == Some(|block|) && whole[..|block|] == block && whole[|block| + 2..] == rest
  {
    var whole := block + BLANK_LINE + rest;
    FirstBreakMeaning(whole);
    assert BreakAt(whole, |block|);
    forall j | 0 <= j < |block| ensures !BreakAt(whole, j) {
      if j < |block| - 1 { assert !BreakAt(block, j); }
    }
  }

  lemma CommentFrame()
    ensures ReadFrame(COMMENT) == Frame(false, None, false)
  {
    SplitOne(COMMENT);
    assert [COMMENT][..0] == [];
    assert ReadLines([COMMENT][..0]) == Frame(false, None, false);
    assert !(EVENT_PREFIX <= COMMENT) && !(DATA_PREFIX <= COMMENT);
  }

  lemma ErrorLines()
    ensures ReadLine(Frame(false, None, false), ERROR_LINE) == Frame(true, None, false)
    ensures ReadLine(Frame(true, None, false), BODY_LINE) == Frame(true, Some([123, 125]), false)
  {
    assert EVENT_PREFIX <= ERROR_LINE && ERROR_LINE[|EVENT_PREFIX|..] == ERROR_NAME && Strip(ERROR_NAME) == ERROR_NAME;
    var body: Bytes := [123, 125];
    assert DATA_PREFIX <= BODY_LINE && BODY_LINE[|DATA_PREFIX|..] == body && Strip(body) == body;
    assert !(EVENT_PREFIX <= BODY_LINE) by { assert BODY_LINE[0] == 100; }
    assert |body| != |DONE_MARKER|;
  }

  lemma ErrorFrame()
    ensures ReadFrame(ERROR_BLOCK) == Frame(true, Some([123, 125]), false)
  {
    var lines := [ERROR_LINE, BODY_LINE];
    SplitFirst(ERROR_LINE, BODY_LINE);
    SplitOne(BODY_LINE);
    assert [ERROR_LINE] + [BODY_LINE] == lines;
    assert lines[..1] == [ERROR_LINE] && [ERROR_LINE][..0] == [];
    ErrorLines();
    assert ReadLines([ERROR_LINE][..0]) == Frame(false, None, false);
    assert ReadLines([ERROR_LINE]) == Frame(true, None, false);
  }

  lemma CommentThenError(decode: Decoder)
    ensures Scan(decode, COMMENT + BLANK_LINE).None? && FirstBreak(COMMENT + BLANK_LINE).Some?
    ensures Scan(decode, COMMENT + BLANK_LINE + (ERROR_BLOCK + BLANK_LINE)) ==
      Some(Found(decode([123, 125]), |COMMENT + BLANK_LINE + (ERROR_BLOCK + BLANK_LINE)|))
  {
    CommentFrame();
    ErrorFrame();
    FirstBlock(COMMENT, []);
    FirstBlock(COMMENT, ERROR_BLOCK + BLANK_LINE);
    FirstBlock(ERROR_BLOCK, []);
    assert COMMENT + BLANK_LINE + [] == COMMENT + BLANK_LINE;
    assert ERROR_BLOCK + BLANK_LINE + [] == ERROR_BLOCK + BLANK_LINE;
  }

  /**
   A comment frame and an error frame: refused as an error when they come in one chunk, taken for a healthy
   stream when the chunk ends after the comment.
   */
  lemma CutAfterComment(decode: Decoder)
    ensures Judge(decode, [Data(COMMENT + BLANK_LINE + (ERROR_BLOCK + BLANK_LINE))]) == StreamErrored(decode([123, 125]))
    ensures Judge(decode, [Data(COMMENT + BLANK_LINE), Data(ERROR_BLOCK + BLANK_LINE)]) == StreamHealthy
  {
    var head, tail := COMMENT + BLANK_LINE, ERROR_BLOCK + BLANK_LINE;
    CommentThenError(decode);
    WholeVerdict(decode, head + tail);
    assert (head + tail)[..|head|] == head && (head + tail)[|head|..] == tail;
    CutVerdict(decode, head + tail, |head|);
  }
}
