/** How single lines are read, byte for byte: by the line pump, and by the probe of a stream's head. */
module LineRules {
  import opened Wrappers
  import opened LinePump
  import HeadProbe

  // ---- White space around a text ----

  /** Space, tab and carriage return. */
  predicate White(b: byte) {
    b == 32 || b == 9 || b == 13
  }

  predicate AllBlank(s: Bytes) {
    forall i | 0 <= i < |s| :: White(s[i])
  }

  predicate Bare(s: Bytes) {
    s == [] || (!White(s[0]) && !White(s[|s| - 1]))
  }

  lemma {:induction false} BlankStart(a: Bytes, s: Bytes)
    requires AllBlank(a) && (s == [] || !White(s[0]))
    ensures TrimStart(a + s) == s
  {
    if a == [] {
      assert a + s == s;
    } else {
      assert (a + s)[1..] == a[1..] + s;
      BlankStart(a[1..], s);
    }
  }

  lemma {:induction false} BlankEnd(s: Bytes, c: Bytes)
    requires AllBlank(c) && (s == [] || !White(s[|s| - 1]))
    ensures TrimEnd(s + c) == s
  {
    if c == [] {
      assert s + c == s;
    } else {
      assert (s + c)[..|s + c| - 1] == s + c[..|c| - 1];
      BlankEnd(s, c[..|c| - 1]);
    }
  }

  lemma {:induction false} AllTrimmed(s: Bytes)
    requires AllBlank(s)
    ensures TrimStart(s) == []
  {
    if s != [] { AllTrimmed(s[1..]); }
  }

  /** Trimming takes the white space at both ends, and nothing else. */
  lemma TrimIsExact(a: Bytes, s: Bytes, c: Bytes)
    requires AllBlank(a) && AllBlank(c) && Bare(s)
    ensures Trim(a + s + c) == s
  {
    if s == [] {
      assert a + s + c == a + c;
      AllTrimmed(a + c);
    } else {
      assert a + s + c == a + (s + c);
      BlankStart(a, s + c);
      BlankEnd(s, c);
    }
  }

  // ---- Lines of the stream ----

  /** `data:`. */
  const DATA: Bytes := [100, 97, 116, 97, 58]

  /** `[DONE]`. */
  const MARK: Bytes := [91, 68, 79, 78, 69, 93]

  lemma DataPrefix(rest: Bytes)
    ensures DATA_PREFIX <= DATA + rest && (DATA + rest)[|DATA_PREFIX|..] == rest
  {
  }

  /**
   A data line, with any white space around `data:` and around the payload, carries the payload or ends the
   stream; a longer one than 8 MiB is dropped.
   */
  lemma DataLineReads(a: Bytes, b: Bytes, payload: Bytes, c: Bytes)
    requires AllBlank(a) && AllBlank(b) && AllBlank(c) && Bare(payload)
    ensures Read(a + DATA + b + payload + c) ==
      if 5 + (if payload == [] then 0 else |b| + |payload|) > 8388608 then Ignored
      else if payload == MARK then Done else Payload(payload)
  {
    var inner := if payload == [] then [] else b + payload;
    var tail := if payload == [] then b + c else c;
    assert a + DATA + b + payload + c == a + (DATA + inner) + tail;
    assert (DATA + inner)[|DATA + inner| - 1] == if payload == [] then 58 else payload[|payload| - 1];
    TrimIsExact(a, DATA + inner, tail);
    DataPrefix(inner);
    TrimIsExact(if payload == [] then [] else b, payload, []);
    assert (if payload == [] then [] else b) + payload + [] == inner;
  }

  /** Any other line counts as a sign of life, unless it is blank or too long. */
  lemma OtherLineReads(a: Bytes, line: Bytes, c: Bytes)
    requires AllBlank(a) && AllBlank(c) && Bare(line) && !(DATA <= line)
    ensures Read(a + line + c) == if line == [] || |line| > 8388608 then Ignored else Noted
  {
    TrimIsExact(a, line, c);
  }

  // ---- Lines of the head ----

  /** Here vertical tab and form feed are white space, too, and so is a newline. */
  predicate Wide(b: byte) {
    b == 32 || b == 9 || b == 10 || b == 11 || b == 12 || b == 13
  }

  predicate AllSpace(s: Bytes) {
    forall i | 0 <= i < |s| :: Wide(s[i])
  }

  predicate Naked(s: Bytes) {
    s == [] || (!Wide(s[0]) && !Wide(s[|s| - 1]))
  }

  lemma {:induction false} SpaceStart(a: Bytes, s: Bytes)
    requires AllSpace(a) && (s == [] || !Wide(s[0]))
    ensures HeadProbe.StripStart(a + s) == s
  {
    if a == [] {
      assert a + s == s;
    } else {
      assert (a + s)[1..] == a[1..] + s;
      SpaceStart(a[1..], s);
    }
  }

  lemma {:induction false} SpaceEnd(s: Bytes, c: Bytes)
    requires AllSpace(c) && (s == [] || !Wide(s[|s| - 1]))
    ensures HeadProbe.StripEnd(s + c) == s
  {
    if c == [] {
      assert s + c == s;
    } else {
      assert (s + c)[..|s + c| - 1] == s + c[..|c| - 1];
      SpaceEnd(s, c[..|c| - 1]);
    }
  }

  lemma {:induction false} AllStripped(s: Bytes)
    requires AllSpace(s)
    ensures HeadProbe.StripStart(s) == []
  {
    if s != [] { AllStripped(s[1..]); }
  }

  lemma StripIsExact(a: Bytes, s: Bytes, c: Bytes)
    requires AllSpace(a) && AllSpace(c) && Naked(s)
    ensures HeadProbe.Strip(a + s + c) == s
  {
    if s == [] {
      assert a + s + c == a + c;
      AllStripped(a + c);
    } else {
      assert a + s + c == a + (s + c);
      SpaceStart(a, s + c);
      SpaceEnd(s, c);
    }
  }

  /** `event:`. */
  const EVENT: Bytes := [101, 118, 101, 110, 116, 58]

  /** `error`. */
  const ERROR: Bytes := [101, 114, 114, 111, 114]

  /** An event line makes the frame an error frame exactly if it names `error`. */
  lemma EventLineReads(f: HeadProbe.Frame, a: Bytes, name: Bytes, c: Bytes)
    requires AllSpace(a) && AllSpace(c) && Naked(name)
    ensures HeadProbe.ReadLine(f, EVENT + a + name + c) == if name == ERROR then f.(isError := true) else f
  {
    var rest := a + name + c;
    assert EVENT + a + name + c == EVENT + rest;
    assert HeadProbe.EVENT_PREFIX <= EVENT + rest && (EVENT + rest)[6..] == rest;
    StripIsExact(a, name, c);
  }

  /** A data line is the payload of an error frame, or data of another, unless it is the end marker. */
  lemma HeadDataReads(f: HeadProbe.Frame, a: Bytes, data: Bytes, c: Bytes)
    requires AllSpace(a) && AllSpace(c) && Naked(data)
    ensures HeadProbe.ReadLine(f, DATA + a + data + c) ==
      if data == MARK then f else if f.isError then f.(payload := Some(data)) else f.(sawData := true)
  {
    var rest := a + data + c;
    assert DATA + a + data + c == DATA + rest;
    DataPrefix(rest);
    assert !(HeadProbe.EVENT_PREFIX <= DATA + rest) by { assert (DATA + rest)[0] == 100; }
    StripIsExact(a, data, c);
  }

  lemma HeadOtherReads(f: HeadProbe.Frame, line: Bytes)
    requires !(EVENT <= line) && !(DATA <= line)
    ensures HeadProbe.ReadLine(f, line) == f
  {
  }

  /** A frame is an error frame exactly if one of its lines makes it one; lines before it count as data. */
  lemma {:induction false} FrameReads(lines: seq<Bytes>)
    ensures var f := HeadProbe.ReadLines(lines);
      && (f.isError <==> exists i | 0 <= i < |lines| :: NamesError(lines[i]))
      && (f.sawData <==> exists i | 0 <= i < |lines| :: IsData(lines[i]) && forall j | 0 <= j < i :: !NamesError(lines[j]))
  {
    if lines != [] {
      var init, last := lines[..|lines| - 1], lines[|lines| - 1];
      FrameReads(init);
      assert forall i | 0 <= i < |init| :: init[i] == lines[i];
      SeenSplits(lines);
    }
  }

  predicate NamesError(line: Bytes) {
    EVENT <= line && HeadProbe.Strip(line[6..]) == ERROR
  }

  predicate IsData(line: Bytes) {
    !(EVENT <= line) && DATA <= line && HeadProbe.Strip(line[5..]) != MARK
  }

  lemma SeenSplits(lines: seq<Bytes>)
    requires lines != []
    ensures var init, last := lines[..|lines| - 1], lines[|lines| - 1];
      && ((exists i | 0 <= i < |lines| :: NamesError(lines[i])) <==> (exists i | 0 <= i < |init| :: NamesError(init[i])) || NamesError(last))
      && ((exists i | 0 <= i < |lines| :: IsData(lines[i]) && forall j | 0 <= j < i :: !NamesError(lines[j])) <==>
          (exists i | 0 <= i < |init| :: IsData(init[i]) && forall j | 0 <= j < i :: !NamesError(init[j])) ||
          (IsData(last) && !exists i | 0 <= i < |init| :: NamesError(init[i])))
  {
    var init := lines[..|lines| - 1];
    assert forall i | 0 <= i < |init| :: init[i] == lines[i];
    if exists i | 0 <= i < |init| :: NamesError(init[i]) {
      var i :| 0 <= i < |init| && NamesError(init[i]);
      assert NamesError(lines[i]);
    }
    if exists i | 0 <= i < |init| :: IsData(init[i]) && forall j | 0 <= j < i :: !NamesError(init[j]) {
      var i :| 0 <= i < |init| && IsData(init[i]) && forall j | 0 <= j < i :: !NamesError(init[j]);
      assert IsData(lines[i]);
    }
  }
}
