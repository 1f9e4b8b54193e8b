/**
 The OpenAI chat body and the policy applied to it before generation: restore in-epoch
 reasoning from the shadow, strip reasoning of earlier epochs, canonicalize old tool arguments.
 */
module ChatPolicy {
  import opened Wrappers
  import opened CanonicalJson
  import CanonicalTheorems

  /** A content part other than text is carried as an opaque value. */
  datatype Part = TextPart(text: string) | MediaPart(payload: string)

  datatype Content = Plain(text: string) | Rich(parts: seq<Part>)

  datatype Call = Call(id: string, name: string, arguments: string)

  /** `content: null` is `None`; an absent `reasoning_content` is `None`; absent `tool_calls` is empty. */
  datatype Message =
    | System(prompt: string)
    | User(content: Content)
    | Assistant(text: Option<string>, reasoning: Option<string>, calls: seq<Call>)
    | Tool(callId: string, result: Content)

  function Join(parts: seq<string>, separator: string): string {
    if parts == [] then ""
    else if |parts| == 1 then parts[0]
    else Join(parts[..|parts| - 1], separator) + separator + parts[|parts| - 1]
  }

  // ---- Reasoning epochs ----

  /** The last position satisfying `p`; the length if there is none. */
  function LastWhere<T>(s: seq<T>, p: T -> bool): (n: nat)
    ensures n <= |s|
    ensures n < |s| ==> p(s[n]) && forall i | n < i < |s| :: !p(s[i])
    ensures n == |s| ==> forall i | 0 <= i < |s| :: !p(s[i])
  {
    if s == [] then 0
    else if p(s[|s| - 1]) then |s| - 1
    else
      var n := LastWhere(s[..|s| - 1], p);
      if n == |s| - 1 then |s| else n
  }

  function EpochBoundary(ms: seq<Message>): nat {
    LastWhere(ms, (m: Message) => m.User?)
  }

  function Stripped(m: Message): Message {
    if m.Assistant? then m.(reasoning := None) else m
  }

  function StrippedAll(ms: seq<Message>): (r: seq<Message>)
    ensures |r| == |ms| && forall i | 0 <= i < |r| :: r[i] == Stripped(ms[i])
  {
    seq(|ms|, i requires 0 <= i < |ms| => Stripped(ms[i]))
  }

  /** `strip_historical_reasoning`. */
  function StripHistorical(ms: seq<Message>): seq<Message> {
    var b := EpochBoundary(ms);
    StrippedAll(ms[..b]) + ms[b..]
  }

  /** How many bytes the text takes in UTF-8. */
  function ByteLength(s: string): nat {
    if s == "" then 0 else ByteLength(s[..|s| - 1]) + Utf8Length(s[|s| - 1])
  }

  function Utf8Length(c: char): nat {
    if c as int < 0x80 then 1 else if c as int < 0x800 then 2 else if c as int < 0x1_0000 then 3 else 4
  }

  /** The size of a message's reasoning as JSON text. */
  function ReasoningSize(m: Message): nat {
    if m.Assistant? && m.reasoning.Some? then ByteLength(Quote(m.reasoning.value)) else 0
  }

  /** The reasoning of the first `n` messages. */
  function ReasoningBytes(ms: seq<Message>, n: nat): nat
    requires n <= |ms|
  {
    if n == 0 then 0 else ReasoningBytes(ms, n - 1) + ReasoningSize(ms[n - 1])
  }

  /** The shadow store as this request sees it: what it would restore for these call ids. */
  type Shadow = seq<string> -> Option<string>

  function Ids(calls: seq<Call>): seq<string> {
    seq(|calls|, i requires 0 <= i < |calls| => calls[i].id)
  }

  function Restored(shadow: Shadow, m: Message): Message {
    if m.Assistant? && m.reasoning.None? && m.calls != [] then m.(reasoning := shadow(Ids(m.calls))) else m
  }

  function RestoredAll(shadow: Shadow, ms: seq<Message>): (r: seq<Message>)
    ensures |r| == |ms| && forall i | 0 <= i < |r| :: r[i] == Restored(shadow, ms[i])
  {
    seq(|ms|, i requires 0 <= i < |ms| => Restored(shadow, ms[i]))
  }

  /** `restore_into`: only the current epoch is looked at. */
  function Restore(shadow: Shadow, ms: seq<Message>): seq<Message> {
    var b := EpochBoundary(ms);
    ms[..b] + RestoredAll(shadow, ms[b..])
  }

  // ---- Canonical tool arguments ----

  function CanonicalCall(num: Numbers, c: Call): Call {
    c.(arguments := CanonicalArguments(num, c.arguments))
  }

  function CanonicalCalls(num: Numbers, calls: seq<Call>): (r: seq<Call>)
    ensures |r| == |calls| && forall i | 0 <= i < |r| :: r[i] == CanonicalCall(num, calls[i])
  {
    seq(|calls|, i requires 0 <= i < |calls| => CanonicalCall(num, calls[i]))
  }

  function CanonicalMessage(num: Numbers, m: Message): Message {
    if m.Assistant? then m.(calls := CanonicalCalls(num, m.calls)) else m
  }

  function CanonicalAll(num: Numbers, ms: seq<Message>): (r: seq<Message>)
    ensures |r| == |ms| && forall i | 0 <= i < |r| :: r[i] == CanonicalMessage(num, ms[i])
  {
    seq(|ms|, i requires 0 <= i < |ms| => CanonicalMessage(num, ms[i]))
  }

  function LastAction(ms: seq<Message>): nat {
    LastWhere(ms, (m: Message) => m.User? || m.Tool?)
  }

  /** `canonicalize_tool_arguments`: everything before the last user or tool message; nothing if there is none. */
  function Canonicalize(num: Numbers, ms: seq<Message>): seq<Message> {
    var n := LastAction(ms);
    if n == |ms| then ms else CanonicalAll(num, ms[..n]) + ms[n..]
  }

  /** Whether this argument string is rewritten, as a count. */
  function Rewritten(num: Numbers, c: Call): nat {
    if CanonicalArguments(num, c.arguments) != c.arguments then 1 else 0
  }

  function RewritesIn(num: Numbers, calls: seq<Call>): nat {
    if calls == [] then 0 else RewritesIn(num, calls[..|calls| - 1]) + Rewritten(num, calls[|calls| - 1])
  }

  /** How many arguments canonicalizing all of `ms` rewrites. */
  function Rewrites(num: Numbers, ms: seq<Message>): nat {
    if ms == [] then 0 else Rewrites(num, ms[..|ms| - 1]) + MessageRewrites(num, ms[|ms| - 1])
  }

  function MessageRewrites(num: Numbers, m: Message): nat {
    if m.Assistant? then RewritesIn(num, m.calls) else 0
  }

  function RewriteCount(num: Numbers, ms: seq<Message>): nat {
    if LastAction(ms) == |ms| then 0 else Rewrites(num, ms[..LastAction(ms)])
  }

  /** The whole policy, in the order the request handler applies it. */
  function Policy(num: Numbers, shadow: Shadow, ms: seq<Message>): seq<Message> {
    Canonicalize(num, StripHistorical(Restore(shadow, ms)))
  }

  // ---- The same, in place ----

  lemma {:induction false} StripRemovesBytes(ms: seq<Message>, n: nat)
    requires n <= |ms|
    ensures var b := EpochBoundary(ms);
      ReasoningBytes(ms, if n < b then n else b) + ReasoningBytes(StripHistorical(ms), n) == ReasoningBytes(ms, n)
  {
    if n > 0 {
      StripRemovesBytes(ms, n - 1);
      StripHistoricalAt(ms, n - 1);
    }
  }

  /** The loop over the messages before the boundary. */
  method StripBefore(messages: array<Message>, boundary: nat) returns (removed: nat)
    requires boundary <= messages.Length
    modifies messages
    ensures forall j | 0 <= j < boundary :: messages[j] == Stripped(old(messages[j]))
    ensures forall j | boundary <= j < messages.Length :: messages[j] == old(messages[j])
    ensures removed == ReasoningBytes(old(messages[..]), boundary)
  {
    removed := 0;
    ghost var ms := messages[..];
    for i := 0 to messages.Length
      invariant forall j | 0 <= j < i && j < boundary :: messages[j] == Stripped(ms[j])
      invariant forall j | 0 <= j < messages.Length && (i <= j || boundary <= j) :: messages[j] == ms[j]
      invariant i <= boundary && removed == ReasoningBytes(ms, i)
    {
      if i >= boundary { break; }
      if messages[i].Assistant? {
        removed := removed + ReasoningSize(messages[i]);
        messages[i] := messages[i].(reasoning := None);
      }
    }
  }

  /** What goes is counted, in bytes. */
  method StripHistoricalReasoning(messages: array<Message>) returns (removed: nat)
    modifies messages
    ensures messages[..] == StripHistorical(old(messages[..]))
    ensures removed == ReasoningBytes(old(messages[..]), messages.Length) - ReasoningBytes(messages[..], messages.Length)
  {
    var boundary := EpochBoundary(messages[..]);
    StripRemovesBytes(messages[..], messages.Length);
    removed := StripBefore(messages, boundary);
  }

  method CanonicalizeCall(num: Numbers, call: Call) returns (result: Call, count: nat)
    ensures result == CanonicalCall(num, call) && count == Rewritten(num, call)
  {
    result, count := call, 0;
    var parsed := Read(num, call.arguments);
    if parsed.Some? {
      var canonical := Canonical(parsed.value);
      if canonical != call.arguments {
        result, count := call.(arguments := canonical), 1;
      }
    }
  }

  lemma RewritesInNext(num: Numbers, calls: seq<Call>, i: nat)
    requires i < |calls|
    ensures RewritesIn(num, calls[..i + 1]) == RewritesIn(num, calls[..i]) + Rewritten(num, calls[i])
  {
    assert calls[..i + 1][..i] == calls[..i];
  }

  lemma CanonicalCallsNext(num: Numbers, calls: seq<Call>, i: nat)
    requires i < |calls|
    ensures CanonicalCalls(num, calls[..i + 1]) == CanonicalCalls(num, calls[..i]) + [CanonicalCall(num, calls[i])]
  {
  }

  method CanonicalizeCalls(num: Numbers, calls: seq<Call>) returns (result: seq<Call>, count: nat)
    ensures result == CanonicalCalls(num, calls) && count == RewritesIn(num, calls)
  {
    result, count := [], 0;
    for i := 0 to |calls|
      invariant result == CanonicalCalls(num, calls[..i])
      invariant count == RewritesIn(num, calls[..i])
    {
      RewritesInNext(num, calls, i);
      CanonicalCallsNext(num, calls, i);
      var call, n := CanonicalizeCall(num, calls[i]);
      result, count := result + [call], count + n;
    }
    assert calls[..|calls|] == calls;
  }

  method CanonicalizeMessage(num: Numbers, message: Message) returns (result: Message, count: nat)
    ensures result == CanonicalMessage(num, message) && count == MessageRewrites(num, message)
  {
    result, count := message, 0;
    if message.Assistant? {
      var calls;
      calls, count := CanonicalizeCalls(num, message.calls);
      result := message.(calls := calls);
    }
  }

  lemma RewritesNext(num: Numbers, ms: seq<Message>, i: nat)
    requires i < |ms|
    ensures Rewrites(num, ms[..i + 1]) == Rewrites(num, ms[..i]) + MessageRewrites(num, ms[i])
  {
    assert ms[..i + 1][..i] == ms[..i];
  }

  method CanonicalizeToolArguments(num: Numbers, messages: array<Message>) returns (count: nat)
    modifies messages
    ensures messages[..] == Canonicalize(num, old(messages[..])) && count == RewriteCount(num, old(messages[..]))
  {
    count := 0;
    ghost var ms := messages[..];
    var lastAction := LastAction(messages[..]);
    if lastAction == messages.Length { return; }
    for i := 0 to lastAction
      invariant count == Rewrites(num, ms[..i])
      invariant forall j | 0 <= j < i :: messages[j] == CanonicalMessage(num, ms[j])
      invariant forall j | i <= j < messages.Length :: messages[j] == ms[j]
    {
      RewritesNext(num, ms, i);
      var message, n := CanonicalizeMessage(num, messages[i]);
      messages[i] := message;
      count := count + n;
    }
  }

  // ---- Guarantees ----

  /** What the policy may never touch: everything but reasoning and the spelling of arguments. */
  function Skeleton(m: Message): Message {
    if m.Assistant? then m.(reasoning := None, calls := seq(|m.calls|, i requires 0 <= i < |m.calls| => m.calls[i].(arguments := "")))
    else m
  }

  ghost predicate SameSkeleton(a: seq<Message>, b: seq<Message>) {
    |a| == |b| && forall i | 0 <= i < |a| :: Skeleton(a[i]) == Skeleton(b[i])
  }

  lemma RestoreKeepsSkeleton(shadow: Shadow, ms: seq<Message>)
    ensures SameSkeleton(Restore(shadow, ms), ms)
  {
    forall i | 0 <= i < |ms| ensures Skeleton(Restored(shadow, ms[i])) == Skeleton(ms[i]) {}
  }

  lemma StripKeepsSkeleton(ms: seq<Message>)
    ensures SameSkeleton(StripHistorical(ms), ms)
  {
    forall i | 0 <= i < |ms| ensures Skeleton(Stripped(ms[i])) == Skeleton(ms[i]) {}
  }

  lemma CanonicalizeKeepsSkeleton(num: Numbers, ms: seq<Message>)
    ensures SameSkeleton(Canonicalize(num, ms), ms)
  {
    forall i | 0 <= i < |ms| ensures Skeleton(CanonicalMessage(num, ms[i])) == Skeleton(ms[i]) {
      if ms[i].Assistant? {
        assert forall j | 0 <= j < |ms[i].calls| ::
          CanonicalCalls(num, ms[i].calls)[j].(arguments := "") == ms[i].calls[j].(arguments := "");
      }
    }
  }

  /** Message count, roles, texts, call ids and names, and tool results all survive the policy, at every position. */
  lemma PolicyKeepsSkeleton(num: Numbers, shadow: Shadow, ms: seq<Message>)
    ensures SameSkeleton(Policy(num, shadow, ms), ms)
  {
    RestoreKeepsSkeleton(shadow, ms);
    StripKeepsSkeleton(Restore(shadow, ms));
    CanonicalizeKeepsSkeleton(num, StripHistorical(Restore(shadow, ms)));
  }

  lemma SameRoles(m: Message, n: Message)
    requires Skeleton(m) == Skeleton(n)
    ensures m.User? == n.User? && m.Tool? == n.Tool? && m.Assistant? == n.Assistant?
  {
  }

  /** Neither boundary moves: both depend on the skeleton only. */
  lemma SameBoundaries(a: seq<Message>, b: seq<Message>)
    requires SameSkeleton(a, b)
    ensures EpochBoundary(a) == EpochBoundary(b) && LastAction(a) == LastAction(b)
  {
    forall i | 0 <= i < |a| ensures a[i].User? == b[i].User? && a[i].Tool? == b[i].Tool? { SameRoles(a[i], b[i]); }
  }

  /** Restoring and stripping commute: each keeps to its own side of the epoch boundary. */
  lemma RestoreAndStripCommute(shadow: Shadow, ms: seq<Message>)
    ensures StripHistorical(Restore(shadow, ms)) == Restore(shadow, StripHistorical(ms))
  {
    var b := EpochBoundary(ms);
    RestoreKeepsSkeleton(shadow, ms);
    StripKeepsSkeleton(ms);
    SameBoundaries(Restore(shadow, ms), ms);
    SameBoundaries(StripHistorical(ms), ms);
    assert Restore(shadow, ms)[..b] == ms[..b] && StripHistorical(ms)[b..] == ms[b..];
    assert Restore(shadow, ms)[b..] == RestoredAll(shadow, ms[b..]);
    assert StripHistorical(ms)[..b] == StrippedAll(ms[..b]);
  }

  /** After stripping, no assistant message of an earlier epoch carries reasoning; the current epoch is untouched. */
  lemma StripSeparatesEpochs(ms: seq<Message>)
    ensures var r, b := StripHistorical(ms), EpochBoundary(ms);
            && (forall i | 0 <= i < b && ms[i].Assistant? :: r[i] == ms[i].(reasoning := None))
            && (forall i | 0 <= i < |ms| && (b <= i || !ms[i].Assistant?) :: r[i] == ms[i])
  {
  }

  /** What one message of the policy's result is, given where it stands. */
  function PolicyAt(num: Numbers, shadow: Shadow, m: Message, historical: bool, settled: bool): Message {
    var r := if historical then Stripped(m) else Restored(shadow, m);
    if settled then CanonicalMessage(num, r) else r
  }

  lemma RestoreAt(shadow: Shadow, ms: seq<Message>, i: nat)
    requires i < |ms|
    ensures |Restore(shadow, ms)| == |ms|
    ensures Restore(shadow, ms)[i] == if i < EpochBoundary(ms) then ms[i] else Restored(shadow, ms[i])
  {
  }

  lemma StripHistoricalAt(ms: seq<Message>, i: nat)
    requires i < |ms|
    ensures |StripHistorical(ms)| == |ms|
    ensures StripHistorical(ms)[i] == if i < EpochBoundary(ms) then Stripped(ms[i]) else ms[i]
  {
  }

  lemma CanonicalizeAt(num: Numbers, ms: seq<Message>, i: nat)
    requires i < |ms|
    ensures |Canonicalize(num, ms)| == |ms|
    ensures Canonicalize(num, ms)[i] == if LastAction(ms) < |ms| && i < LastAction(ms) then CanonicalMessage(num, ms[i]) else ms[i]
  {
  }

  lemma PolicyPointwise(num: Numbers, shadow: Shadow, ms: seq<Message>, i: nat)
    requires i < |ms|
    ensures var n := LastAction(ms);
      |Policy(num, shadow, ms)| == |ms| &&
      Policy(num, shadow, ms)[i] == PolicyAt(num, shadow, ms[i], i < EpochBoundary(ms), n < |ms| && i < n)
  {
    var restored := Restore(shadow, ms);
    var stripped := StripHistorical(restored);
    RestoreKeepsSkeleton(shadow, ms);
    SameBoundaries(restored, ms);
    StripKeepsSkeleton(restored);
    SameBoundaries(stripped, restored);
    RestoreAt(shadow, ms, i);
    StripHistoricalAt(restored, i);
    CanonicalizeAt(num, stripped, i);
  }

  // ---- A second time ----

  predicate SteadyCalls(num: Numbers, calls: seq<Call>) {
    forall i | 0 <= i < |calls| :: Steady(num, calls[i].arguments)
  }

  predicate SteadyMessage(num: Numbers, m: Message) {
    m.Assistant? ==> SteadyCalls(num, m.calls)
  }

  predicate SteadyMessages(num: Numbers, ms: seq<Message>) {
    forall i | 0 <= i < |ms| :: SteadyMessage(num, ms[i])
  }

  /** Canonicalizing has nothing left to do in any argument before the last user or tool message. */
  predicate SteadyHistory(num: Numbers, ms: seq<Message>) {
    LastAction(ms) < |ms| ==> SteadyMessages(num, ms[..LastAction(ms)])
  }

  lemma CanonicalCallsTwice(num: Numbers, calls: seq<Call>)
    requires Renders(num)
    ensures CanonicalCalls(num, CanonicalCalls(num, calls)) == CanonicalCalls(num, calls) <==> SteadyCalls(num, calls)
  {
    var c := CanonicalCalls(num, calls);
    forall i | 0 <= i < |calls| ensures CanonicalCall(num, c[i]) == c[i] <==> Steady(num, calls[i].arguments) {
      CanonicalTheorems.CanonicalArgumentsTwice(num, calls[i].arguments);
    }
    if CanonicalCalls(num, c) == c {
      forall i | 0 <= i < |calls| ensures Steady(num, calls[i].arguments) { assert CanonicalCalls(num, c)[i] == c[i]; }
    }
  }

  lemma PolicyAtTwice(num: Numbers, shadow: Shadow, m: Message, historical: bool, settled: bool)
    requires Renders(num)
    ensures var r := PolicyAt(num, shadow, m, historical, settled);
      PolicyAt(num, shadow, r, historical, settled) == r <==> (settled ==> SteadyMessage(num, m))
  {
    if m.Assistant? {
      var c := CanonicalCalls(num, m.calls);
      CanonicalCallsTwice(num, m.calls);
      assert Ids(c) == Ids(m.calls);
    }
  }

  lemma PolicyTwiceAt(num: Numbers, shadow: Shadow, ms: seq<Message>, i: nat)
    requires Renders(num) && i < |ms|
    ensures var r := Policy(num, shadow, ms);
      |r| == |Policy(num, shadow, r)| == |ms| &&
      (Policy(num, shadow, r)[i] == r[i] <==> (LastAction(ms) < |ms| && i < LastAction(ms) ==> SteadyMessage(num, ms[i])))
  {
    var r := Policy(num, shadow, ms);
    PolicyKeepsSkeleton(num, shadow, ms);
    SameBoundaries(r, ms);
    PolicyPointwise(num, shadow, ms, i);
    PolicyPointwise(num, shadow, r, i);
    PolicyAtTwice(num, shadow, ms[i], i < EpochBoundary(ms), LastAction(ms) < |ms| && i < LastAction(ms));
  }

  /**
   With the shadow unchanged, applying the policy again changes nothing exactly when every argument before
   the last user or tool message is steady.
   */
  lemma PolicyTwice(num: Numbers, shadow: Shadow, ms: seq<Message>)
    requires Renders(num)
    ensures Policy(num, shadow, Policy(num, shadow, ms)) == Policy(num, shadow, ms) <==> SteadyHistory(num, ms)
  {
    if SteadyHistory(num, ms) {
      SteadyPolicyStays(num, shadow, ms);
    }
    if Policy(num, shadow, Policy(num, shadow, ms)) == Policy(num, shadow, ms) && LastAction(ms) < |ms| {
      forall i | 0 <= i < LastAction(ms) ensures SteadyMessage(num, ms[i]) {
        PolicyTwiceAt(num, shadow, ms, i);
      }
    }
  }

  lemma SteadyPolicyStays(num: Numbers, shadow: Shadow, ms: seq<Message>)
    requires Renders(num) && SteadyHistory(num, ms)
    ensures Policy(num, shadow, Policy(num, shadow, ms)) == Policy(num, shadow, ms)
  {
    var r := Policy(num, shadow, ms);
    PolicyKeepsSkeleton(num, shadow, ms);
    PolicyKeepsSkeleton(num, shadow, r);
    forall i | 0 <= i < |ms| ensures Policy(num, shadow, r)[i] == r[i] {
      PolicyTwiceAt(num, shadow, ms, i);
      if LastAction(ms) < |ms| && i < LastAction(ms) { assert ms[..LastAction(ms)][i] == ms[i]; }
    }
  }

  lemma RewrittenAgain(num: Numbers, c: Call)
    requires Renders(num)
    ensures Rewritten(num, CanonicalCall(num, c)) == 0 <==> Steady(num, c.arguments)
  {
    CanonicalTheorems.CanonicalArgumentsTwice(num, c.arguments);
  }

  lemma SteadyLast(num: Numbers, calls: seq<Call>)
    requires calls != []
    ensures SteadyCalls(num, calls) <==> SteadyCalls(num, calls[..|calls| - 1]) && Steady(num, calls[|calls| - 1].arguments)
  {
    assert forall i | 0 <= i < |calls| - 1 :: calls[..|calls| - 1][i] == calls[i];
  }

  lemma {:induction false} NoRewritesIn(num: Numbers, calls: seq<Call>)
    requires Renders(num)
    ensures RewritesIn(num, CanonicalCalls(num, calls)) == 0 <==> SteadyCalls(num, calls)
  {
    if calls != [] {
      var n := |calls| - 1;
      assert CanonicalCalls(num, calls)[..n] == CanonicalCalls(num, calls[..n]);
      NoRewritesIn(num, calls[..n]);
      RewrittenAgain(num, calls[n]);
      SteadyLast(num, calls);
    }
  }

  lemma NoMessageRewrites(num: Numbers, m: Message)
    requires Renders(num)
    ensures MessageRewrites(num, CanonicalMessage(num, m)) == 0 <==> SteadyMessage(num, m)
  {
    if m.Assistant? { NoRewritesIn(num, m.calls); }
  }

  lemma SteadyLastMessage(num: Numbers, ms: seq<Message>)
    requires ms != []
    ensures SteadyMessages(num, ms) <==> SteadyMessages(num, ms[..|ms| - 1]) && SteadyMessage(num, ms[|ms| - 1])
  {
    assert forall i | 0 <= i < |ms| - 1 :: ms[..|ms| - 1][i] == ms[i];
  }

  lemma {:induction false} NoRewrites(num: Numbers, ms: seq<Message>)
    requires Renders(num)
    ensures Rewrites(num, CanonicalAll(num, ms)) == 0 <==> SteadyMessages(num, ms)
  {
    if ms != [] {
      var n := |ms| - 1;
      assert CanonicalAll(num, ms)[..n] == CanonicalAll(num, ms[..n]);
      NoRewrites(num, ms[..n]);
      NoMessageRewrites(num, ms[n]);
      SteadyLastMessage(num, ms);
    }
  }

  /** A second `canonicalize_tool_arguments` rewrites nothing exactly when every argument it looks at is steady. */
  lemma SecondCanonicalizeRewritesNothing(num: Numbers, ms: seq<Message>)
    requires Renders(num)
    ensures RewriteCount(num, Canonicalize(num, ms)) == 0 <==> SteadyHistory(num, ms)
  {
    var n := LastAction(ms);
    CanonicalizeKeepsSkeleton(num, ms);
    SameBoundaries(Canonicalize(num, ms), ms);
    if n < |ms| {
      assert Canonicalize(num, ms)[..n] == CanonicalAll(num, ms[..n]);
      NoRewrites(num, ms[..n]);
    }
  }

  /**
   Text that is no JSON stays.  A rewritten argument spells the same value, up to the order of object
   members, exactly when the numbers of that value are settled.
   */
  lemma RewriteKeepsValue(num: Numbers, text: string)
    requires Renders(num)
    ensures var v, w := Read(num, text), Read(num, CanonicalArguments(num, text));
            && (v.None? ==> CanonicalArguments(num, text) == text)
            && (v.Some? ==> (w.Some? && SameValue(v.value, w.value) <==> Settled(num, v.value)))
  {
    if Read(num, text).Some? {
      var v := Read(num, text).value;
      CanonicalTheorems.ReadIsWellFormed(num, text, RECURSION_LIMIT);
      CanonicalTheorems.CanonicalReadsBack(num, v);
      CanonicalTheorems.RereadSame(num, v);
      if Accepted(num, v) { CanonicalTheorems.RereadIsSameIff(num, v); }
    }
  }

  // ---- Position by position ----

  lemma {:induction false} BeforeLast<T>(s: seq<T>, p: T -> bool, i: nat)
    requires i < |s|
    ensures i < LastWhere(s, p) <==> (exists j | i < j < |s| :: p(s[j])) || (forall j | 0 <= j < |s| :: !p(s[j]))
  {
    var n := LastWhere(s, p);
    if n < |s| { assert p(s[n]); }
  }

  /** Reasoning here belongs to an earlier epoch: a user message follows, or there is none at all. */
  predicate Historic(ms: seq<Message>, i: nat) {
    (exists j | i < j < |ms| :: ms[j].User?) || (forall j | 0 <= j < |ms| :: !ms[j].User?)
  }

  /** A user message or a tool result follows. */
  predicate ActedAfter(ms: seq<Message>, i: nat) {
    exists j | i < j < |ms| :: ms[j].User? || ms[j].Tool?
  }

  lemma BoundaryMeaning(ms: seq<Message>, i: nat)
    requires i < |ms|
    ensures i < EpochBoundary(ms) <==> Historic(ms, i)
    ensures i < LastAction(ms) < |ms| <==> ActedAfter(ms, i)
  {
    BeforeLast(ms, (m: Message) => m.User?, i);
    BeforeLast(ms, (m: Message) => m.User? || m.Tool?, i);
  }

  /** What the policy makes of one message, of an earlier epoch or not, with an action after it or not. */
  predicate Governed(num: Numbers, shadow: Shadow, m: Message, historic: bool, acted: bool, r: Message) {
    match m
    case Assistant(text, reasoning, calls) =>
      r.Assistant? && r.text == text && |r.calls| == |calls| &&
      r.reasoning ==
        (if historic then None
         else if reasoning == None && calls != [] then shadow(seq(|calls|, k requires 0 <= k < |calls| => calls[k].id))
         else reasoning) &&
      forall k | 0 <= k < |calls| ::
        r.calls[k] == Call(calls[k].id, calls[k].name, if acted then CanonicalArguments(num, calls[k].arguments) else calls[k].arguments)
    case _ => r == m
  }

  lemma PolicyAtGoverns(num: Numbers, shadow: Shadow, m: Message, historic: bool, acted: bool)
    ensures Governed(num, shadow, m, historic, acted, PolicyAt(num, shadow, m, historic, acted))
  {
    if m.Assistant? {
      assert Ids(m.calls) == seq(|m.calls|, k requires 0 <= k < |m.calls| => m.calls[k].id);
    }
  }

  /**
   Message by message: reasoning of earlier epochs goes, missing reasoning of the current one comes from the
   shadow under the message's call ids, arguments before the last action are canonical, and all else stays.
   */
  lemma PolicyGoverns(num: Numbers, shadow: Shadow, ms: seq<Message>, i: nat)
    requires i < |ms|
    ensures |Policy(num, shadow, ms)| == |ms|
    ensures Governed(num, shadow, ms[i], Historic(ms, i), ActedAfter(ms, i), Policy(num, shadow, ms)[i])
  {
    BoundaryMeaning(ms, i);
    PolicyPointwise(num, shadow, ms, i);
    PolicyAtGoverns(num, shadow, ms[i], Historic(ms, i), ActedAfter(ms, i));
  }

  // ---- Bytes ----

  /** How many characters lie at or above `limit`. */
  function AtLeast(s: string, limit: int): nat {
    if s == "" then 0 else AtLeast(s[..|s| - 1], limit) + (if s[|s| - 1] as int >= limit then 1 else 0)
  }

  /** Every character takes a byte, and one more for each of the three thresholds of UTF-8 it reaches. */
  lemma {:induction false} BytesByThreshold(s: string)
    ensures ByteLength(s) == |s| + AtLeast(s, 0x80) + AtLeast(s, 0x800) + AtLeast(s, 0x1_0000)
  {
    if s != "" { BytesByThreshold(s[..|s| - 1]); }
  }

  /** Reasoning is measured as the JSON string it is in the body. */
  lemma ReasoningIsMeasured(m: Message)
    ensures ReasoningSize(m) ==
      match m
      case Assistant(_, Some(reasoning), _) =>
        var text := ToText(JString(reasoning));
        |text| + AtLeast(text, 0x80) + AtLeast(text, 0x800) + AtLeast(text, 0x1_0000)
      case _ => 0
  {
    if m.Assistant? && m.reasoning.Some? { BytesByThreshold(Quote(m.reasoning.value)); }
  }

  // ---- Counting ----

  datatype Place = Place(message: nat, call: nat)

  /** The calls whose arguments differ between two histories. */
  function Differing(a: seq<Message>, b: seq<Message>): set<Place> {
    set i, k | 0 <= i < |a| && i < |b| && a[i].Assistant? && b[i].Assistant? && 0 <= k < |a[i].calls| && k < |b[i].calls|
               && a[i].calls[k].arguments != b[i].calls[k].arguments :: Place(i, k)
  }

  /** The places of the rewritten calls of one message. */
  function RewrittenPlaces(num: Numbers, i: nat, calls: seq<Call>): set<Place> {
    set k | 0 <= k < |calls| && CanonicalArguments(num, calls[k].arguments) != calls[k].arguments :: Place(i, k)
  }

  lemma CountTogether(a: set<Place>, b: set<Place>, all: set<Place>)
    requires forall p :: p in all <==> p in a || p in b
    requires forall p :: !(p in a && p in b)
    ensures |all| == |a| + |b|
  {
    assert all == a + b;
  }

  lemma IsRewrittenPlace(num: Numbers, i: nat, calls: seq<Call>, p: Place)
    ensures p in RewrittenPlaces(num, i, calls) <==>
      p.message == i && p.call < |calls| && CanonicalArguments(num, calls[p.call].arguments) != calls[p.call].arguments
  {
  }

  lemma LastCallPlace(num: Numbers, i: nat, calls: seq<Call>)
    requires calls != []
    ensures var n := |calls| - 1;
      var init, last := RewrittenPlaces(num, i, calls[..n]), if Rewritten(num, calls[n]) == 0 then {} else {Place(i, n)};
      (forall p :: p in RewrittenPlaces(num, i, calls) <==> p in init || p in last) && (forall p :: !(p in init && p in last))
  {
    var n := |calls| - 1;
    var init, last := RewrittenPlaces(num, i, calls[..n]), if Rewritten(num, calls[n]) == 0 then {} else {Place(i, n)};
    forall p ensures (p in RewrittenPlaces(num, i, calls) <==> p in init || p in last) && !(p in init && p in last) {
      IsRewrittenPlace(num, i, calls, p);
      IsRewrittenPlace(num, i, calls[..n], p);
    }
  }

  lemma {:induction false} CallsAreCounted(num: Numbers, i: nat, calls: seq<Call>)
    ensures |RewrittenPlaces(num, i, calls)| == RewritesIn(num, calls)
  {
    if calls == [] {
      assert RewrittenPlaces(num, i, calls) == {};
    } else {
      var n := |calls| - 1;
      CallsAreCounted(num, i, calls[..n]);
      LastCallPlace(num, i, calls);
      CountTogether(RewrittenPlaces(num, i, calls[..n]), if Rewritten(num, calls[n]) == 0 then {} else {Place(i, n)}, RewrittenPlaces(num, i, calls));
    }
  }

  /** The rewritten places of some messages. */
  function AllRewritten(num: Numbers, ms: seq<Message>): set<Place> {
    set i, k | 0 <= i < |ms| && ms[i].Assistant? && 0 <= k < |ms[i].calls|
               && CanonicalArguments(num, ms[i].calls[k].arguments) != ms[i].calls[k].arguments :: Place(i, k)
  }

  function MessagePlaces(num: Numbers, i: nat, m: Message): set<Place> {
    if m.Assistant? then RewrittenPlaces(num, i, m.calls) else {}
  }

  lemma LastMessagePlaces(num: Numbers, ms: seq<Message>)
    requires ms != []
    ensures var n := |ms| - 1;
      var init, last := AllRewritten(num, ms[..n]), MessagePlaces(num, n, ms[n]);
      (forall p :: p in AllRewritten(num, ms) <==> p in init || p in last) && (forall p :: !(p in init && p in last))
  {
    var n := |ms| - 1;
    assert forall i | 0 <= i < n :: ms[..n][i] == ms[i];
  }

  lemma {:induction false} MessagesAreCounted(num: Numbers, ms: seq<Message>)
    ensures |AllRewritten(num, ms)| == Rewrites(num, ms)
  {
    if ms == [] {
      assert AllRewritten(num, ms) == {};
    } else {
      var n := |ms| - 1;
      MessagesAreCounted(num, ms[..n]);
      LastMessagePlaces(num, ms);
      if ms[n].Assistant? { CallsAreCounted(num, n, ms[n].calls); }
      CountTogether(AllRewritten(num, ms[..n]), MessagePlaces(num, n, ms[n]), AllRewritten(num, ms));
    }
  }

  lemma RewrittenDiffer(num: Numbers, ms: seq<Message>)
    ensures Differing(Canonicalize(num, ms), ms) == if LastAction(ms) == |ms| then {} else AllRewritten(num, ms[..LastAction(ms)])
  {
    var r := Canonicalize(num, ms);
    forall i | 0 <= i < |ms|
      ensures |r| == |ms| && r[i] == if LastAction(ms) < |ms| && i < LastAction(ms) then CanonicalMessage(num, ms[i]) else ms[i]
    {
      CanonicalizeAt(num, ms, i);
    }
  }

  /** The number reported is the number of calls whose arguments were changed. */
  lemma RewritesAreCounted(num: Numbers, ms: seq<Message>)
    ensures RewriteCount(num, ms) == |Differing(Canonicalize(num, ms), ms)|
  {
    RewrittenDiffer(num, ms);
    if LastAction(ms) < |ms| { MessagesAreCounted(num, ms[..LastAction(ms)]); }
  }
}
