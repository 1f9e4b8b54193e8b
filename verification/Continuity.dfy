/**
 From one turn of a tool loop to the next: reasoning streamed with tool calls comes back into the request
 that answers them.
 */
module Continuity {
  import opened Wrappers
  import opened ChatChunk
  import opened ChunkFields
  import opened AnthropicStream
  import opened AnthropicTheorems
  import Json = CanonicalJson
  import Policy = ChatPolicy
  import Shadow = ShadowStore
  import ShadowTheorems
  import Recency

  function CallIds(calls: seq<ToolCallAccum>): seq<string> {
    seq(|calls|, i requires 0 <= i < |calls| => calls[i].id)
  }

  /** What a finished stream leaves in the shadow: its reasoning while the tool loop goes on, nothing once the turn was answered. */
  ghost function Bookkeep(s: Shadow.Store, fp: string, k: Sink, now: int, lim: Shadow.Limits): Shadow.Store {
    var a := AccumulatedOf(k.c);
    match a.finishReason
    case Some("tool_calls") => Shadow.Put(s, fp, CallIds(a.toolCalls), a.reasoning, now, lim)
    case Some(_) => Shadow.Clear(s, fp)
    case None => s
  }

  /** The ids of the tool uses in a message. */
  function IdsIn(content: seq<Content>): seq<string> {
    if content == [] then [] else
      IdsIn(content[..|content| - 1]) +
      match content[|content| - 1]
      case ToolUse(id, _, _) => [id]
      case _ => []
  }

  lemma {:induction false} IdsSplit(a: seq<Content>, b: seq<Content>)
    ensures IdsIn(a + b) == IdsIn(a) + IdsIn(b)
  {
    if b == [] {
      assert a + b == a;
    } else {
      assert (a + b)[..|a + b| - 1] == a + b[..|b| - 1];
      IdsSplit(a, b[..|b| - 1]);
    }
  }

  lemma UsesInit(num: Json.Numbers, calls: seq<ToolCallAccum>)
    requires calls != []
    ensures var n := |calls| - 1;
      ToolUses(num, calls)[..n] == ToolUses(num, calls[..n]) && CallIds(calls) == CallIds(calls[..n]) + [calls[n].id]
  {
  }

  lemma {:induction false} UseIds(num: Json.Numbers, calls: seq<ToolCallAccum>)
    ensures IdsIn(ToolUses(num, calls)) == CallIds(calls)
  {
    if calls != [] {
      var init := calls[..|calls| - 1];
      UseIds(num, init);
      UsesInit(num, calls);
    }
  }

  lemma ProseHasNoIds(content: seq<Content>)
    requires |content| <= 1 && forall i | 0 <= i < |content| :: !content[i].ToolUse?
    ensures IdsIn(content) == []
  {
    if content != [] { assert content[..0] == []; }
  }

  lemma PartsHaveIds(thinking: seq<Content>, text: seq<Content>, uses: seq<Content>)
    requires |thinking| <= 1 && (forall i | 0 <= i < |thinking| :: !thinking[i].ToolUse?)
    requires |text| <= 1 && (forall i | 0 <= i < |text| :: !text[i].ToolUse?)
    ensures IdsIn(thinking + text + uses) == IdsIn(uses)
  {
    IdsSplit(thinking + text, uses);
    IdsSplit(thinking, text);
    ProseHasNoIds(thinking);
    ProseHasNoIds(text);
  }

  lemma MessageIds(num: Json.Numbers, c: Converter)
    ensures IdsIn(NonstreamContent(num, c)) == CallIds(AccumulatedOf(c).toolCalls)
  {
    var a := AccumulatedOf(c);
    PartsHaveIds(if c.exposeThinking && a.reasoning != "" then [ThinkingContent(a.reasoning)] else [],
                 if a.text != "" then [TextContent(a.text)] else [], ToolUses(num, a.toolCalls));
    UseIds(num, a.toolCalls);
  }

  /** The ids a client answers with are those its message has, and those the shadow is filed under, if none came late. */
  lemma ClientIds(num: Json.Numbers, msgId: nat, exposed: bool, chunks: seq<Chunk>)
    requires IdentityStable(RunStory(exposed, chunks))
    ensures var k := Stream(msgId, exposed, chunks);
      IdsIn(ClientContent(num, k)) == CallIds(AccumulatedOf(k.c).toolCalls)
  {
    ClientRebuildsMessage(num, msgId, exposed, chunks);
    MessageIds(num, Stream(msgId, exposed, chunks).c);
  }

  lemma Kept(msgId: nat, exposed: bool, chunks: seq<Chunk>)
    ensures var a := AccumulatedOf(Stream(msgId, exposed, chunks).c);
      a.reasoning == FieldReasoning(Choices(chunks)) && a.finishReason == LastFinish(Choices(chunks))
  {
    StoryIsTheFields(OnePass, exposed, chunks);
    NonstreamAgrees((s: string) => None, msgId, exposed, chunks);
  }

  /** The message that answers with the calls of a stream, as the next request carries it back. */
  predicate CarriedBack(m: Policy.Message, ids: seq<string>) {
    m.Assistant? && m.reasoning == None && m.calls != [] && Policy.Ids(m.calls) == ids
  }

  /** What the policy puts into such a message of the current epoch is what the shadow has. */
  lemma PutBack(num: Json.Numbers, shadow: Policy.Shadow, ms: seq<Policy.Message>, i: nat, ids: seq<string>)
    requires i < |ms| && !Policy.Historic(ms, i) && CarriedBack(ms[i], ids)
    ensures |Policy.Policy(num, shadow, ms)| == |ms|
    ensures var m := Policy.Policy(num, shadow, ms)[i]; m.Assistant? && m.reasoning == shadow(ids)
  {
    Policy.PolicyGoverns(num, shadow, ms, i);
    assert Policy.Ids(ms[i].calls) == seq(|ms[i].calls|, k requires 0 <= k < |ms[i].calls| => ms[i].calls[k].id);
  }

  /** The shadow after the stream. */
  lemma Filed(num: Json.Numbers, s: Shadow.Store, fp: string, msgId: nat, exposed: bool, chunks: seq<Chunk>, now: int, lim: Shadow.Limits)
    requires LastFinish(Choices(chunks)) == Some("tool_calls") && IdentityStable(RunStory(exposed, chunks))
    ensures var k := Stream(msgId, exposed, chunks);
      Bookkeep(s, fp, k, now, lim) == Shadow.Put(s, fp, IdsIn(ClientContent(num, k)), FieldReasoning(Choices(chunks)), now, lim)
  {
    ClientIds(num, msgId, exposed, chunks);
    Kept(msgId, exposed, chunks);
  }

  /**
   A stream stops for its tool calls, and the next request carries them back without their reasoning, in the
   current epoch and within the time to live: the policy puts back all the reasoning the upstream had streamed,
   shown to the client or not, exactly when the sessions created from this one on fit the shadow.
   */
  lemma ReasoningReturns(num: Json.Numbers, s: Shadow.Store, log: seq<Recency.Touch>, fp: string, msgId: nat, exposed: bool,
      chunks: seq<Chunk>, now: int, later: int, lim: Shadow.Limits, ms: seq<Policy.Message>, i: nat, ids: seq<string>, p: nat)
    requires ShadowTheorems.StoreOk(s, log) && now <= later <= now + lim.ttl
    requires LastFinish(Choices(chunks)) == Some("tool_calls") && IdentityStable(RunStory(exposed, chunks))
    requires ids == IdsIn(ClientContent(num, Stream(msgId, exposed, chunks)))
    requires i < |ms| && !Policy.Historic(ms, i) && CarriedBack(ms[i], ids)
    requires ShadowTheorems.Storable(ids, FieldReasoning(Choices(chunks)), lim)
    requires var names := ShadowTheorems.Living(Shadow.Added(s, fp, ids, FieldReasoning(Choices(chunks)), now), now, lim);
      p < |names| && names[p] == fp
    ensures var k, reasoning := Stream(msgId, exposed, chunks), FieldReasoning(Choices(chunks));
      var r := Policy.Policy(num, ShadowTheorems.ShadowAt(Bookkeep(s, fp, k, now, lim), fp, later, lim), ms);
      var added := Shadow.Added(s, fp, ids, reasoning, now);
      |r| == |ms| && r[i].Assistant? &&
      (r[i].reasoning == Some(reasoning) <==>
       ShadowTheorems.Fits(added.sessions, ShadowTheorems.Living(added, now, lim)[p..], lim))
  {
    var k := Stream(msgId, exposed, chunks);
    Filed(num, s, fp, msgId, exposed, chunks, now, lim);
    ShadowTheorems.JustStoredIff(s, log, fp, ids, FieldReasoning(Choices(chunks)), now, later, lim, p);
    PutBack(num, ShadowTheorems.ShadowAt(Bookkeep(s, fp, k, now, lim), fp, later, lim), ms, i, ids);
  }

  predicate Share(a: seq<string>, b: seq<string>) {
    exists id :: id in a && id in b
  }

  /** A session's first store, asked for with ids of one's own. */
  lemma FirstStoreReturns(s: Shadow.Store, log: seq<Recency.Touch>, fp: string, stored: seq<string>, reasoning: string, now: int,
      later: int, lim: Shadow.Limits, ids: seq<string>)
    requires ShadowTheorems.StoreOk(s, log) && fp !in s.sessions && now <= later <= now + lim.ttl
    requires ShadowTheorems.Storable(stored, reasoning, lim)
    ensures Shadow.Restore(Shadow.Put(s, fp, stored, reasoning, now, lim), fp, ids, later, lim).reasoning == Some(reasoning) <==>
      Share(ids, stored) && |reasoning| * |stored| <= lim.maxTotalBytes && lim.maxSessions >= 1
  {
    var added, put := Shadow.Added(s, fp, stored, reasoning, now), Shadow.Put(s, fp, stored, reasoning, now, lim);
    ShadowTheorems.NewSessionIff(s, log, fp, stored, reasoning, now, later, lim);
    ShadowTheorems.EnforceWithin(added, now, lim);
    ShadowTheorems.AddedEntry(s, fp, stored, reasoning, now);
    ShadowTheorems.RestoresFirst(put, fp, stored, reasoning, now, later, lim);
    if fp in put.sessions {
      forall id ensures id in put.sessions[fp].entries <==> id in stored
        ensures id in stored ==> put.sessions[fp].entries[id] == Shadow.Entry(reasoning, now)
      {
        ShadowTheorems.InsertMeaning(map[], stored, Shadow.Entry(reasoning, now), id);
      }
    }
  }

  /**
   The first turn of a session: all its reasoning comes back exactly when it fits the shadow by itself and some
   call id the client answers with is one it was filed under.  The client has the first id of each call, the
   shadow the last.
   */
  lemma FirstReasoningReturns(num: Json.Numbers, s: Shadow.Store, log: seq<Recency.Touch>, fp: string, msgId: nat, exposed: bool,
      chunks: seq<Chunk>, now: int, later: int, lim: Shadow.Limits, ms: seq<Policy.Message>, i: nat, ids: seq<string>)
    requires ShadowTheorems.StoreOk(s, log) && fp !in s.sessions && now <= later <= now + lim.ttl
    requires LastFinish(Choices(chunks)) == Some("tool_calls")
    requires ids == IdsIn(ClientContent(num, Stream(msgId, exposed, chunks)))
    requires i < |ms| && !Policy.Historic(ms, i) && CarriedBack(ms[i], ids)
    requires ShadowTheorems.Storable(IdsIn(NonstreamResponse(num, Stream(msgId, exposed, chunks).c).content), FieldReasoning(Choices(chunks)), lim)
    ensures var k, reasoning := Stream(msgId, exposed, chunks), FieldReasoning(Choices(chunks));
      var r, stored := Policy.Policy(num, ShadowTheorems.ShadowAt(Bookkeep(s, fp, k, now, lim), fp, later, lim), ms),
                       IdsIn(NonstreamResponse(num, k.c).content);
      |r| == |ms| && r[i].Assistant? &&
      (r[i].reasoning == Some(reasoning) <==>
       Share(ids, stored) && |reasoning| * |stored| <= lim.maxTotalBytes && lim.maxSessions >= 1)
  {
    var k := Stream(msgId, exposed, chunks);
    Kept(msgId, exposed, chunks);
    MessageIds(num, k.c);
    var stored := IdsIn(NonstreamResponse(num, k.c).content);
    FirstStoreReturns(s, log, fp, stored, FieldReasoning(Choices(chunks)), now, later, lim, ids);
    PutBack(num, ShadowTheorems.ShadowAt(Bookkeep(s, fp, k, now, lim), fp, later, lim), ms, i, ids);
  }

  /** A stream that ends for any other reason clears the session: nothing comes back. */
  lemma AnswerForgets(s: Shadow.Store, fp: string, msgId: nat, exposed: bool, chunks: seq<Chunk>, now: int, later: int,
      lim: Shadow.Limits, ids: seq<string>)
    requires var finish := LastFinish(Choices(chunks)); finish.Some? && finish.value != "tool_calls"
    ensures Shadow.Restore(Bookkeep(s, fp, Stream(msgId, exposed, chunks), now, lim), fp, ids, later, lim).reasoning == None
  {
    Kept(msgId, exposed, chunks);
  }
}
