/** Restoring shadowed reasoning into a request, on the shared store. */
module ShadowRestore {
  import opened Wrappers
  import Policy = ChatPolicy
  import opened ShadowStore
  import opened ShadowTheorems

  /** The current epoch restored, message after message, and the store as that leaves it. */
  function RestoredEpoch(s: Store, fp: string, ms: seq<Policy.Message>, now: int, lim: Limits): Walk {
    var b := Policy.EpochBoundary(ms);
    var w := RestoreMessages(s, fp, ms[b..], now, lim);
    Walk(w.store, ms[..b] + w.messages)
  }

  lemma WalkNext(s: Store, fp: string, ms: seq<Policy.Message>, b: nat, i: nat, now: int, lim: Limits)
    requires b <= i < |ms|
    ensures var w, m := RestoreMessages(s, fp, ms[b..i], now, lim), ms[i];
      RestoreMessages(s, fp, ms[b..i + 1], now, lim) ==
        if !Asks(m) then Walk(w.store, w.messages + [m])
        else
          var r := Restore(w.store, fp, Policy.Ids(m.calls), now, lim);
          Walk(r.store, w.messages + [m.(reasoning := r.reasoning)])
  {
    assert ms[b..i + 1][..i - b] == ms[b..i] && ms[b..i + 1][i - b] == ms[i];
  }

  /** One message; a missing answer leaves it without reasoning. */
  method RestoreMessage(store: ReasoningShadowStore, fp: string, message: Policy.Message, now: int) returns (result: Policy.Message)
    modifies store`sessions
    ensures if !Asks(message) then result == message && store.State() == old(store.State())
      else
        var r := Restore(old(store.State()), fp, Policy.Ids(message.calls), now, store.lim);
        result == message.(reasoning := r.reasoning) && store.State() == r.store
  {
    result := message;
    if !message.Assistant? || message.reasoning.Some? || message.calls == [] { return; }
    var reasoning := store.RestoreReasoning(fp, Policy.Ids(message.calls), now);
    if reasoning.Some? { result := message.(reasoning := reasoning); }
  }

  /** The loop over the current epoch. */
  method RestoreFrom(store: ReasoningShadowStore, fp: string, messages: array<Policy.Message>, boundary: nat, now: int)
    returns (ghost restored: seq<Policy.Message>)
    requires boundary <= messages.Length
    modifies store`sessions, messages
    ensures |restored| == messages.Length - boundary
    ensures forall j | 0 <= j < boundary :: messages[j] == old(messages[j])
    ensures forall j | boundary <= j < messages.Length :: messages[j] == restored[j - boundary]
    ensures Walk(store.State(), restored) ==
      RestoreMessages(old(store.State()), fp, old(messages[..])[boundary..messages.Length], now, store.lim)
  {
    restored := [];
    for i := boundary to messages.Length
      invariant |restored| == i - boundary
      invariant forall j | 0 <= j < messages.Length && (j < boundary || i <= j) :: messages[j] == old(messages[j])
      invariant forall j | boundary <= j < i :: messages[j] == restored[j - boundary]
      invariant Walk(store.State(), restored) ==
        RestoreMessages(old(store.State()), fp, old(messages[..])[boundary..i], now, store.lim)
    {
      WalkNext(old(store.State()), fp, old(messages[..]), boundary, i, now, store.lim);
      var message := RestoreMessage(store, fp, messages[i], now);
      messages[i] := message;
      restored := restored + [message];
    }
  }

  method RestoreInto(store: ReasoningShadowStore, fp: string, messages: array<Policy.Message>, now: int)
    modifies store`sessions, messages
    ensures Walk(store.State(), messages[..]) == RestoredEpoch(old(store.State()), fp, old(messages[..]), now, store.lim)
  {
    ghost var ms := messages[..];
    var boundary := Policy.EpochBoundary(messages[..]);
    ghost var restored := RestoreFrom(store, fp, messages, boundary, now);
    assert ms[boundary..messages.Length] == ms[boundary..];
    assert messages[..] == ms[..boundary] + restored;
  }

  /** On a request whose messages share no call id, the walk is the restore policy on the store as it was. */
  lemma RestoreIntoIsPolicy(s: Store, fp: string, ms: seq<Policy.Message>, now: int, lim: Limits)
    requires Apart(ms[Policy.EpochBoundary(ms)..])
    ensures RestoredEpoch(s, fp, ms, now, lim).messages == Policy.Restore(ShadowAt(s, fp, now, lim), ms)
  {
    RestoringIsPure(s, fp, ms[Policy.EpochBoundary(ms)..], now, lim);
  }
}
