// audit.ts: which user messages of a session the owner sent.

module Attribution {
  import opened Options

  datatype Send = Send(text: string, at: real)

  /** A user message; a missing or malformed timestamp compares with nothing. */
  datatype Message = Message(text: string, at: Option<real>)

  datatype Item = Owner(text: string) | Lead(text: string)

  predicate Matches(s: Send, m: Message) {
    s.text == m.text && (m.at.None? || m.at.value >= s.at)
  }

  /** An order-preserving attribution of the first `|f|` sends to messages. */
  ghost predicate Embeds(f: seq<nat>, sends: seq<Send>, messages: seq<Message>) {
    && |f| <= |sends|
    && (forall i | 0 <= i < |f| :: f[i] < |messages| && Matches(sends[i], messages[f[i]]))
    && (forall i, j | 0 <= i < j < |f| :: f[i] < f[j])
  }

  /** Message `k` is the owner's exactly when the attribution uses it. */
  ghost predicate Labelled(items: seq<Item>, messages: seq<Message>, taken: seq<nat>) {
    && |items| <= |messages|
    && forall k | 0 <= k < |items| ::
         items[k] == if k in taken then Owner(messages[k].text) else Lead(messages[k].text)
  }

  /** No attribution consumes more sends, and none places any send on an earlier message. */
  ghost predicate Greatest(taken: seq<nat>, sends: seq<Send>, messages: seq<Message>) {
    forall f | Embeds(f, sends, messages) :: |f| <= |taken| && forall i | 0 <= i < |f| :: taken[i] <= f[i]
  }

  /** The matching loop of `readSessionHistory` over a session's user messages. */
  method Attribute(messages: seq<Message>, sends: seq<Send>) returns (items: seq<Item>, ghost taken: seq<nat>)
    ensures |items| == |messages| && Labelled(items, messages, taken)
    ensures Embeds(taken, sends, messages) && Greatest(taken, sends, messages)
  {
    items, taken := [], [];
    var nextOwnerSend := 0;
    var k := 0;
    while k < |messages|
      invariant 0 <= k <= |messages| && |items| == k
      invariant nextOwnerSend == |taken| && SoFar(items, taken, sends, messages, k)
    {
      var m := messages[k];
      if nextOwnerSend < |sends| && sends[nextOwnerSend].text == m.text
         && (m.at.None? || m.at.value >= sends[nextOwnerSend].at)
      {
        TakesOne(items, taken, sends, messages, k);
        items := items + [Owner(m.text)];
        taken := taken + [k];
        nextOwnerSend := nextOwnerSend + 1;
      } else {
        SkipsOne(items, taken, sends, messages, k);
        items := items + [Lead(m.text)];
      }
      k := k + 1;
    }
    EarliestIsGreatest(taken, sends, messages);
  }

  ghost predicate SoFar(items: seq<Item>, taken: seq<nat>, sends: seq<Send>, messages: seq<Message>, k: nat) {
    && Embeds(taken, sends, messages) && Below(taken, k)
    && Labelled(items, messages, taken) && Earliest(taken, sends, messages, k)
  }

  lemma {:induction false} TakesOne(items: seq<Item>, taken: seq<nat>, sends: seq<Send>, messages: seq<Message>, k: nat)
    requires |items| == k < |messages| && SoFar(items, taken, sends, messages, k)
    requires |taken| < |sends| && Matches(sends[|taken|], messages[k])
    ensures SoFar(items + [Owner(messages[k].text)], taken + [k], sends, messages, k + 1)
  {
    EarliestTakes(taken, sends, messages, k);
    TakingLabels(items, messages, taken, k);
    TakingEmbeds(taken, sends, messages, k);
  }

  lemma {:induction false} TakingEmbeds(taken: seq<nat>, sends: seq<Send>, messages: seq<Message>, k: nat)
    requires Embeds(taken, sends, messages) && Below(taken, k) && k < |messages|
    requires |taken| < |sends| && Matches(sends[|taken|], messages[k])
    ensures Embeds(taken + [k], sends, messages) && Below(taken + [k], k + 1)
  {
  }

  lemma {:induction false} SkipsOne(items: seq<Item>, taken: seq<nat>, sends: seq<Send>, messages: seq<Message>, k: nat)
    requires |items| == k < |messages| && SoFar(items, taken, sends, messages, k)
    requires |taken| < |sends| ==> !Matches(sends[|taken|], messages[k])
    ensures SoFar(items + [Lead(messages[k].text)], taken, sends, messages, k + 1)
  {
    EarliestSkips(taken, sends, messages, k);
  }

  ghost predicate Below(taken: seq<nat>, k: nat) {
    forall i | 0 <= i < |taken| :: taken[i] < k
  }

  lemma {:induction false} TakingLabels(items: seq<Item>, messages: seq<Message>, taken: seq<nat>, k: nat)
    requires |items| == k < |messages| && Labelled(items, messages, taken)
    ensures Labelled(items + [Owner(messages[k].text)], messages, taken + [k])
  {
    assert (taken + [k])[|taken|] == k;
    assert forall j | 0 <= j < k :: j in taken + [k] <==> j in taken;
  }

  /** Every other embedding trails the greedy one, as far as the messages before `k` go. */
  ghost predicate Earliest(taken: seq<nat>, sends: seq<Send>, messages: seq<Message>, k: nat) {
    forall f, i | Embeds(f, sends, messages) && 0 <= i < |f| && f[i] < k :: i < |taken| && taken[i] <= f[i]
  }

  lemma {:induction false} EarliestTakes(taken: seq<nat>, sends: seq<Send>, messages: seq<Message>, k: nat)
    requires Earliest(taken, sends, messages, k) && Below(taken, k) && k < |messages|
    ensures Earliest(taken + [k], sends, messages, k + 1)
  {
    forall f, i | Embeds(f, sends, messages) && 0 <= i < |f| && f[i] < k + 1
      ensures i < |taken + [k]| && (taken + [k])[i] <= f[i]
    {
      if i > 0 {
        assert f[i - 1] < f[i];
        assert i - 1 < |taken|;
      }
      if f[i] < k {
        assert i < |taken|;
      }
    }
  }

  lemma {:induction false} EarliestSkips(taken: seq<nat>, sends: seq<Send>, messages: seq<Message>, k: nat)
    requires Earliest(taken, sends, messages, k) && Below(taken, k) && k < |messages|
    requires |taken| < |sends| ==> !Matches(sends[|taken|], messages[k])
    ensures Earliest(taken, sends, messages, k + 1)
  {
    forall f, i | Embeds(f, sends, messages) && 0 <= i < |f| && f[i] < k + 1
      ensures i < |taken| && taken[i] <= f[i]
    {
      if i > 0 {
        assert f[i - 1] < f[i];
        assert i - 1 < |taken|;
      }
      if f[i] == k {
        assert Matches(sends[i], messages[k]);
      }
    }
  }

  lemma {:induction false} EarliestIsGreatest(taken: seq<nat>, sends: seq<Send>, messages: seq<Message>)
    requires Earliest(taken, sends, messages, |messages|)
    ensures Greatest(taken, sends, messages)
  {
    forall f | Embeds(f, sends, messages)
      ensures |f| <= |taken| && forall i | 0 <= i < |f| :: taken[i] <= f[i]
    {
      forall i | 0 <= i < |f|
        ensures i < |taken| && taken[i] <= f[i]
      {
        assert f[i] < |messages|;
      }
      if f != [] {
        assert f[|f| - 1] < |messages|;
        assert |f| - 1 < |taken|;
      }
    }
  }
}
