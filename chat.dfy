/** The chat slice of the client game store: the retained message history,
    its duplicate check by message id and its 100-entry window. */
module Chat {

  /** A chat message as the store sees it. The store only ever inspects `id`;
      everything else a message carries is an opaque payload. */
  datatype ChatMessage<P> = ChatMessage(id: string, payload: P)

  /** Number of most recent messages the store retains. */
  const MaxMessages: int := 100

  function Min(a: int, b: int): int { if a < b then a else b }

  /** `msgs.some(m => m.id === id)`: some held message carries `id`. */
  function HasId<P>(msgs: seq<ChatMessage<P>>, id: string): (b: bool)
    ensures b <==> exists i :: 0 <= i < |msgs| && msgs[i].id == id
  {
    if msgs == [] then false
    else if msgs[0].id == id then true
    else
      assert forall i :: 1 <= i < |msgs| ==> msgs[i] == msgs[1..][i - 1];
      HasId(msgs[1..], id)
  }

  /** No two held messages share an id. */
  ghost predicate DistinctIds<P>(msgs: seq<ChatMessage<P>>)
  {
    forall i, j :: 0 <= i < j < |msgs| ==> msgs[i].id != msgs[j].id
  }

  /** JavaScript's `s.slice(start)`: a negative `start` counts back from the
      end and is clamped at 0; a non-negative one is clamped at `|s|`. The
      result is always a suffix of `s`. */
  function SliceFrom<T>(s: seq<T>, start: int): (r: seq<T>)
    ensures |r| <= |s| && r == s[|s| - |r|..]
    ensures start < 0 ==> |r| == Min(-start, |s|)
    ensures 0 <= start ==> |r| == if start < |s| then |s| - start else 0
  {
    var k := if start < 0 then (if |s| + start < 0 then 0 else |s| + start)
             else (if start < |s| then start else |s|);
    s[k..]
  }

  /** The update `addMessage(m)` applies to the message list: a message whose
      id is already held is dropped; otherwise it is appended and the list is
      cut to its last `MaxMessages` entries. */
  function AddMessage<P>(msgs: seq<ChatMessage<P>>, m: ChatMessage<P>): (r: seq<ChatMessage<P>>)
    ensures HasId(msgs, m.id) ==> r == msgs
    ensures !HasId(msgs, m.id) ==>
              && |r| == Min(MaxMessages, |msgs| + 1)
              && r == (msgs + [m])[|msgs| + 1 - |r|..]
              && r[|r| - 1] == m
    ensures |msgs| <= MaxMessages ==> |r| <= MaxMessages
  {
    if HasId(msgs, m.id) then msgs else SliceFrom(msgs + [m], -MaxMessages)
  }

  /** Adding a message keeps the ids pairwise distinct. */
  lemma AddMessagePreservesDistinct<P>(msgs: seq<ChatMessage<P>>, m: ChatMessage<P>)
    requires DistinctIds(msgs)
    ensures DistinctIds(AddMessage(msgs, m))
  {
  }

  /** After `addMessage(m)` the list holds exactly one message with `m`'s id,
      whether `m` was appended or an earlier message with that id was kept. */
  lemma AddMessageHoldsIdOnce<P>(msgs: seq<ChatMessage<P>>, m: ChatMessage<P>)
    requires DistinctIds(msgs)
    ensures var r := AddMessage(msgs, m);
            HasId(r, m.id) && DistinctIds(r)
  {
  }

  /** Sending the same id twice stores it once: the second call is a no-op. */
  lemma AddSameIdTwice<P>(msgs: seq<ChatMessage<P>>, m1: ChatMessage<P>, m2: ChatMessage<P>)
    requires DistinctIds(msgs) && m1.id == m2.id
    ensures var once := AddMessage(msgs, m1);
            && AddMessage(once, m2) == once
            && HasId(once, m1.id) && DistinctIds(once)
  {
  }

  /** The duplicate check only scans the messages currently held: once the
      oldest of a full window is evicted by a fresh message, re-sending the
      evicted message is accepted again and becomes the newest entry. */
  lemma EvictedIdIsFresh<P>(msgs: seq<ChatMessage<P>>, m: ChatMessage<P>)
    requires |msgs| == MaxMessages && DistinctIds(msgs) && !HasId(msgs, m.id)
    ensures var after := AddMessage(msgs, m);
            && after == msgs[1..] + [m]
            && !HasId(after, msgs[0].id)
            && AddMessage(after, msgs[0]) == msgs[2..] + [m, msgs[0]]
  {
  }

  /** The message list after delivering `ms` one by one, in order. */
  function AddMessages<P>(msgs: seq<ChatMessage<P>>, ms: seq<ChatMessage<P>>): seq<ChatMessage<P>>
  {
    if ms == [] then msgs else AddMessage(AddMessages(msgs, ms[..|ms| - 1]), ms[|ms| - 1])
  }

  /** Delivering messages with pairwise distinct ids to an empty list leaves
      exactly the last `MaxMessages` of them, in their original order. */
  lemma {:induction false} AddDistinctMessagesKeepsLast<P>(ms: seq<ChatMessage<P>>)
    requires DistinctIds(ms)
    ensures AddMessages([], ms) == SliceFrom(ms, -MaxMessages)
  {
    if ms != [] {
      var p, x := ms[..|ms| - 1], ms[|ms| - 1];
      assert ms == p + [x];
      assert DistinctIds(p) by {
        forall i, j | 0 <= i < j < |p| ensures p[i].id != p[j].id {
          assert p[i] == ms[i] && p[j] == ms[j];
        }
      }
      AddDistinctMessagesKeepsLast(p);
      var w := SliceFrom(p, -MaxMessages);
      assert !HasId(w, x.id) by {
        forall i | 0 <= i < |w| ensures w[i].id != x.id {
          assert w[i] == ms[|p| - |w| + i];
        }
      }
      assert AddMessages([], ms) == SliceFrom(w + [x], -MaxMessages);
      SliceOfSliceAppend(p, x, MaxMessages);
    }
  }

  /** Cutting to the last `n` before or after appending one element agrees. */
  lemma SliceOfSliceAppend<T>(p: seq<T>, x: T, n: int)
    requires n > 0
    ensures SliceFrom(SliceFrom(p, -n) + [x], -n) == SliceFrom(p + [x], -n)
  {
  }
}
