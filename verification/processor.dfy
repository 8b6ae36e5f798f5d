/**
 What the event processor hands to the message bus. For a queue of accepted events,
 the processor publishes, in queue order, exactly the events whose sender passes the
 allow-list, each as (sender, chat, content, {chat_type, message_id}); the others are
 skipped.

 The allow-list check (`is_allowed` of the base channel) is the parameter `allowed`.
 */
module Processor {
  import opened Events

  /** One call of the bus hand-off `_handle_message`. */
  datatype Publication = Publication(
    senderId: string,
    chatId: string,
    content: string,
    metadata: map<string, string>)

  /** The publication made for an admitted event. */
  function Publish(e: QueuedEvent): (p: Publication)
    ensures p.senderId == e.senderId && p.chatId == e.chatId && p.content == e.content
    ensures p.metadata.Keys == {ChatTypeKey, MessageIdKey}
    ensures p.metadata[ChatTypeKey] == e.chatType && p.metadata[MessageIdKey] == e.messageId
  {
    Publication(e.senderId, e.chatId, e.content,
                map[ChatTypeKey := e.chatType, MessageIdKey := e.messageId])
  }

  /** The publications for one event taken off the queue: one if admitted, none if rejected. */
  function PublishIfAllowed(e: QueuedEvent, allowed: string -> bool): seq<Publication>
  {
    if allowed(e.senderId) then [Publish(e)] else []
  }

  /** Everything the processor publishes while it works through queue `q` from the front. */
  function Publications(q: seq<QueuedEvent>, allowed: string -> bool): (r: seq<Publication>)
    ensures |r| <= |q|
    decreases |q|
  {
    if q == [] then []
    else PublishIfAllowed(q[0], allowed) + Publications(q[1..], allowed)
  }

  /**
   Filtering, both ways: every publication comes from an admitted event of the queue
   (so a rejected sender is never published), and every admitted event is published.
   */
  lemma {:induction false} PublicationsFilter(q: seq<QueuedEvent>, allowed: string -> bool)
    ensures forall p | p in Publications(q, allowed) :: allowed(p.senderId)
    ensures forall p | p in Publications(q, allowed) ::
              exists e | e in q :: allowed(e.senderId) && p == Publish(e)
    ensures forall e | e in q && allowed(e.senderId) :: Publish(e) in Publications(q, allowed)
    decreases |q|
  {
    if q != [] {
      PublicationsFilter(q[1..], allowed);
      assert forall e | e in q[1..] :: e in q;
      assert forall e | e in q :: e == q[0] || e in q[1..];
    }
  }

  /**
   Publication respects queue order: processing `a` and then `b` publishes what `a`
   publishes followed by what `b` publishes. Together with `PublicationsSingle` this
   determines the publications of every queue.
   */
  lemma {:induction false} PublicationsAppend(a: seq<QueuedEvent>, b: seq<QueuedEvent>, allowed: string -> bool)
    ensures Publications(a + b, allowed) == Publications(a, allowed) + Publications(b, allowed)
    decreases |a|
  {
    if a == [] {
      assert a + b == b;
    } else {
      assert (a + b)[0] == a[0];
      assert (a + b)[1..] == a[1..] + b;
      PublicationsAppend(a[1..], b, allowed);
    }
  }

  /** A one-event queue publishes that event exactly when its sender is admitted. */
  lemma PublicationsSingle(e: QueuedEvent, allowed: string -> bool)
    ensures allowed(e.senderId) ==> Publications([e], allowed) == [Publish(e)]
    ensures !allowed(e.senderId) ==> Publications([e], allowed) == []
  {
    assert [e][1..] == [];
  }

  /**
   Ordering: when every sender is admitted, the bus receives one publication per queued
   event, in the same order as the queue.
   */
  lemma {:induction false} AllAdmittedPreservesOrder(q: seq<QueuedEvent>, allowed: string -> bool)
    requires forall e | e in q :: allowed(e.senderId)
    ensures |Publications(q, allowed)| == |q|
    ensures forall i | 0 <= i < |q| :: Publications(q, allowed)[i] == Publish(q[i])
    decreases |q|
  {
    if q != [] {
      var tail := q[1..];
      assert forall e | e in tail :: e in q;
      AllAdmittedPreservesOrder(tail, allowed);
      assert allowed(q[0].senderId) by { assert q[0] in q; }
      var r, rt := Publications(q, allowed), Publications(tail, allowed);
      assert r == [Publish(q[0])] + rt;
      forall i | 0 < i < |q|
        ensures r[i] == Publish(q[i])
      {
        assert r[i] == rt[i - 1] && tail[i - 1] == q[i];
      }
    }
  }

  /** Filtering: a queue whose senders are all rejected publishes nothing. */
  lemma NoneAdmittedPublishesNothing(q: seq<QueuedEvent>, allowed: string -> bool)
    requires forall e | e in q :: !allowed(e.senderId)
    ensures Publications(q, allowed) == []
  {
    PublicationsFilter(q, allowed);
  }
}
