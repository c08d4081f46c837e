/**
 * The activity's single subscriber slot (`eventSink`): at most one
 * listener at a time, replaced on listen, cleared on cancel; a push while
 * the slot is empty is dropped and never replayed.
 */
module EventSink {
  import opened Options
  import opened Json

  /** Identifies one `EventSink` handed over by `onListen`. */
  type SinkId = nat

  /** The two kinds of map pushed to the subscriber. */
  datatype Message =
    | StateMessage(hasAlipay: bool, updatedAtMs: int,
                   alipay: map<string, Value>, alipayPayment: map<string, Value>)
    | PostedMessage(notification: map<string, Value>)

  /** One `success(...)` call that reached a subscriber. */
  datatype Delivery = Delivery(sink: SinkId, message: Message)

  /** The slot and everything ever delivered through it, oldest first. */
  datatype EventHub = EventHub(sink: Option<SinkId>, delivered: seq<Delivery>)

  const NoSubscriber: EventHub := EventHub(None, [])

  /** `onListen`: the new sink replaces any earlier one; nothing is delivered. */
  function OnListen(h: EventHub, s: SinkId): (r: EventHub)
    ensures r.sink == Some(s)
    ensures r.delivered == h.delivered
  {
    h.(sink := Some(s))
  }

  /** `onCancel`: the slot is cleared; clearing an empty slot changes nothing. */
  function OnCancel(h: EventHub): (r: EventHub)
    ensures r.sink.None?
    ensures r.delivered == h.delivered
    ensures h.sink.None? ==> r == h
  {
    h.(sink := None)
  }

  /** `eventSink?.success(m)`: delivered to the current sink, or dropped when there is none. */
  function Push(h: EventHub, m: Message): (r: EventHub)
    ensures r.sink == h.sink
    ensures h.sink.None? ==> r == h
    ensures h.sink.Some? ==> r.delivered == h.delivered + [Delivery(h.sink.value, m)]
  {
    match h.sink
    case None => h
    case Some(s) => h.(delivered := h.delivered + [Delivery(s, m)])
  }

  /** Several pushes in order, with no listen or cancel in between. */
  function PushAll(h: EventHub, ms: seq<Message>): EventHub
    decreases |ms|
  {
    if |ms| == 0 then h else PushAll(Push(h, ms[0]), ms[1..])
  }

  /**
   * After `onListen(b)`, every later push reaches `b` and only `b`, one
   * delivery per push, in order; earlier deliveries stay as they were.
   */
  lemma {:induction false} OnlyCurrentSinkReceives(h: EventHub, b: SinkId, ms: seq<Message>)
    ensures var r := PushAll(OnListen(h, b), ms);
            && r.sink == Some(b)
            && |r.delivered| == |h.delivered| + |ms|
            && r.delivered[..|h.delivered|] == h.delivered
            && forall i :: 0 <= i < |ms| ==> r.delivered[|h.delivered| + i] == Delivery(b, ms[i])
    decreases |ms|
  {
    if |ms| > 0 {
      var h1 := Push(OnListen(h, b), ms[0]);
      assert OnListen(h1, b) == h1;
      OnlyCurrentSinkReceives(h1, b, ms[1..]);
      var r := PushAll(h1, ms[1..]);
      assert r.delivered[..|h1.delivered|] == h1.delivered;
      forall i | 0 <= i < |ms|
        ensures r.delivered[|h.delivered| + i] == Delivery(b, ms[i])
      {
        if i == 0 {
          assert r.delivered[|h.delivered|] == h1.delivered[|h.delivered|];
        } else {
          assert r.delivered[|h1.delivered| + (i - 1)] == Delivery(b, ms[1..][i - 1]);
        }
      }
    }
  }

  /** Pushes made while the slot is empty are lost: a subscriber arriving later never sees them. */
  lemma {:induction false} DroppedWhileEmpty(h: EventHub, ms: seq<Message>, b: SinkId)
    requires h.sink.None?
    ensures PushAll(h, ms) == h
    ensures OnListen(PushAll(h, ms), b).delivered == h.delivered
    decreases |ms|
  {
    if |ms| > 0 {
      DroppedWhileEmpty(Push(h, ms[0]), ms[1..], b);
    }
  }
}
