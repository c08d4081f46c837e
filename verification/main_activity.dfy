/**
 * The activity side of the kiosk: reading the listener's preferences back
 * with defaults, converting stored JSON to maps, and turning the service's
 * broadcasts into pushes to the subscriber.
 */
module MainActivity {
  import opened Options
  import opened Seqs
  import opened Json
  import opened Notifications
  import opened Selection
  import opened ListenerService
  import opened EventSink

  // ---- JSON to maps ----

  /** The object's pairs without those whose value is `null`. */
  function DropNulls(fields: map<string, Value>): (r: map<string, Value>)
    ensures forall k :: k in r <==> k in fields && !fields[k].Null?
    ensures forall k :: k in r ==> r[k] == fields[k]
  {
    map k | k in fields && !fields[k].Null? :: fields[k]
  }

  /**
   * `parseJsonToMap`: null, blank, malformed or non-object text gives
   * null; an object gives its pairs with `null` values left out.
   */
  function ParseJsonToMap(json: Option<JsonText>): (r: Option<map<string, Value>>)
    ensures r.Some? <==> json.Some? && json.value.ObjectText?
    ensures r.Some? ==> forall k :: k in r.value <==> k in json.value.fields && !json.value.fields[k].Null?
    ensures r.Some? ==> forall k :: k in r.value ==> r.value[k] == json.value.fields[k]
  {
    if json.None? || json.value.Blank? then None
    else
      match json.value
      case ObjectText(fields) => Some(DropNulls(fields))
      case _ => None
  }

  /** What `optJSONObject` accepts: an object element. */
  predicate IsObject(v: Value) {
    v.Obj?
  }

  /** The loop of `parseJsonToListOfMaps` over array elements: objects kept as maps, the rest skipped. */
  function ObjectMaps(items: seq<Value>): (r: seq<map<string, Value>>)
    ensures |r| <= |items|
  {
    if |items| == 0 then []
    else
      var rest := ObjectMaps(items[1..]);
      match items[0]
      case Obj(fields) =>
        (match ParseJsonToMap(Some(ObjectText(fields)))
         case Some(m) => [m] + rest
         case None => rest)
      case _ => rest
  }

  /** The loop keeps exactly the object elements, in their order, each without its `null` pairs. */
  lemma {:induction false} ObjectMapsKeepsObjects(items: seq<Value>)
    ensures |ObjectMaps(items)| == |Filter(items, IsObject)|
    ensures forall i :: 0 <= i < |ObjectMaps(items)| ==>
      ObjectMaps(items)[i] == DropNulls(Filter(items, IsObject)[i].fields)
  {
    if |items| > 0 {
      ObjectMapsKeepsObjects(items[1..]);
      assert items == [items[0]] + items[1..];
      var rest, kept := ObjectMaps(items[1..]), Filter(items[1..], IsObject);
      if items[0].Obj? {
        assert ParseJsonToMap(Some(ObjectText(items[0].fields))) == Some(DropNulls(items[0].fields));
        assert ObjectMaps(items) == [DropNulls(items[0].fields)] + rest;
        assert Filter(items, IsObject) == [items[0]] + kept;
        forall i | 0 <= i < |ObjectMaps(items)|
          ensures ObjectMaps(items)[i] == DropNulls(Filter(items, IsObject)[i].fields)
        {
          if i > 0 {
            assert ObjectMaps(items)[i] == rest[i - 1];
            assert Filter(items, IsObject)[i] == kept[i - 1];
          }
        }
      } else {
        assert ObjectMaps(items) == rest;
        assert Filter(items, IsObject) == kept;
      }
    }
  }

  /**
   * `parseJsonToListOfMaps`: null, blank, malformed or non-array text
   * gives the empty list; an array gives its object elements, in order.
   */
  function ParseJsonToListOfMaps(json: Option<JsonText>): (r: seq<map<string, Value>>)
    ensures json.None? || !json.value.ArrayText? ==> r == []
    ensures json.Some? && json.value.ArrayText? ==> |r| <= |json.value.items|
    ensures json.Some? && json.value.ArrayText? ==>
      && |r| == |Filter(json.value.items, IsObject)|
      && forall i :: 0 <= i < |r| ==> r[i] == DropNulls(Filter(json.value.items, IsObject)[i].fields)
  {
    if json.None? || json.value.Blank? then []
    else
      match json.value
      case ArrayText(items) =>
        ObjectMapsKeepsObjects(items);
        ObjectMaps(items)
      case _ => []
  }

  /**
   * Parsing a printed notification gives exactly its non-null fields, and
   * those still determine the notification.
   */
  lemma ParsedNotification(n: Notification)
    ensures var r := ParseJsonToMap(Some(ObjectText(NotificationJson(n))));
            && r.Some?
            && (forall k :: k in r.value <==> k in JsonKeys && !NotificationJson(n)[k].Null?)
            && NotificationOf(r.value) == Some(n)
  {
    NotificationJsonRoundTrip(n);
    DecodeIgnoresNulls(NotificationJson(n));
  }

  /** Reading a notification back does not care whether its `null` fields are present or dropped. */
  lemma DecodeIgnoresNulls(m: map<string, Value>)
    ensures NotificationOf(DropNulls(m)) == NotificationOf(m)
  {
    var r := DropNulls(m);
    forall k | true
      ensures OptionalString(r, k) == OptionalString(m, k)
      ensures k in r && (r[k].Str? || r[k].Num?) <==> k in m && (m[k].Str? || m[k].Num?)
    {
    }
  }

  /** Parsing a printed array of notifications keeps every one of them, in order. */
  lemma ParsedNotificationList(ns: seq<Notification>)
    ensures var r := ParseJsonToListOfMaps(Some(ArrayText(PrintedObjects(ns))));
            && |r| == |ns|
            && forall i :: 0 <= i < |ns| ==> NotificationOf(r[i]) == Some(ns[i])
  {
    var items := PrintedObjects(ns);
    AllObjectsKept(items);
    ObjectMapsKeepsObjects(items);
    forall i | 0 <= i < |ns|
      ensures NotificationOf(ObjectMaps(items)[i]) == Some(ns[i])
    {
      ParsedNotification(ns[i]);
    }
  }

  /** Filtering a sequence of objects for objects keeps it whole. */
  lemma {:induction false} AllObjectsKept(items: seq<Value>)
    requires forall i :: 0 <= i < |items| ==> items[i].Obj?
    ensures Filter(items, IsObject) == items
  {
    if |items| > 0 {
      AllObjectsKept(items[1..]);
    }
  }

  // ---- query accessors ----

  /** The reply of `getAlipayNotificationState`. */
  datatype StateReply = StateReply(enabled: bool, hasAlipay: bool, updatedAtMs: int)

  /** `getAlipayNotificationState`: the stored flag and time, defaulting to false and 0. */
  function GetAlipayNotificationState(prefs: StateBundle, listenerEnabled: bool): (r: StateReply)
    ensures r.enabled == listenerEnabled
    ensures r.hasAlipay <==> prefs.hasAlipay == Some(true)
    ensures prefs.updatedAtMs.None? ==> r.updatedAtMs == 0
    ensures prefs.updatedAtMs.Some? ==> r.updatedAtMs == prefs.updatedAtMs.value
  {
    StateReply(listenerEnabled, prefs.hasAlipay.GetOr(false), prefs.updatedAtMs.GetOr(0))
  }

  /** `getLatestAlipayNotification`: null when nothing is stored or it does not parse. */
  function GetLatestAlipayNotification(prefs: StateBundle): (r: Option<map<string, Value>>)
    ensures prefs.lastAlipayJson.None? ==> r.None?
    ensures r == ParseJsonToMap(prefs.lastAlipayJson)
  {
    match prefs.lastAlipayJson
    case None => None
    case Some(json) => ParseJsonToMap(Some(json))
  }

  /** `getLatestAlipayPaymentNotification`: null when nothing is stored or it does not parse. */
  function GetLatestAlipayPaymentNotification(prefs: StateBundle): (r: Option<map<string, Value>>)
    ensures prefs.lastAlipayPaymentJson.None? ==> r.None?
    ensures r == ParseJsonToMap(prefs.lastAlipayPaymentJson)
  {
    match prefs.lastAlipayPaymentJson
    case None => None
    case Some(json) => ParseJsonToMap(Some(json))
  }

  /** `getActiveAlipayNotificationsSnapshot`: a list, empty when nothing usable is stored. */
  function GetActiveAlipayNotificationsSnapshot(prefs: StateBundle): (r: seq<map<string, Value>>)
    ensures prefs.activeAlipaySnapshotJson.None? ==> r == []
    ensures r == ParseJsonToListOfMaps(prefs.activeAlipaySnapshotJson)
  {
    match prefs.activeAlipaySnapshotJson
    case None => []
    case Some(json) => ParseJsonToListOfMaps(Some(json))
  }

  /** The empty preferences file reads as the defaults. */
  lemma NothingStoredReadsAsDefaults(listenerEnabled: bool)
    ensures GetAlipayNotificationState(EmptyPrefs, listenerEnabled) == StateReply(listenerEnabled, false, 0)
    ensures GetLatestAlipayNotification(EmptyPrefs).None?
    ensures GetLatestAlipayPaymentNotification(EmptyPrefs).None?
    ensures GetActiveAlipayNotificationsSnapshot(EmptyPrefs) == []
  {
  }

  /**
   * What the service stores, the activity reads back: the flag and time,
   * the latest and latest-payment notifications, and the snapshot in its
   * newest-first order.
   */
  lemma QueriesReadBackUpdate(
    prefs: StateBundle, active: Option<seq<Notification>>, clock: Clock, listenerEnabled: bool)
    ensures var p := UpdateState(prefs, active, clock).prefs;
            && GetAlipayNotificationState(p, listenerEnabled)
                 == StateReply(listenerEnabled, HasAlipay(active), clock.prefsMs)
            && (GetLatestAlipayNotification(p).Some? <==> LatestAlipay(active).Some?)
            && (LatestAlipay(active).Some? ==>
                  NotificationOf(GetLatestAlipayNotification(p).value) == LatestAlipay(active))
            && (GetLatestAlipayPaymentNotification(p).Some? <==> LatestAlipayPayment(active).Some?)
            && (LatestAlipayPayment(active).Some? ==>
                  NotificationOf(GetLatestAlipayPaymentNotification(p).value) == LatestAlipayPayment(active))
            && |GetActiveAlipayNotificationsSnapshot(p)| == |ActiveAlipaySnapshot(active)|
            && forall i :: 0 <= i < |ActiveAlipaySnapshot(active)| ==>
                 NotificationOf(GetActiveAlipayNotificationsSnapshot(p)[i]) == Some(ActiveAlipaySnapshot(active)[i])
  {
    var p := UpdateState(prefs, active, clock).prefs;
    assert p.lastAlipayJson == JsonOf(LatestAlipay(active));
    assert p.lastAlipayPaymentJson == JsonOf(LatestAlipayPayment(active));
    assert p.activeAlipaySnapshotJson == Some(BuildActiveAlipaySnapshot(active));
    if LatestAlipay(active).Some? {
      ParsedNotification(LatestAlipay(active).value);
    }
    if LatestAlipayPayment(active).Some? {
      ParsedNotification(LatestAlipayPayment(active).value);
    }
    ParsedNotificationList(ActiveAlipaySnapshot(active));
  }

  // ---- the broadcast receiver ----

  /** The "state" map pushed for a state broadcast; a missing or unreadable notification becomes an empty map. */
  function StateMessageOf(extras: StateBundle): (m: Message)
    ensures m.StateMessage?
    ensures m.hasAlipay <==> extras.hasAlipay == Some(true)
    ensures extras.updatedAtMs.None? ==> m.updatedAtMs == 0
    ensures extras.updatedAtMs.Some? ==> m.updatedAtMs == extras.updatedAtMs.value
    ensures ParseJsonToMap(extras.lastAlipayJson).None? ==> m.alipay == map[]
    ensures ParseJsonToMap(extras.lastAlipayJson).Some? ==> m.alipay == ParseJsonToMap(extras.lastAlipayJson).value
    ensures ParseJsonToMap(extras.lastAlipayPaymentJson).None? ==> m.alipayPayment == map[]
    ensures ParseJsonToMap(extras.lastAlipayPaymentJson).Some? ==>
      m.alipayPayment == ParseJsonToMap(extras.lastAlipayPaymentJson).value
  {
    StateMessage(
      extras.hasAlipay.GetOr(false),
      extras.updatedAtMs.GetOr(0),
      ParseJsonToMap(extras.lastAlipayJson).GetOr(map[]),
      ParseJsonToMap(extras.lastAlipayPaymentJson).GetOr(map[]))
  }

  /** `onReceive`: a state or posted broadcast becomes one push; any other action is ignored. */
  function OnReceive(hub: EventHub, intent: Intent): (r: EventHub)
    ensures r.sink == hub.sink
    ensures intent.OtherBroadcast? || hub.sink.None? ==> r == hub
    ensures intent.StateBroadcast? && hub.sink.Some? ==>
      r.delivered == hub.delivered + [Delivery(hub.sink.value, StateMessageOf(intent.extras))]
    ensures intent.PostedBroadcast? && hub.sink.Some? ==>
      r.delivered == hub.delivered + [Delivery(hub.sink.value, PostedMessage(ParseJsonToMap(intent.postedJson).GetOr(map[])))]
  {
    match intent
    case StateBroadcast(extras) => Push(hub, StateMessageOf(extras))
    case PostedBroadcast(postedJson) => Push(hub, PostedMessage(ParseJsonToMap(postedJson).GetOr(map[])))
    case OtherBroadcast => hub
  }

  /** Broadcasts received in the order they were sent. */
  function ReceiveAll(hub: EventHub, intents: seq<Intent>): EventHub
    decreases |intents|
  {
    if |intents| == 0 then hub else ReceiveAll(OnReceive(hub, intents[0]), intents[1..])
  }

  /**
   * A posted Alipay notification reaches a listening subscriber as a
   * "posted" push carrying the notification, followed by the "state" push;
   * any other package yields the "state" push alone.
   */
  lemma PostedReachesSubscriber(
    sbn: Notification, prefs: StateBundle, active: Option<seq<Notification>>, clock: Clock, hub: EventHub)
    requires hub.sink.Some?
    ensures var step := OnNotificationPosted(sbn, prefs, active, clock);
            var r := ReceiveAll(hub, step.broadcasts);
            var state := Delivery(hub.sink.value, StateMessageOf(step.broadcasts[|step.broadcasts| - 1].extras));
            && (IsAlipay(sbn) ==>
                  && |r.delivered| == |hub.delivered| + 2
                  && r.delivered[|hub.delivered|].message.PostedMessage?
                  && NotificationOf(r.delivered[|hub.delivered|].message.notification) == Some(sbn)
                  && r.delivered[|hub.delivered| + 1] == state)
            && (!IsAlipay(sbn) ==> r.delivered == hub.delivered + [state])
  {
    var step := OnNotificationPosted(sbn, prefs, active, clock);
    ParsedNotification(sbn);
    if IsAlipay(sbn) {
      var h1 := OnReceive(hub, step.broadcasts[0]);
      assert step.broadcasts[1..] == [step.broadcasts[1]];
      assert ReceiveAll(hub, step.broadcasts) == ReceiveAll(h1, [step.broadcasts[1]]);
    } else {
      assert ReceiveAll(hub, step.broadcasts) == ReceiveAll(OnReceive(hub, step.broadcasts[0]), []);
    }
  }

  /** The "state" push of a recomputation carries the latest and latest-payment notifications. */
  lemma StatePushCarriesLatest(prefs: StateBundle, active: Option<seq<Notification>>, clock: Clock)
    ensures var m := StateMessageOf(UpdateState(prefs, active, clock).broadcasts[0].extras);
            && (m.hasAlipay <==> LatestAlipay(active).Some?)
            && m.updatedAtMs == clock.broadcastMs
            && (LatestAlipay(active).None? ==> m.alipay == map[])
            && (LatestAlipay(active).Some? ==> NotificationOf(m.alipay) == LatestAlipay(active))
            && (LatestAlipayPayment(active).None? ==> m.alipayPayment == map[])
            && (LatestAlipayPayment(active).Some? ==> NotificationOf(m.alipayPayment) == LatestAlipayPayment(active))
  {
    if LatestAlipay(active).Some? {
      ParsedNotification(LatestAlipay(active).value);
    }
    if LatestAlipayPayment(active).Some? {
      ParsedNotification(LatestAlipayPayment(active).value);
    }
  }
}
