/**
 * The notification listener service: on every post or removal it
 * recomputes the Alipay state from the active notifications, writes it to
 * its preferences file in one edit, and broadcasts it.
 */
module ListenerService {
  import opened Options
  import opened Json
  import opened Notifications
  import opened Selection

  /**
   * The five keys the service writes, each absent until first written.
   * Used for the preferences file and for the extras of the state broadcast.
   */
  datatype StateBundle = StateBundle(
    hasAlipay: Option<bool>,
    lastAlipayJson: Option<JsonText>,
    lastAlipayPaymentJson: Option<JsonText>,
    activeAlipaySnapshotJson: Option<JsonText>,
    updatedAtMs: Option<int>)

  const EmptyPrefs: StateBundle := StateBundle(None, None, None, None, None)

  /** The two separate reads of the wall clock in one recomputation. */
  datatype Clock = Clock(prefsMs: int, broadcastMs: int)

  /** What the service sends with `sendBroadcast`. */
  datatype Intent =
    | StateBroadcast(extras: StateBundle)
    | PostedBroadcast(postedJson: Option<JsonText>)
    | OtherBroadcast

  /** The preferences after one callback, and the broadcasts it sent, in order. */
  datatype ServiceStep = ServiceStep(prefs: StateBundle, broadcasts: seq<Intent>)

  /** A notification as printed JSON, or null. */
  function JsonOf(n: Option<Notification>): (t: Option<JsonText>)
    ensures t.Some? <==> n.Some?
  {
    match n
    case Some(x) => Some(ObjectText(NotificationJson(x)))
    case None => None
  }

  /** The notifications printed as JSON objects, in order. */
  function PrintedObjects(ns: seq<Notification>): (items: seq<Value>)
    ensures |items| == |ns|
    ensures forall i :: 0 <= i < |items| ==> items[i] == Obj(NotificationJson(ns[i]))
    ensures forall i :: 0 <= i < |items| ==>
      items[i].Obj? && NotificationOf(items[i].fields) == Some(ns[i])
  {
    if |ns| == 0 then []
    else
      NotificationJsonRoundTrip(ns[0]);
      [Obj(NotificationJson(ns[0]))] + PrintedObjects(ns[1..])
  }

  /**
   * `buildActiveAlipaySnapshot`: the snapshot as a printed JSON array, one
   * object per Alipay notification, newest first, each reading back as the
   * notification it was printed from.
   */
  function BuildActiveAlipaySnapshot(active: Option<seq<Notification>>): (t: JsonText)
    ensures t.ArrayText? && |t.items| == |ActiveAlipaySnapshot(active)|
    ensures forall i :: 0 <= i < |t.items| ==>
      t.items[i].Obj? && NotificationOf(t.items[i].fields) == Some(ActiveAlipaySnapshot(active)[i])
    ensures |t.items| == 0 <==> !HasAlipay(active)
  {
    ArrayText(PrintedObjects(ActiveAlipaySnapshot(active)))
  }

  /**
   * Every put of one preferences edit; `putString(key, null)` removes the
   * key, so a null string leaves it absent.
   */
  function ApplyStateEdit(
    prefs: StateBundle, hasAlipay: bool, lastJson: Option<JsonText>,
    paymentJson: Option<JsonText>, snapshotJson: JsonText, nowMs: int): StateBundle
  {
    prefs.(hasAlipay := Some(hasAlipay), lastAlipayJson := lastJson,
           lastAlipayPaymentJson := paymentJson,
           activeAlipaySnapshotJson := Some(snapshotJson), updatedAtMs := Some(nowMs))
  }

  /** `updateState`: recompute, persist in one edit, broadcast. */
  function UpdateState(prefs: StateBundle, active: Option<seq<Notification>>, clock: Clock): (r: ServiceStep)
    ensures r.prefs.hasAlipay == Some(HasAlipay(active))
    ensures r.prefs.lastAlipayJson.Some? <==> HasAlipay(active)
    ensures r.prefs.lastAlipayPaymentJson.Some? <==>
      exists n :: n in Listed(active) && IsAlipay(n) && IsPaymentLike(n)
    ensures r.prefs.activeAlipaySnapshotJson.Some? && r.prefs.updatedAtMs == Some(clock.prefsMs)
    ensures r.broadcasts == [StateBroadcast(r.prefs.(updatedAtMs := Some(clock.broadcastMs)))]
  {
    var hasAlipay := HasAlipay(active);
    var latestAlipayJson := JsonOf(LatestAlipay(active));
    var latestAlipayPaymentJson := JsonOf(LatestAlipayPayment(active));
    var activeSnapshot := BuildActiveAlipaySnapshot(active);
    var prefs' := ApplyStateEdit(prefs, hasAlipay, latestAlipayJson, latestAlipayPaymentJson,
                                 activeSnapshot, clock.prefsMs);
    var extras := StateBundle(Some(hasAlipay), latestAlipayJson, latestAlipayPaymentJson,
                              Some(activeSnapshot), Some(clock.broadcastMs));
    ServiceStep(prefs', [StateBroadcast(extras)])
  }

  /** `onNotificationPosted`: a "posted" broadcast for Alipay only, then the recomputation. */
  function OnNotificationPosted(
    sbn: Notification, prefs: StateBundle, active: Option<seq<Notification>>, clock: Clock): (r: ServiceStep)
    ensures r.prefs == UpdateState(prefs, active, clock).prefs
    ensures |r.broadcasts| == if IsAlipay(sbn) then 2 else 1
    ensures IsAlipay(sbn) ==> r.broadcasts[0] == PostedBroadcast(Some(ObjectText(NotificationJson(sbn))))
    ensures r.broadcasts[|r.broadcasts| - 1] == UpdateState(prefs, active, clock).broadcasts[0]
    ensures forall i :: 0 <= i < |r.broadcasts| && r.broadcasts[i].PostedBroadcast? ==>
      i == 0 && IsAlipay(sbn) && r.broadcasts[i].postedJson == Some(ObjectText(NotificationJson(sbn)))
  {
    var postedJson := Some(ObjectText(NotificationJson(sbn)));
    var posted := if IsAlipay(sbn) then [PostedBroadcast(postedJson)] else [];
    var step := UpdateState(prefs, active, clock);
    ServiceStep(step.prefs, posted + step.broadcasts)
  }

  /** `onNotificationRemoved`: only the recomputation. */
  function OnNotificationRemoved(
    sbn: Notification, prefs: StateBundle, active: Option<seq<Notification>>, clock: Clock): (r: ServiceStep)
    ensures r == UpdateState(prefs, active, clock)
    ensures forall i :: 0 <= i < |r.broadcasts| ==> r.broadcasts[i].StateBroadcast?
  {
    UpdateState(prefs, active, clock)
  }

  /** `onListenerConnected`: a recomputation when the service (re)binds. */
  function OnListenerConnected(prefs: StateBundle, active: Option<seq<Notification>>, clock: Clock): (r: ServiceStep)
    ensures r == UpdateState(prefs, active, clock)
  {
    UpdateState(prefs, active, clock)
  }

  // ---- properties of the recomputation ----

  /** The persisted record depends on the active notifications and the clock only, not on what was stored. */
  lemma UpdateStateOverwritesAll(p1: StateBundle, p2: StateBundle, active: Option<seq<Notification>>, clock: Clock)
    ensures UpdateState(p1, active, clock) == UpdateState(p2, active, clock)
  {
  }

  /** Recomputing over an unchanged active set changes nothing but the timestamp. */
  lemma RecomputeIsIdempotent(prefs: StateBundle, active: Option<seq<Notification>>, c1: Clock, c2: Clock)
    ensures var once := UpdateState(prefs, active, c1).prefs;
            var twice := UpdateState(once, active, c2).prefs;
            twice == once.(updatedAtMs := Some(c2.prefsMs))
  {
  }

  /**
   * The persisted record is coherent: the Alipay flag is set exactly when
   * a latest notification is stored and exactly when the snapshot is
   * non-empty, and the snapshot's first entry is the latest notification's
   * post time.
   */
  lemma StoredStateCoherent(prefs: StateBundle, active: Option<seq<Notification>>, clock: Clock)
    ensures var p := UpdateState(prefs, active, clock).prefs;
            && (p.hasAlipay == Some(true) <==> p.lastAlipayJson.Some?)
            && (p.hasAlipay == Some(true) <==> |p.activeAlipaySnapshotJson.value.items| > 0)
            && (p.lastAlipayJson.Some? ==>
                  p.activeAlipaySnapshotJson.value.items[0].fields["postTime"]
                    == p.lastAlipayJson.value.fields["postTime"])
  {
    var p := UpdateState(prefs, active, clock).prefs;
    var latest, snap := LatestAlipay(active), ActiveAlipaySnapshot(active);
    SnapshotHeadIsLatest(active);
    assert p.lastAlipayJson == JsonOf(latest);
    assert p.activeAlipaySnapshotJson == Some(BuildActiveAlipaySnapshot(active));
    if latest.Some? {
      var head := p.activeAlipaySnapshotJson.value.items[0];
      assert head == Obj(NotificationJson(snap[0]));
      NotificationJsonRoundTrip(snap[0]);
      NotificationJsonRoundTrip(latest.value);
    }
  }
}
