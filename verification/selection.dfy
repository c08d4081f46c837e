/**
 * What the listener service derives from the active notifications: the
 * latest Alipay notification, the latest payment-like one, and the Alipay
 * notifications newest first.
 */
module Selection {
  import opened Options
  import opened Seqs
  import opened Notifications
  import Strings

  /** The active-notification array, with a null array read as empty. */
  function Listed(active: Option<seq<Notification>>): seq<Notification> {
    active.GetOr([])
  }

  /**
   * The `hasAlipay` flag of `updateState`: whether the active array holds
   * an Alipay notification; a null array holds none.
   */
  predicate HasAlipay(active: Option<seq<Notification>>) {
    match active
    case None => false
    case Some(s) => exists n :: n in s && IsAlipay(n)
  }

  // ---- maxByOrNull { it.postTime } ----

  /**
   * Scans `rest` left to right, replacing `best` only by a strictly later
   * notification, as Kotlin's `maxByOrNull` does; among equal post times
   * the first one seen is kept.
   */
  function MaxFrom(best: Notification, rest: seq<Notification>): (r: Notification)
    ensures r == best || r in rest
    ensures best.postTime <= r.postTime
    ensures forall n :: n in rest ==> n.postTime <= r.postTime
    decreases |rest|
  {
    if |rest| == 0 then best
    else
      var next := if best.postTime < rest[0].postTime then rest[0] else best;
      assert forall n :: n in rest ==> n == rest[0] || n in rest[1..];
      MaxFrom(next, rest[1..])
  }

  /** The element with the greatest post time, or none for an empty sequence. */
  function MaxByPostTime(s: seq<Notification>): (r: Option<Notification>)
    ensures r.None? <==> |s| == 0
    ensures r.Some? ==> r.value in s
    ensures r.Some? ==> forall n :: n in s ==> n.postTime <= r.value.postTime
  {
    if |s| == 0 then None
    else
      assert forall n :: n in s ==> n == s[0] || n in s[1..];
      Some(MaxFrom(s[0], s[1..]))
  }

  // ---- sortedByDescending { it.postTime } ----

  ghost predicate NewestFirst(s: seq<Notification>) {
    forall i, j :: 0 <= i < j < |s| ==> s[i].postTime >= s[j].postTime
  }

  /** Puts `x` before the first element that is not later than it. */
  function InsertNewestFirst(x: Notification, s: seq<Notification>): (r: seq<Notification>)
    requires NewestFirst(s)
    ensures NewestFirst(r)
    ensures forall y :: y in r <==> y == x || y in s
    ensures multiset(r) == multiset(s) + multiset{x}
    decreases |s|
  {
    if |s| == 0 then [x]
    else if s[0].postTime <= x.postTime then [x] + s
    else
      var tail := InsertNewestFirst(x, s[1..]);
      assert s == [s[0]] + s[1..];
      assert forall y :: y in s[1..] ==> y.postTime <= s[0].postTime;
      assert forall k :: 0 <= k < |tail| ==> tail[k].postTime <= s[0].postTime;
      [s[0]] + tail
  }

  /** A stable sort, newest first: the element order Kotlin's `sortedByDescending` produces. */
  function SortNewestFirst(s: seq<Notification>): (r: seq<Notification>)
    ensures NewestFirst(r)
    ensures multiset(r) == multiset(s)
  {
    if |s| == 0 then []
    else
      assert s == [s[0]] + s[1..];
      InsertNewestFirst(s[0], SortNewestFirst(s[1..]))
  }

  // ---- the three derived values ----

  /** `getLatestAlipay`: the latest Alipay notification, if any. */
  function LatestAlipay(active: Option<seq<Notification>>): (r: Option<Notification>)
    ensures r.Some? <==> HasAlipay(active)
    ensures r.Some? ==> IsAlipay(r.value) && r.value in Listed(active)
    ensures r.Some? ==> forall n :: n in Listed(active) && IsAlipay(n) ==> n.postTime <= r.value.postTime
  {
    if active.None? || |active.value| == 0 then None
    else MaxByPostTime(Filter(active.value, IsAlipay))
  }

  /** `getLatestAlipayPayment`: the latest Alipay notification that is payment-like, if any. */
  function LatestAlipayPayment(active: Option<seq<Notification>>): (r: Option<Notification>)
    ensures r.Some? <==> exists n :: n in Listed(active) && IsAlipay(n) && IsPaymentLike(n)
    ensures r.Some? ==> IsAlipay(r.value) && IsPaymentLike(r.value) && r.value in Listed(active)
    ensures r.Some? ==> forall n :: n in Listed(active) && IsAlipay(n) && IsPaymentLike(n) ==>
      n.postTime <= r.value.postTime
  {
    if active.None? || |active.value| == 0 then None
    else MaxByPostTime(Filter(Filter(active.value, IsAlipay), IsPaymentLike))
  }

  /** The notifications `buildActiveAlipaySnapshot` prints: the Alipay ones, newest first. */
  function ActiveAlipaySnapshot(active: Option<seq<Notification>>): (r: seq<Notification>)
    ensures NewestFirst(r)
    ensures forall n :: multiset(r)[n] == if IsAlipay(n) then multiset(Listed(active))[n] else 0
    ensures forall n :: n in r ==> IsAlipay(n)
    ensures |r| == 0 <==> !HasAlipay(active)
  {
    if active.None? || |active.value| == 0 then []
    else
      FilterCounts(active.value, IsAlipay);
      var r := SortNewestFirst(Filter(active.value, IsAlipay));
      assert forall n :: n in r <==> n in multiset(r);
      r
  }

  /** The latest payment notification is never later than the latest Alipay notification. */
  lemma PaymentNotAfterLatest(active: Option<seq<Notification>>)
    ensures LatestAlipayPayment(active).Some? ==> LatestAlipay(active).Some?
    ensures LatestAlipayPayment(active).Some? ==>
      LatestAlipayPayment(active).value.postTime <= LatestAlipay(active).value.postTime
  {
  }

  /** The snapshot's head has the latest post time. */
  lemma SnapshotHeadIsLatest(active: Option<seq<Notification>>)
    ensures LatestAlipay(active).Some? <==> |ActiveAlipaySnapshot(active)| > 0
    ensures LatestAlipay(active).Some? ==>
      ActiveAlipaySnapshot(active)[0].postTime == LatestAlipay(active).value.postTime
  {
    var latest, snap := LatestAlipay(active), ActiveAlipaySnapshot(active);
    if latest.Some? {
      assert snap[0] in multiset(snap);
      assert latest.value in multiset(snap);
      var k :| 0 <= k < |snap| && snap[k] == latest.value;
      assert snap[0].postTime >= snap[k].postTime;
    }
  }

  /** A worked case: an Alipay payment at 100 and an unrelated Alipay notification at 200. */
  const ExamplePayment: Notification :=
    Notification(AlipayPackage, "k1", 1, None, 100, 100, None, None, Some("收款 5.00元"), None, None, None)
  const ExampleHello: Notification :=
    Notification(AlipayPackage, "k2", 2, None, 200, 200, None, None, Some("hello"), None, None, None)

  /** The classifier accepts "收款 5.00元" and rejects "hello". */
  lemma ExampleClassified()
    ensures IsPaymentLike(ExamplePayment)
    ensures !IsPaymentLike(ExampleHello)
  {
    var text := "收款 5.00元";
    Strings.ContainsAt(text, ReceiptWord, 0);
    Strings.ContainsAt(text, CurrencyWord, 7);
    PaymentLikeByFields(ExamplePayment);
    Strings.MissingFirstChar("hello", SuccessPhrase);
    Strings.MissingFirstChar("hello", ReceiptWord);
    Strings.EmptyContainsOnlyEmpty(SuccessPhrase);
    Strings.EmptyContainsOnlyEmpty(ReceiptWord);
    PaymentLikeByFields(ExampleHello);
  }

  /** Both notifications of the worked case are Alipay ones, and only the first is a payment. */
  lemma ExampleFiltered()
    ensures Filter([ExamplePayment, ExampleHello], IsAlipay) == [ExamplePayment, ExampleHello]
    ensures Filter([ExamplePayment, ExampleHello], IsPaymentLike) == [ExamplePayment]
  {
    ExampleClassified();
    var both := [ExamplePayment, ExampleHello];
    assert both[1..] == [ExampleHello];
    assert [ExampleHello][1..] == [];
  }

  /** The worked case sorts to the notification at 200 before the one at 100. */
  lemma ExampleSorted()
    ensures SortNewestFirst([ExamplePayment, ExampleHello]) == [ExampleHello, ExamplePayment]
  {
    var both := [ExamplePayment, ExampleHello];
    assert both[1..] == [ExampleHello];
    assert [ExampleHello][1..] == [];
    assert SortNewestFirst([ExampleHello]) == [ExampleHello];
  }

  /**
   * For the worked case the latest notification is the one at 200, the
   * latest payment the one at 100, and the snapshot lists 200 before 100.
   */
  lemma TwoNotificationExample()
    ensures LatestAlipay(Some([ExamplePayment, ExampleHello])) == Some(ExampleHello)
    ensures LatestAlipayPayment(Some([ExamplePayment, ExampleHello])) == Some(ExamplePayment)
    ensures ActiveAlipaySnapshot(Some([ExamplePayment, ExampleHello])) == [ExampleHello, ExamplePayment]
  {
    ExampleFiltered();
    ExampleSorted();
  }
}
