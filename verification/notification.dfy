/**
 * One status-bar notification as the listener service sees it, the
 * payment-text classifier, and the fixed twelve-field JSON form.
 */
module Notifications {
  import opened Options
  import opened Strings
  import opened Json

  const AlipayPackage: string := "com.eg.android.AlipayGphone"

  /** The fields of a `StatusBarNotification` the service reads. */
  datatype Notification = Notification(
    packageName: string,
    key: string,
    id: int,
    channelId: Option<string>,
    postTime: int,
    when: int,
    category: Option<string>,
    title: Option<string>,
    text: Option<string>,
    subText: Option<string>,
    bigText: Option<string>,
    infoText: Option<string>)

  predicate IsAlipay(n: Notification) {
    n.packageName == AlipayPackage
  }

  /** The classifier's phrases: "received successfully", "received", "yuan". */
  const SuccessPhrase: string := "成功收款"
  const ReceiptWord: string := "收款"
  const CurrencyWord: string := "元"

  /** The text the classifier searches: title, text and big text joined by spaces. */
  function CombinedText(n: Notification): string {
    n.title.GetOr("") + " " + n.text.GetOr("") + " " + n.bigText.GetOr("")
  }

  /** True for a notification whose text reads like a received payment. */
  predicate IsPaymentLike(n: Notification) {
    var combined := CombinedText(n);
    if Contains(combined, SuccessPhrase) then true
    else if Contains(combined, ReceiptWord) && Contains(combined, CurrencyWord) then true
    else false
  }

  /** Reference definition: some classified field contains `p`. */
  predicate SomeFieldContains(n: Notification, p: string) {
    || Contains(n.title.GetOr(""), p)
    || Contains(n.text.GetOr(""), p)
    || Contains(n.bigText.GetOr(""), p)
  }

  /** Searching the joined text is the same as searching each field, since no phrase holds a space. */
  lemma CombinedTextContains(n: Notification, p: string)
    requires ' ' !in p
    ensures Contains(CombinedText(n), p) <==> SomeFieldContains(n, p)
  {
    var t, x, b := n.title.GetOr(""), n.text.GetOr(""), n.bigText.GetOr("");
    assert CombinedText(n) == (t + [' '] + x) + [' '] + b;
    ContainsAcrossSeparator(t + [' '] + x, ' ', b, p);
    ContainsAcrossSeparator(t, ' ', x, p);
  }

  /**
   * The classifier is true exactly when some field holds the success
   * phrase, or some field holds the receipt word and some field the
   * currency word.
   */
  lemma PaymentLikeByFields(n: Notification)
    ensures IsPaymentLike(n) <==>
      || SomeFieldContains(n, SuccessPhrase)
      || (SomeFieldContains(n, ReceiptWord) && SomeFieldContains(n, CurrencyWord))
  {
    CombinedTextContains(n, SuccessPhrase);
    CombinedTextContains(n, ReceiptWord);
    CombinedTextContains(n, CurrencyWord);
  }

  /** Absent title, text and big text classify as not payment-like. */
  lemma NoTextIsNotPayment(n: Notification)
    requires n.title.None? && n.text.None? && n.bigText.None?
    ensures !IsPaymentLike(n)
  {
    PaymentLikeByFields(n);
    EmptyContainsOnlyEmpty(SuccessPhrase);
    EmptyContainsOnlyEmpty(ReceiptWord);
  }

  /** The success phrase anywhere in a classified field makes a notification payment-like. */
  lemma SuccessPhraseIsPayment(n: Notification)
    requires SomeFieldContains(n, SuccessPhrase)
    ensures IsPaymentLike(n)
  {
    PaymentLikeByFields(n);
  }

  // ---- the twelve-field JSON form ----

  const JsonKeys: set<string> := {
    "package", "key", "id", "channelId", "postTime", "when",
    "category", "title", "text", "subText", "bigText", "infoText" }

  /** An optional string as a JSON value: absent is an explicit `null`. */
  function OrNull(s: Option<string>): (v: Value)
    ensures v.Null? <==> s.None?
    ensures s.Some? ==> v == Str(s.value)
  {
    match s
    case Some(x) => Str(x)
    case None => Null
  }

  // ---- reading the JSON form back (the consumer's side) ----

  /** A string field that is missing, `null`, or not a string reads as absent. */
  function OptionalString(m: map<string, Value>, k: string): Option<string> {
    if k in m && m[k].Str? then Some(m[k].s) else None
  }

  /** Rebuilds a notification from its JSON object; fails when a mandatory field is missing or mistyped. */
  function NotificationOf(m: map<string, Value>): (r: Option<Notification>)
    ensures r.Some? ==> "package" in m && m["package"] == Str(r.value.packageName)
    ensures r.Some? ==> "postTime" in m && m["postTime"] == Num(r.value.postTime)
  {
    if && "package" in m && m["package"].Str?
       && "key" in m && m["key"].Str?
       && "id" in m && m["id"].Num?
       && "postTime" in m && m["postTime"].Num?
       && "when" in m && m["when"].Num?
    then
      Some(Notification(
        m["package"].s, m["key"].s, m["id"].n,
        OptionalString(m, "channelId"),
        m["postTime"].n, m["when"].n,
        OptionalString(m, "category"),
        OptionalString(m, "title"),
        OptionalString(m, "text"),
        OptionalString(m, "subText"),
        OptionalString(m, "bigText"),
        OptionalString(m, "infoText")))
    else None
  }

  /**
   * The object `buildNotificationJson` fills in: all twelve keys present,
   * an absent optional field as an explicit `null`.
   */
  function NotificationJson(n: Notification): (m: map<string, Value>)
    ensures m.Keys == JsonKeys
    ensures forall k :: k in m && m[k].Null? <==>
      || (k == "channelId" && n.channelId.None?)
      || (k == "category" && n.category.None?)
      || (k == "title" && n.title.None?)
      || (k == "text" && n.text.None?)
      || (k == "subText" && n.subText.None?)
      || (k == "bigText" && n.bigText.None?)
      || (k == "infoText" && n.infoText.None?)
  {
    map[
      "package" := Str(n.packageName),
      "key" := Str(n.key),
      "id" := Num(n.id),
      "channelId" := OrNull(n.channelId),
      "postTime" := Num(n.postTime),
      "when" := Num(n.when),
      "category" := OrNull(n.category),
      "title" := OrNull(n.title),
      "text" := OrNull(n.text),
      "subText" := OrNull(n.subText),
      "bigText" := OrNull(n.bigText),
      "infoText" := OrNull(n.infoText)]
  }

  /** The JSON form loses nothing: reading it back yields the notification. */
  lemma NotificationJsonRoundTrip(n: Notification)
    ensures NotificationOf(NotificationJson(n)) == Some(n)
  {
    var m := NotificationJson(n);
    assert m["package"] == Str(n.packageName);
    assert m["key"] == Str(n.key);
    assert m["id"] == Num(n.id);
    assert m["postTime"] == Num(n.postTime);
    assert m["when"] == Num(n.when);
    assert OptionalString(m, "channelId") == n.channelId;
    assert OptionalString(m, "category") == n.category;
    assert OptionalString(m, "title") == n.title;
    assert OptionalString(m, "text") == n.text;
    assert OptionalString(m, "subText") == n.subText;
    assert OptionalString(m, "bigText") == n.bigText;
    assert OptionalString(m, "infoText") == n.infoText;
  }
}
