# SecGo kiosk notifications and product server, in Dafny

This project models the two cores of the SecGo repository.

**Kiosk notification pipeline (Kotlin, Android).** Every time a notification is posted or removed, `SecgoNotificationListenerService` recomputes a derived state from the currently active notifications:

- whether any Alipay notification is active;
- the latest Alipay notification by `postTime`;
- the latest Alipay notification whose text looks like a received payment;
- a newest-first snapshot of all active Alipay notifications.

It writes these to a preferences file in one edit and sends a "state" broadcast. For an Alipay post it first sends a "posted" broadcast. `MainActivity` reads the preferences back through query accessors that fall back to defaults. It turns the stored JSON into maps, dropping `null` values and treating malformed text as absent. It forwards broadcasts to a single replaceable subscriber slot (`eventSink`), and a push made while that slot is empty is lost.

**Product cache and QR store (Rust, actix + SQLite).**

- `db.rs` keeps a products table keyed by barcode, where the last write wins.
- It also keeps a payment-QR table held to a single row with id `store_qr`.
- The `api.rs` handlers look a product up locally first, then at Open Food Facts, and cache what they find.
- They also store and serve the QR code.

Module layout, leaves first:

| file | module | models |
|---|---|---|
| options.dfy | `Options` | nullable values |
| strings.dfy | `Strings` | `String.contains` and why a space-joined text matches per field |
| seqs.dfy | `Seqs` | `filter` |
| json.dfy | `Json` | JSON values and the four shapes a stored string can have |
| notification.dfy | `Notifications` | the notification record, `isPaymentLike`, `buildNotificationJson` |
| selection.dfy | `Selection` | `getLatestAlipay`, `getLatestAlipayPayment`, `buildActiveAlipaySnapshot`'s ordering |
| listener_service.dfy | `ListenerService` | `updateState`, `onNotificationPosted/Removed`, `onListenerConnected` |
| event_sink.dfy | `EventSink` | the single subscriber slot |
| main_activity.dfy | `MainActivity` | `parseJsonToMap`, `parseJsonToListOfMaps`, the query accessors, the broadcast receiver |
| server_models.dfy | `Models` | `Product`, `PaymentQrCode`, `ProductPayload` |
| server_db.dfy | `Db` | `Database` over map- and sequence-backed tables |
| server_api.dfy | `Api` | the four handlers and `lookup_external_product` |

Modelling choices:

- **JSON text is abstract.** A string handed to org.json is `Blank`, `Malformed`, the printed form of an object, or the printed form of an array. A nullable string is `Option<JsonText>`.
- **Preferences are a record.** The preferences file and the state broadcast's extras are a record of the five keys, each possibly absent. `putString(key, null)` removes its key.
- **Clocks are inputs.** Each wall-clock read is a parameter. The timestamp persisted by `updateState` and the one it broadcasts are two separate reads. The same holds for the time `add_product` returns and the time `upsert_product` stores.
- **Storage failures are injected.** A SQLite failure that the schema cannot explain, such as I/O or a locked file, is an input. `Io.FailsAt(k)` fails the k-th statement of one call.
- **A missing table is modelled.** Before `init` a table does not exist, and using it gives an error.

Behaviour of the code worth noting:

- **Ties.** Kotlin's `maxByOrNull` keeps the first element with the greatest `postTime`. `Selection.MaxFrom` replaces only on a strictly later time.
- **Broadcast order.** `onNotificationPosted` sends the "posted" broadcast before it recomputes and persists the state.
- **Write errors.** A preferences write is `apply()`, which reports no failure, so the kiosk side has no storage-fault path.
- **One source only.** Only the Alipay package is tracked, with one fixed classifier.
- **QR writes are not atomic.** `upsert_payment_qr` deletes all rows and then inserts, without a transaction. If the insert fails, the table is left empty. `Db.UpsertPaymentQr` states this.

## Model

| member | source | states |
|---|---|---|
| Notifications.PaymentLikeByFields | Kiosk/android/app/src/main/kotlin/com/secgo/kiosk/SecgoNotificationListenerService.kt:74-83 | a notification is payment-like exactly when one of title, text or big text contains "成功收款", or one contains "收款" and one contains "元"; joining the fields with spaces creates no extra match |
| Notifications.SuccessPhraseIsPayment | Kiosk/android/app/src/main/kotlin/com/secgo/kiosk/SecgoNotificationListenerService.kt:79-80 | "成功收款" in any classified field makes the notification payment-like |
| Notifications.NoTextIsNotPayment | Kiosk/android/app/src/main/kotlin/com/secgo/kiosk/SecgoNotificationListenerService.kt:75-82 | absent title, text and big text are read as empty and classify as not payment-like, without failing |
| Notifications.NotificationJson | Kiosk/android/app/src/main/kotlin/com/secgo/kiosk/SecgoNotificationListenerService.kt:85-102 | the JSON object always has all twelve keys; a key holds `null` exactly when its optional field (channelId, category, title, text, subText, bigText, infoText) is absent |
| Notifications.NotificationJsonRoundTrip | Kiosk/android/app/src/main/kotlin/com/secgo/kiosk/SecgoNotificationListenerService.kt:88-101 | the JSON object loses no field: reading it back gives the same notification |
| Selection.MaxFrom | Kiosk/android/app/src/main/kotlin/com/secgo/kiosk/SecgoNotificationListenerService.kt:63 | the left-to-right scan ends on an element of the input whose post time is at least every element's |
| Selection.MaxByPostTime | Kiosk/android/app/src/main/kotlin/com/secgo/kiosk/SecgoNotificationListenerService.kt:71 | no result exactly for an empty sequence; otherwise a member with the greatest post time |
| Selection.LatestAlipay | Kiosk/android/app/src/main/kotlin/com/secgo/kiosk/SecgoNotificationListenerService.kt:59-64 | null for a null or empty array or one without Alipay entries; otherwise an active Alipay notification whose post time is at least every Alipay notification's |
| Selection.LatestAlipayPayment | Kiosk/android/app/src/main/kotlin/com/secgo/kiosk/SecgoNotificationListenerService.kt:66-72 | a result exactly when some Alipay notification is payment-like; it is Alipay, payment-like, active and latest among those |
| Selection.PaymentNotAfterLatest | Kiosk/android/app/src/main/kotlin/com/secgo/kiosk/SecgoNotificationListenerService.kt:34-35 | whenever a latest payment exists, a latest Alipay notification exists and is not earlier |
| Selection.InsertNewestFirst | Kiosk/android/app/src/main/kotlin/com/secgo/kiosk/SecgoNotificationListenerService.kt:110 | inserting into a newest-first sequence keeps it newest first and adds exactly the one element |
| Selection.SortNewestFirst | Kiosk/android/app/src/main/kotlin/com/secgo/kiosk/SecgoNotificationListenerService.kt:110 | the sort yields a newest-first permutation of its input |
| Selection.ActiveAlipaySnapshot | Kiosk/android/app/src/main/kotlin/com/secgo/kiosk/SecgoNotificationListenerService.kt:105-113 | the snapshot is newest first, holds each Alipay notification as often as the active array does and nothing else, and is empty exactly when no Alipay notification is active (so for a null or empty array) |
| Selection.SnapshotHeadIsLatest | Kiosk/android/app/src/main/kotlin/com/secgo/kiosk/SecgoNotificationListenerService.kt:34-36 | the snapshot is non-empty exactly when a latest Alipay notification exists, and its first entry has that notification's post time |
| Selection.ExampleClassified | Kiosk/android/app/src/main/kotlin/com/secgo/kiosk/SecgoNotificationListenerService.kt:79-82 | "收款 5.00元" is payment-like and "hello" is not |
| Selection.TwoNotificationExample | Kiosk/android/app/src/main/kotlin/com/secgo/kiosk/SecgoNotificationListenerService.kt:59-113 | for a payment at 100 and "hello" at 200 the latest is the one at 200, the latest payment the one at 100, and the snapshot lists 200 then 100 |
| ListenerService.PrintedObjects | Kiosk/android/app/src/main/kotlin/com/secgo/kiosk/SecgoNotificationListenerService.kt:109-111 | one JSON object per notification, in order, each reading back as the notification it was printed from |
| ListenerService.BuildActiveAlipaySnapshot | Kiosk/android/app/src/main/kotlin/com/secgo/kiosk/SecgoNotificationListenerService.kt:105-113 | the stored snapshot text is an array with one object per snapshot entry, in newest-first order, each reading back as that notification; it is empty exactly when no Alipay notification is active |
| ListenerService.UpdateState | Kiosk/android/app/src/main/kotlin/com/secgo/kiosk/SecgoNotificationListenerService.kt:32-57 | the stored flag is whether any Alipay notification is active; the latest (payment) key is present exactly when such a notification exists; snapshot and time are always written; the one state broadcast carries the same values with its own clock read |
| ListenerService.OnNotificationPosted | Kiosk/android/app/src/main/kotlin/com/secgo/kiosk/SecgoNotificationListenerService.kt:17-26 | the state is recomputed for every package; a "posted" broadcast with the notification's JSON is sent, first, only for the Alipay package |
| ListenerService.OnNotificationRemoved | Kiosk/android/app/src/main/kotlin/com/secgo/kiosk/SecgoNotificationListenerService.kt:28-30 | a removal only recomputes, and sends no "posted" broadcast |
| ListenerService.OnListenerConnected | Kiosk/android/app/src/main/kotlin/com/secgo/kiosk/SecgoNotificationListenerService.kt:12-15 | connecting the listener recomputes the state |
| ListenerService.UpdateStateOverwritesAll | Kiosk/android/app/src/main/kotlin/com/secgo/kiosk/SecgoNotificationListenerService.kt:40-46 | all five keys are written in one edit, so the result does not depend on what was stored before |
| ListenerService.RecomputeIsIdempotent | Kiosk/android/app/src/main/kotlin/com/secgo/kiosk/SecgoNotificationListenerService.kt:32-46 | recomputing twice over the same active array changes nothing but `updated_at_ms` |
| ListenerService.StoredStateCoherent | Kiosk/android/app/src/main/kotlin/com/secgo/kiosk/SecgoNotificationListenerService.kt:33-44 | stored `has_alipay` is true exactly when a latest notification is stored and exactly when the snapshot array is non-empty; the snapshot's first `postTime` equals the latest one's |
| MainActivity.DropNulls | Kiosk/android/app/src/main/kotlin/com/secgo/kiosk/MainActivity.kt:243-249 | the keys kept are exactly those whose value is not `null`, with their values unchanged |
| MainActivity.ParseJsonToMap | Kiosk/android/app/src/main/kotlin/com/secgo/kiosk/MainActivity.kt:238-254 | null for null, blank, malformed or non-object text; for an object, every non-null pair and no other |
| MainActivity.ObjectMaps | Kiosk/android/app/src/main/kotlin/com/secgo/kiosk/MainActivity.kt:261-264 | the loop never yields more maps than the array has elements |
| MainActivity.ObjectMapsKeepsObjects | Kiosk/android/app/src/main/kotlin/com/secgo/kiosk/MainActivity.kt:259-265 | the loop keeps exactly the object elements, in order, each without its null pairs |
| MainActivity.ParseJsonToListOfMaps | Kiosk/android/app/src/main/kotlin/com/secgo/kiosk/MainActivity.kt:256-269 | empty for null, blank, malformed or non-array text; for an array, one map per object element, in order, each without its null pairs, and non-objects skipped |
| MainActivity.ParsedNotification | Kiosk/android/app/src/main/kotlin/com/secgo/kiosk/MainActivity.kt:241-250 | parsing a printed notification yields exactly its non-null fields, which still determine the notification |
| MainActivity.AllObjectsKept | Kiosk/android/app/src/main/kotlin/com/secgo/kiosk/MainActivity.kt:262 | an array of objects loses no element to the object filter |
| MainActivity.ParsedNotificationList | Kiosk/android/app/src/main/kotlin/com/secgo/kiosk/MainActivity.kt:256-269 | parsing a printed snapshot gives one map per notification, in order, each decoding to that notification |
| MainActivity.GetAlipayNotificationState | Kiosk/android/app/src/main/kotlin/com/secgo/kiosk/MainActivity.kt:180-189 | `enabled` passes the authorisation flag through; `hasAlipay` defaults to false and `updatedAtMs` to 0 |
| MainActivity.GetLatestAlipayNotification | Kiosk/android/app/src/main/kotlin/com/secgo/kiosk/MainActivity.kt:191-195 | null when the key is absent, otherwise the parsed map or null |
| MainActivity.GetLatestAlipayPaymentNotification | Kiosk/android/app/src/main/kotlin/com/secgo/kiosk/MainActivity.kt:197-201 | null when the key is absent, otherwise the parsed map or null |
| MainActivity.GetActiveAlipayNotificationsSnapshot | Kiosk/android/app/src/main/kotlin/com/secgo/kiosk/MainActivity.kt:203-207 | a list, never null; empty when the key is absent |
| MainActivity.NothingStoredReadsAsDefaults | Kiosk/android/app/src/main/kotlin/com/secgo/kiosk/MainActivity.kt:180-207 | an empty preferences file reads as false, 0, null, null and the empty list |
| MainActivity.QueriesReadBackUpdate | Kiosk/android/app/src/main/kotlin/com/secgo/kiosk/MainActivity.kt:180-207 | after a recomputation the accessors return its flag and time, the latest and latest-payment notifications, and the snapshot in newest-first order |
| MainActivity.StateMessageOf | Kiosk/android/app/src/main/kotlin/com/secgo/kiosk/MainActivity.kt:112-133 | the "state" push always carries a map for each latest field, the empty map when it is missing or unparseable; the flag defaults to false and the time to 0, and otherwise both are passed through |
| MainActivity.OnReceive | Kiosk/android/app/src/main/kotlin/com/secgo/kiosk/MainActivity.kt:110-148 | a state or posted broadcast becomes one push to the current sink, dropped when there is none; other actions change nothing |
| MainActivity.PostedReachesSubscriber | Kiosk/android/app/src/main/kotlin/com/secgo/kiosk/MainActivity.kt:135-143 | a posted Alipay notification reaches a listening subscriber as a "posted" push that decodes to it, followed by the "state" push; any other package yields only the "state" push |
| MainActivity.StatePushCarriesLatest | Kiosk/android/app/src/main/kotlin/com/secgo/kiosk/MainActivity.kt:122-133 | the "state" push of a recomputation carries its flag and time and maps that decode to the latest and latest-payment notifications, or empty maps |
| EventSink.OnListen | Kiosk/android/app/src/main/kotlin/com/secgo/kiosk/MainActivity.kt:26-28 | the new sink replaces any earlier one, and nothing is replayed to it |
| EventSink.OnCancel | Kiosk/android/app/src/main/kotlin/com/secgo/kiosk/MainActivity.kt:30-32 | the slot is cleared; clearing an empty slot is a no-op |
| EventSink.Push | Kiosk/android/app/src/main/kotlin/com/secgo/kiosk/MainActivity.kt:138-143 | a push reaches the current sink only, and is dropped without trace when the slot is empty |
| EventSink.OnlyCurrentSinkReceives | Kiosk/android/app/src/main/kotlin/com/secgo/kiosk/MainActivity.kt:26-32 | after `onListen(b)` every push is delivered to `b` and to no other sink, in order |
| EventSink.DroppedWhileEmpty | Kiosk/android/app/src/main/kotlin/com/secgo/kiosk/MainActivity.kt:122 | pushes made while the slot is empty are lost, and a later subscriber never receives them |
| Db.Init | Server/src/db.rs:15-35 | creates only missing tables, empty, and leaves existing rows intact; success means both tables exist |
| Db.InitIsIdempotent | Server/src/db.rs:16-33 | a second `init` changes nothing |
| Db.GetProduct | Server/src/db.rs:37-52 | an error exactly when the engine fails or the table is missing; None exactly when no row has the barcode; otherwise that row under its barcode |
| Db.UpsertProduct | Server/src/db.rs:54-61 | afterwards the barcode reads back with the product's name and price and the write time, ignoring the product's own timestamp; other barcodes and the QR table are unchanged |
| Db.LastUpsertWins | Server/src/db.rs:57 | a second upsert of the same barcode replaces the first |
| Db.GetPaymentQr | Server/src/db.rs:63-77 | None exactly on an empty table; otherwise a stored row |
| Db.UpsertPaymentQr | Server/src/db.rs:79-89 | on success the table holds exactly one row, with id "store_qr", the code's data and the write time, whatever the code's id; a failed insert leaves the table empty |
| Api.LookupExternalProduct | Server/src/api.rs:100-129 | a product only for a decoded reply with status 1 and a product object; the barcode is the one asked for, the name defaults to "Unknown Product", the price is 0 |
| Api.GetProductHandler | Server/src/api.rs:12-39 | local hit gives 200 with it; local error gives 500; on a miss, an external product gives 200 and is cached, otherwise 404 |
| Api.LocalHitIgnoresExternal | Server/src/api.rs:19-22 | on a local hit the external reply and the cache write make no difference, and the database is untouched |
| Api.LocalErrorIgnoresExternal | Server/src/api.rs:24 | a failed local read gives 500 whatever the external reply |
| Api.ExternalHitAnswersDespiteCacheFailure | Server/src/api.rs:29-35 | the external product is answered with 200 whether or not caching it succeeds |
| Api.ExternalHitIsCached | Server/src/api.rs:29-35 | after a successful cache write the next request is answered locally with the same product |
| Api.AddProductHandler | Server/src/api.rs:41-59 | the handler answers 200 exactly when the upsert succeeds, and then stores the upserted database and returns the payload's barcode, name and price; a failed write gives 500 and leaves the database alone |
| Api.AddThenGet | Server/src/api.rs:150-173 | a product added successfully is then returned by `get_product` with the same name and price |
| Api.GetPaymentQrHandler | Server/src/api.rs:61-68 | 200 with a stored code, 404 "QR code not set" exactly when the table is empty, 500 otherwise |
| Api.SetPaymentQrHandler | Server/src/api.rs:70-86 | the database is whatever the upsert leaves, even after a failure; the answer is 200 exactly when the upsert succeeds, otherwise 500; the stored and returned code always has id "store_qr" and the payload's data; products are untouched |
| Api.SetThenGetPaymentQr | Server/src/api.rs:75-83 | after a successful set the code is served with id "store_qr" and the payload's data |
| Api.NoQrBeforeSet | Server/src/api.rs:65 | a freshly initialised database answers the QR query with 404 |

## Left out

- Flutter channel registration, `BroadcastReceiver` registration and removal, `startActivity`, and the launcher methods (`openApp`, `openLauncherHome`, `listLaunchableApps`, `openNotificationListenerSettings`): these are platform glue with no decision logic.
- `isNotificationListenerEnabled`: reads `Settings.Secure`, so its result is the input `listenerEnabled`.
- org.json parsing and printing at the character level: JSON text has four abstract shapes, and a scalar text counts as `Malformed` because both readers reject it.
- SharedPreferences durability and the asynchronous `apply()`: the store is a synchronous record that is replaced whole.
- `sendBroadcast` delivery: `MainActivity.ReceiveAll` hands every broadcast to the receiver in order. Loss across processes and a receiver that is not registered are not modelled.
- `@Volatile` access to `eventSink` from two threads: the slot is one sequential state value.
- WeChat accessors and receiver fields (`KEY_*WECHAT*`): the listener never declares or writes these keys, so they are left out and so are the WeChat fields of the "state" push.
- ListenerService.UpdateState: reads `activeNotifications` four times, each a separate call into the system. The model reads it once, so it does not cover the array changing between reads.
- Selection.SortNewestFirst: is a stable insertion sort, matching `sortedByDescending`. Its contract states the order and the permutation but not stability.
- Selection.MaxFrom: keeps the first of several notifications with equal post time, as `maxByOrNull` does. The contract states maximality only.
- Reading a notification back (`Notifications.NotificationOf`) is a reference decoder. It has no counterpart in the kiosk, where Dart code outside this repository consumes the maps.
- The `reqwest` call, actix routing and start-up (`main.rs`), the `Mutex`, and the SQLite engine: the external reply is the input `Fetch`, and engine failures are the input `Io`.
- `Database::new` / `Connection::open`: opening a file is not modelled. `Db.Fresh` is a new, uninitialised database.
- Db.GetProduct: does not model row-decoding errors (`product?`). The schema's typed NOT NULL columns, written only by this code, rule them out.
- Prices are `f64` in the server and `real` here. They are only carried and compared, and NaN is not modelled.
- `models.rs` only declares record shapes, which `Models` mirrors.
