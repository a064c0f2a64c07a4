# Order–shipping reconciliation and catalogue utilities, in Dafny

This project models the deterministic core of a store back end. The store keeps order and product
records in a document database. Paid orders are pushed to the Shiprocket shipping provider. A periodic
sync, a webhook and several HTTP routes keep the stored orders in step with the provider.

The model covers the following.

- **Provider client** (`ShippingClient`, `Transform`, `TokenCache`):
  - the 240-hour bearer-token cache;
  - the order-to-payload mapping, with its two input shapes, `||` fall-backs and weight and sub-total sums;
  - required-field validation;
  - order-id extraction from the create reply;
  - AWB extraction from a snapshot whose shipments are a list or a single object;
  - the paginated listing, capped at 50 pages;
  - first-ranked courier assignment.
- **Reconciliation** (`Reconcile`, `AutoSync`, `SyncLifecycle`, `Webhook`):
  - the "write only what changed" rule;
  - one auto-sync pass, with per-order error isolation and import of provider orders missing locally;
  - the start/stop/frequency lifecycle;
  - webhook dispatch over seven event tags, and the exact fields each event writes.
- **Server routes** (`ServerRoutes`, `Payments`, `OrderStore`):
  - the payment-signature predicate over an abstract HMAC;
  - the save-order payment gate;
  - the idempotency guards before shipping creation;
  - the recovery fall-back chains;
  - the order store's create, status update and per-user listing;
  - the auto-sync endpoints.
- **Store helpers** (`ProductStore`, `Catalogue`, `Announcements`):
  - the fixed-window rate limiter;
  - product validation and readable-id generation with collision suffixes;
  - the announcement date window and priority order.
- **Catalogue utilities**:
  - the custom-id migration (`CustomIdMigration`);
  - the full migration, clearing and statistics (`ProductMigration`);
  - the migration helper (`MigrationHelper`);
  - the Firebase quota counter (`Quota`);
  - the browser-side product list (`LocalProductSync`);
  - the in-memory products route (`ProductsRoute`);
  - the stand-alone payment server (`RazorpayServer`).

Conventions:

- JavaScript truthiness is encoded once, in `Base`. Absent, null, `""` and `0` are falsy. An `a || b || c` chain is `Base.FirstTruthy`.
- A stored collection is a sequence of documents in collection order, with an id counter (`Orders.Store`). `Orders.Valid` says the document ids are distinct and below the counter.
- The provider, the payment gateway and the HMAC are function-typed parameters (oracles), and so are the few database reads whose failure the code reports. Store writes and collection queries always succeed; see "Left out".
- The clock is the parameter `now`.
- Shared helpers: the JavaScript string operations the code uses are in `Text`. Per-key counting on a plain object is in `Counting`. Sorting with a comparator is in `Sorting`.

## Model

| member | source | states |
|---|---|---|
| TokenCache.Authenticate | src/services/shiprocketService.js:14-40 | A usable cached token is returned with no login; otherwise a login happens. A successful login stores its token with expiry exactly now + 240 h. A failed login leaves the cache unchanged and is an error. |
| TokenCache.ReusedUntilExpiry | src/services/shiprocketService.js:16-18 | A token obtained by a login is handed out without a further login at every later time before now + 240 h. |
| TokenCache.NeverUsedPastExpiry | src/services/shiprocketService.js:16-18 | At or after the expiry the cached token is not reused; a login is attempted. |
| Transform.ResolveContact | src/services/shiprocketService.js:93-116 | With a nested `customerInfo.address`, every contact field comes from the nested object. Otherwise each comes from `billing*`, falling back to `customer*`. The country defaults to "India" in both branches. |
| Transform.MissingFields | src/services/shiprocketService.js:174-180 | The reported fields are a subsequence of the seven required fields in their fixed order. A field is reported exactly when its value is falsy. |
| Transform.MissingFieldsMember | src/services/shiprocketService.js:174-180 | A required field is reported missing exactly when the contact value it is checked on is falsy. |
| Transform.TransformValidation | src/services/shiprocketService.js:173-180 | The transform is refused exactly when one of the seven required billing values is falsy. A refusal lists exactly the missing fields. |
| Transform.TransformPayload | src/services/shiprocketService.js:119-169 | The shipping half equals the billing half. The weight is max(truthy weight or the item sum, 0.1). The sub-total is the truthy `subTotal` or the sum of price × quantity. The payment method is COD exactly for "COD"/"cod". The dimensions have non-zero defaults. |
| Transform.DefaultWeightPerItem | src/services/shiprocketService.js:119-121 | With no item declaring a weight, the parcel weighs 0.49 kg per item. |
| ShippingClient.Submit | src/services/shiprocketService.js:62-78 | The create call succeeds exactly when the reply carries a truthy `order_id` or `channel_order_id`, and then returns that id. |
| ShippingClient.CreateOrder | src/services/shiprocketService.js:50-85 | The login, when needed, comes first. A failed login or a refused transform sends no create request. A create request carries the transformed payload. Success implies a request was sent. |
| ShippingClient.ExtractAwbSources | src/services/shiprocketService.js:661-694 | The AWB, courier and tracking URL come from the first list shipment with a truthy AWB, or from a single shipment object. Failing that, they come from the order-level fields, then the last-mile fields. A falsy status or shipment status reads as null. |
| ShippingClient.FirstWithAwb | src/services/shiprocketService.js:662-670 | Returns the first shipment with a truthy AWB. None exactly when no shipment has one. |
| ShippingClient.GetOrderWithAwb | src/services/shiprocketService.js:641-706 | Fails exactly when the snapshot read fails; otherwise returns the extracted AWB view. |
| ShippingClient.ListAllOrders | src/services/shiprocketService.js:451-506 | The loop returns exactly the recursive reference `Collect`: pages concatenated in page order, stopping on the last page or at page 50. It fails exactly when a fetched page fails. |
| ShippingClient.ListingBounded | src/services/shiprocketService.js:460-498 | A listing never fetches more than 50 pages. |
| ShippingClient.CourierQuery | src/services/shiprocketService.js:566-601 | The serviceability query uses the configured pickup pincode or "110001", cod 0, the given delivery pincode, and the given truthy weight or 0.49. |
| ShippingClient.AutoAssignAwb | src/services/shiprocketService.js:602-640 | Fails when the courier list fails or is empty. Otherwise assigns with the first listed courier and returns its AWB and name. |
| Reconcile.Changed | src/services/autoSyncService.js:141-177 | A provider value is written exactly when it is truthy and differs from the stored one. |
| Reconcile.ApplyFields | src/services/autoSyncService.js:133-177 | Only the patched shipping fields and the two update stamps change. An AWB goes to both AWB fields. The provider link is kept. |
| Reconcile.Reconciled | src/services/webhookService.js:145-189 | Each reconciled field ends holding the provider value if truthy, else its old value. `awbCode` follows the AWB only when the AWB changed. |
| Reconcile.DiffConverges | src/services/autoSyncService.js:141-177 | A second reconciliation against the same provider view finds nothing to write. |
| Reconcile.NoChangeMeansInStep | src/services/autoSyncService.js:138-177 | No difference is found exactly when every truthy provider value is already stored. |
| SyncLifecycle.Stop | src/services/autoSyncService.js:34-48 | After stopping the service is not running. Stopping a stopped service is a no-op. Stopping clears the timer and keeps the frequency. |
| SyncLifecycle.GetStatus | src/services/autoSyncService.js:51-58 | `nextSyncIn` is null exactly when stopped. While running, `nextSyncIn` plus the time since the last sync equals the frequency. |
| SyncLifecycle.SetFrequency | src/services/autoSyncService.js:383-389 | Always records the frequency. A stopped service stays stopped and is otherwise unchanged. A running one is restarted. |
| SyncLifecycle.RunConsistent | src/services/autoSyncService.js:13-48 | Under any sequence of start/stop/frequency commands, the timer exists exactly while the service runs. |
| SyncLifecycle.StartIdempotent | src/services/autoSyncService.js:14-17 | A second start is the same as one start. |
| SyncLifecycle.StopAfterStart | src/services/autoSyncService.js:19-45 | Stopping undoes a start, except for the recorded frequency and sync time. |
| AutoSync.VisitOne | src/services/autoSyncService.js:126-184 | Visiting one order writes at most that document and keeps every other document and all ids. |
| AutoSync.VisitEffect | src/services/autoSyncService.js:126-184 | Each snapshot order ends with exactly its own outcome, so a failure on one does not affect the others. Documents outside the snapshot are untouched. The counters are the sum of per-order contributions. |
| AutoSync.ExistingOutcome | src/services/autoSyncService.js:141-177 | A snapshot failure is counted as an error. An order is rewritten, and counted as updated, exactly when reconciliation changes it. |
| AutoSync.SyncExisting | src/services/autoSyncService.js:105-192 | Every linked order becomes its reconciled version and every unlinked order is untouched. Ids and validity are kept. The counters are bounded by the number of linked orders. |
| AutoSync.AssignOutcome | src/services/autoSyncService.js:217-237 | An order without a destination pincode is untouched. A successful assignment writes both AWB fields, the courier and status AWB_ASSIGNED, and counts one assignment. A failed assignment counts one error. |
| AutoSync.AutoAssignMissing | src/services/autoSyncService.js:193-253 | Only linked orders without an AWB are visited; every other order is untouched. The counters are the per-order sum. |
| AutoSync.StatusOutcome | src/services/autoSyncService.js:279-290 | A status is written exactly when the provider status is truthy and differs from the stored one. It is not counted. |
| AutoSync.UpdateStatuses | src/services/autoSyncService.js:254-305 | Every linked order gets its status outcome and unlinked orders are untouched. No order is created. |
| AutoSync.TallyBounded | src/services/autoSyncService.js:126-184 | A pass counts each visited order at most once. |
| AutoSync.FreshOrders | src/services/autoSyncService.js:330-336 | Keeps exactly the provider orders whose key is not among the local `shiprocketOrderId`s. |
| AutoSync.ImportedRecord | src/services/autoSyncService.js:342-355 | An imported record has source shiprocket_sync, `shiprocketCreated` true, the provider key as link, status or "NEW", and the AWB in both fields. |
| AutoSync.SyncNewOrders | src/services/autoSyncService.js:306-376 | A failed listing, or a listed order with no key, adds nothing and counts one error. Otherwise exactly one record per unseen provider order is appended, in list order, and `ordersCreated` equals the number added. |
| AutoSync.SyncNewOrdersIdempotent | src/services/autoSyncService.js:322-358 | Running the import a second time against the same listing adds nothing. |
| AutoSync.ImportLinksAll | src/services/autoSyncService.js:322-358 | After an import every listed provider order is linked locally. |
| AutoSync.NothingToImport | src/services/autoSyncService.js:330-336 | When every listed key is already linked, the import leaves the store unchanged and counts nothing. |
| AutoSync.PerformSync | src/services/autoSyncService.js:61-102 | The four steps run in order. Stored documents keep their ids and positions, and exactly `ordersCreated` documents are appended. |
| AutoSync.RefreshPass | src/services/autoSyncService.js:74-81 | The three refresh steps add no document and create nothing. Each stored order stays linked to the same provider order, because none of them writes `shiprocketOrderId`. |
| AutoSync.ExistingKeepsLinks | src/services/autoSyncService.js:105-190 | Reconciling existing orders never changes which provider order a document is linked to. |
| AutoSync.AssignKeepsLinks | src/services/autoSyncService.js:193-251 | Assigning an AWB never changes which provider order a document is linked to. |
| AutoSync.StatusKeepsLinks | src/services/autoSyncService.js:254-303 | Updating statuses never changes which provider order a document is linked to. |
| AutoSync.PerformSyncImportsFresh | src/services/autoSyncService.js:61-102 | With a keyed listing, `ordersCreated` equals the number of listed orders whose key was not linked before the pass. |
| AutoSync.PerformSyncAppendsFresh | src/services/autoSyncService.js:339-357 | The k-th document appended by a pass is the import record of the k-th listed order that was not linked before the pass. |
| AutoSync.PerformSyncBadListing | src/services/autoSyncService.js:306-372 | A failed or unkeyed listing makes the pass create nothing. The stored documents are those left by the refresh steps. |
| AutoSync.SecondPassCreatesNothing | src/services/autoSyncService.js:61-102 | When every listed order has a non-empty key, a second pass against the same provider listing, at any later time, creates no order and adds no document. |
| Webhook.Route | src/services/webhookService.js:23-56 | Each of the seven known tags reaches the handler named by it. |
| Webhook.RouteIsExact | src/services/webhookService.js:23-56 | Routing is a bijection on the seven tags, and exactly the other tags are ignored. |
| Webhook.FindLinked | src/services/webhookService.js:71-77 | Finds the first document linked to the key. None exactly when no document is linked to it. |
| Webhook.ApplyChange | src/services/webhookService.js:205-414 | Each event writes exactly its own shipping fields and the stamps. The provider link is never touched. |
| Webhook.WriteFirst | src/services/webhookService.js:214-229 | The first linked document gets the change and every other document stays. With no linked document nothing is written. |
| Webhook.WriteFirstKeepsLinks | src/services/webhookService.js:214-229 | A handler's write never changes which document any key finds. |
| Webhook.WebhookRecord | src/services/webhookService.js:89-106 | A created record has source shiprocket_webhook, the key as link, the order id or key, status or "NEW", and the AWB in both fields. |
| Webhook.HandleCreated | src/services/webhookService.js:65-116 | Without `order_id || channel_order_id` it is an error. An already linked key adds nothing. Otherwise one record is added. |
| Webhook.CreatedIdempotent | src/services/webhookService.js:69-84 | Redelivering an order.created event adds nothing. |
| Webhook.HandleUpdated | src/services/webhookService.js:117-198 | An unknown order is delegated to creation. A known order gets only the truthy, differing fields, and nothing is written when nothing differs. |
| Webhook.UpdatedConverges | src/services/webhookService.js:133-189 | A second delivery of the same order.updated event writes nothing. |
| Webhook.HandleAwbAssigned | src/services/webhookService.js:199-240 | Succeeds exactly with a truthy `order_id` and `awb_code`. It then writes both AWB fields, the courier or null, and status AWB_ASSIGNED to the first linked order. |
| Webhook.HandleWithId | src/services/webhookService.js:241-417 | The id-keyed handlers require a truthy `order_id` and write their change to the first linked order. |
| Webhook.TerminalEvents | src/services/webhookService.js:309-355 | Delivered sets both statuses to DELIVERED. Failed sets both to FAILED with the reason defaulting to "Shipment failed". |
| Webhook.UnknownOrderUntouched | src/services/webhookService.js:214-217 | With no linked order, the AWB, dispatch, delivered, failed and tracking handlers write nothing. |
| Webhook.ProcessWebhook | src/services/webhookService.js:17-64 | An unknown tag succeeds without a write. A known tag succeeds exactly when its handler does. On success the store is the one the handler wrote, and on failure the handler's message is passed on; for awb_assigned and the id-keyed events the message and the write are stated outright. |
| ServerRoutes.GetShiprocketOrderId | src/server.js:73-78 | Null without a result or `data`. Otherwise the truthy `order_id`, else the truthy `channel_order_id`, else null. |
| ServerRoutes.RouteIdMatchesClient | src/server.js:73-78 | The route's id extraction agrees with the provider client's own extraction of the create reply. |
| ServerRoutes.CreateGatewayOrder | src/server.js:417-466 | A missing or non-positive amount, or a missing receipt, is 400 before any gateway call. Otherwise the gateway gets the amount, receipt, currency (default INR) and notes (default empty); 200 on success, 500 on failure. |
| ServerRoutes.VerifyPayment | src/server.js:469-506 | Verified exactly when the signature equals the HMAC of `orderId|paymentId` under the secret; 200 then, 400 otherwise. |
| Payments.VerifyPayment | src/server.js:476-498 | Verified exactly for the expected HMAC digest; the status is 200 when verified and 400 otherwise. |
| Payments.GatewayCallOf | src/server.js:444-449 | The gateway call keeps amount and receipt, defaults the currency to INR and the notes to empty. |
| Payments.SignedMessageSeparates | src/server.js:476 | The signed message `a|b` determines both ids when the order id has no bar. |
| ServerRoutes.OrderStatusEndpoint | src/server.js:243-250 | 200 exactly when the order exists. A missing order is 400 with nothing written. A given status is written with the stamp. No other document changes. |
| ServerRoutes.SaveOrder | src/server.js:509-633 | A razorpay `pay_test` payment skips verification. A missing payment id or signature is 400 with nothing saved. A signature mismatch is only tolerated. After the store write the reply is success even if shipping creation fails. Status confirmed and the shipping id are written only when creation returned an id. |
| ServerRoutes.SaveConfirmed | src/server.js:572-593 | The saved record is the order with status confirmed, both stamps, the shipping id and provider status created, appended under a fresh id. |
| ServerRoutes.SaveTwiceStoresTwice | src/server.js:572-579 | Saving the same order twice stores two records and sends it to the provider twice; there is no duplicate guard. |
| ServerRoutes.SaveIgnoresSignature | src/server.js:528-570 | The outcome of a save does not depend on the HMAC: a signature mismatch is only logged. |
| ServerRoutes.FindOrder | src/server.js:708-738 | Finds the first document with the order id, optionally only among linked ones. None exactly when there is no such document. |
| ServerRoutes.AutoCreatePayload | src/server.js:751-777 | The payload's contact fields come from `customerInfo` with literal defaults. The items are mapped with name, SKU, units and price defaults. The payment method is COD only for the cod method, and the weight is 0.49. |
| ServerRoutes.AutoCreate | src/server.js:694-813 | Missing input is 400 and an unknown order 404. An already linked order returns its id with no create. An order without a usable `createdAt \|\| timestamp` date answers 500 before the provider is called. Otherwise the provider is called, and a success links the order. Ids and validity are kept. |
| ServerRoutes.AutoCreateIdempotent | src/server.js:698-745 | A second auto-create for the same order sends nothing and returns the linked id. |
| ServerRoutes.RecoverPayload | src/server.js:1688-1706 | Every required recovery field is truthy by its fall-back chain: pincode "110001", phone default, notes default. Only the email can still be missing. |
| ServerRoutes.RecoverPayloadOnlyLacksEmail | src/server.js:1688-1706 | The transform of a recovery payload can report at most the email as missing. |
| ServerRoutes.RecoverPlanOf | src/server.js:1652-1685 | A missing id is 400 and an unknown order 404. An order already linked returns its id. Otherwise a payload is sent. |
| ServerRoutes.RecoverAsWritten | src/server.js:1650-1753 | As written: when a payload is sent, the store is never updated and the reply is 500. |
| ServerRoutes.RecoverAsWrittenRepeatsCreation | src/server.js:1715-1737 | As written, a second recovery of the same order sends the payload to the provider again. |
| ServerRoutes.RecoverAsWrittenExample | src/server.js:1726 | A concrete order for which the as-written recovery creates a provider order and then answers 500. |
| ServerRoutes.Recover | src/server.js:1715-1737 | The intended recovery: a successful creation links the found order with the returned id. Ids and validity are kept. |
| ServerRoutes.RecoverIdempotent | src/server.js:1679-1685 | After a successful recovery a second one sends nothing. |
| ServerRoutes.RecoverLinksFound | src/server.js:1715-1737 | A successful recovery writes the new id to the found document and to no other. |
| ServerRoutes.StartEndpoint | src/server.js:1163-1183 | The service ends running. A stopped one starts with the given minutes, possibly fractional, or 5, in milliseconds. A running one is unchanged. |
| ServerRoutes.FrequencyEndpoint | src/server.js:1242-1269 | A missing value or one below 1 is 400 with nothing changed. Otherwise 200, and the stored frequency is minutes × 60000, fractional minutes included. |
| ServerRoutes.WebhookEndpoint | src/server.js:1272-1304 | 200 exactly when processing succeeds, and then the store is the one processing wrote. On 500 the store is unchanged. |
| ServerRoutes.WebhookIgnoresSignature | src/server.js:1275-1281 | The placeholder check in src/services/webhookService.js:10-14 accepts everything. So the endpoint never answers 401, and its outcome does not depend on the signature header. |
| OrderStore.CreateOrder | src/services/firestore.js:192-206 | The new record is appended under a fresh id with status pending and both stamps, whatever status the input had. Every other lookup is unchanged. |
| OrderStore.CreateOrderIgnoresStatus | src/services/firestore.js:195-200 | Two inputs differing only in status are stored identically. |
| OrderStore.StatusTextIsStatusPatch | src/services/firestore.js:274-276 | Updating with a bare status string has the same effect as updating with an object that holds only that status. |
| OrderStore.UpdateOrderStatus | src/services/firestore.js:269-291 | Succeeds exactly when the document exists. Then only that document changes, to the patch applied with `updatedAt` now; absent keys are not written. |
| OrderStore.ApplyPatchIdempotent | src/services/firestore.js:274-285 | Applying the same update twice is the same as applying it once. |
| OrderStore.MergeById | src/services/firestore.js:231-251 | The merge holds each document id once. It contains exactly the documents of the four query results, and earlier entries are kept. |
| OrderStore.NewerOrSameIsPreorder | src/services/firestore.js:253-257 | The newest-first order on `createdAt \|\| timestamp`, undated orders last, is a total preorder. |
| OrderStore.GetUserOrders | src/services/firestore.js:208-267 | Exactly the stored orders owned through `userId`, `customerInfo.email`, `customerEmail` or `loggedInUserEmail`, each once, newest first and undated orders last. |
| ProductStore.CheckRateLimit | src/services/firestore.js:31-49 | More than 60000 ms after the window start a new window opens. At 10 admitted requests further requests are refused without counting. |
| ProductStore.AtMostLimitPerWindow | src/services/firestore.js:31-49 | Within one window at most 10 requests are admitted. |
| ProductStore.GetProducts | src/services/firestore.js:52-90 | When rate-limited or when the read fails the list is empty. Otherwise each document is listed with its document id as id and its stored id as `customId`. |
| ProductStore.SaveUserList | src/services/firestore.js:309-382 | A rate-limited cart or wishlist save drops the write. Otherwise the user's list is replaced and no other user's list changes. |
| ProductStore.SaveThenGet | src/services/firestore.js:309-382 | An admitted save reads back as saved; a refused one leaves the earlier list readable. |
| ProductStore.AddProduct | src/services/firestore.js:107-149 | A missing name, description or price, or a non-positive price, is refused. An id is the supplied one or a generated id absent from the store. The product is written with both stamps, and no other product changes. |
| ProductStore.AddWithoutIdKeepsAll | src/services/firestore.js:117-131 | A product added without an id never overwrites a stored one. |
| Catalogue.CategoryPrefix | src/services/firestore.js:119-121 | The prefix is the first three characters of the category, or of `general` for a missing one, upper-cased. So it has at most three characters, none a lower-case ASCII letter, and is GEN for a missing category. |
| Catalogue.BaseId | src/services/firestore.js:119-123 | The base id is the prefix, a dash and a short upper-case suffix, at most 8 characters. |
| Catalogue.BaseIdSuffix | src/services/firestore.js:118-123 | The suffix is the first two characters of each of the name's first two lower-cased words, upper-cased. |
| Catalogue.CandidateInjective | src/services/firestore.js:125-129 | Different collision counters give different candidate ids. |
| Catalogue.FreeId | src/services/firestore.js:124-130 | The generated id is never taken. It is the base id when that is free and otherwise starts with `base-`. |
| Catalogue.FreeIdIsFirstFree | src/services/firestore.js:125-129 | The generated id is the first free candidate in counter order. |
| Catalogue.GenerateId | src/services/firestore.js:117-131 | A generated product id never collides with a taken one. |
| Text.Pad3RoundTrip | src/services/firestore.js:128 | The three-digit zero padding reads back as the counter. |
| Text.JoinSplit | src/services/shiprocketService.js:133 | Joining the split words with the separator gives back the string. |
| Text.AfterFirstWordIsSuffix | src/services/shiprocketService.js:133 | The last name is the text after the first space, or empty when there is none. |
| Announcements.InWindow | src/services/firestore.js:515-547 | Kept exactly when not before its start and not after its end; one with no dates is kept. |
| Announcements.WindowEdges | src/services/firestore.js:535-543 | An announcement without dates is listed, and one past its end is not. |
| Announcements.CompareAsWritten | src/services/firestore.js:549-553 | As written: different raw priorities compare by priority or 1, descending; otherwise by `createdAt`, newest first. |
| Announcements.CompareAsWrittenInconsistent | src/services/firestore.js:549-553 | Three announcements for which the as-written comparator is not a consistent order. |
| Announcements.RanksBeforeIsPreorder | src/services/firestore.js:549-553 | The corrected order (priority or 1 descending, then `createdAt` descending) is a total preorder. |
| Announcements.RanksBeforeRefinesComparator | src/services/firestore.js:549-553 | Whenever the as-written comparator strictly orders two announcements, the corrected order agrees. |
| Announcements.GetActiveAnnouncements | src/services/firestore.js:506-559 | Exactly the active, in-window announcements, each at most as often as stored, in the corrected order. |
| Announcements.FilterDated | src/services/firestore.js:486 | The `orderBy('createdAt')` query returns exactly the announcements that have a `createdAt`. |
| Announcements.GetAnnouncements | src/services/firestore.js:484-504 | Exactly the dated announcements, none more often than stored, in the corrected order. |
| CustomIdMigration.Step | src/utils/migrateToCustomIds.js:21-67 | A product without a name fails. On success the new id is the generated one and not taken, and the product is stored under it. A failure removes no document. Because the add comes before the delete, a failed delete leaves both the new and the old document. |
| CustomIdMigration.CountsPartition | src/utils/migrateToCustomIds.js:74-78 | Successes plus failures is the number of results. |
| CustomIdMigration.MigrateToCustomIds | src/utils/migrateToCustomIds.js:4-92 | `total` is the input length. `successful + failed` is the number of products not skipped. New ids are pairwise distinct, and every added key has a dash. |
| CustomIdMigration.MigrationOverwritesExisting | src/utils/migrateToCustomIds.js:30-45 | As written, a migrated product can be written over an existing product whose custom id equals its generated id. |
| CustomIdMigration.MigrateToCustomIdsChecked | src/utils/migrateToCustomIds.js:30-36 | The corrected migration also checks the stored ids, so it never overwrites a stored product. |
| ProductMigration.MigrateAllProducts | src/utils/completeProductMigration.js:834-896 | One result per catalogue entry: added + skipped + failed = total. Existing ids are skipped. |
| ProductMigration.OutcomesPartition | src/utils/completeProductMigration.js:851-884 | Every entry falls in exactly one of added, skipped and failed. |
| ProductMigration.WrittenMatchesAdded | src/utils/completeProductMigration.js:860-877 | The products written are exactly those reported added. |
| ProductMigration.ExistingNeverRewritten | src/utils/completeProductMigration.js:854-859 | A catalogue entry whose id is stored anywhere is skipped and never re-added. |
| ProductMigration.ClearAllProducts | src/utils/completeProductMigration.js:898-938 | An empty catalogue answers "No products found". `deletedCount` never exceeds the number listed, and equals it exactly when every delete succeeds. |
| ProductMigration.BucketOf | src/utils/completeProductMigration.js:966-969 | Each price falls in exactly one of the four buckets. |
| ProductMigration.TallyOf | src/utils/completeProductMigration.js:963-973 | The bucket counts sum to the total, and inStock + outOfStock = total. |
| ProductMigration.BucketCounts | src/utils/completeProductMigration.js:966-969 | Each bucket's count is the number of products whose price falls in it. |
| ProductMigration.Round | src/utils/completeProductMigration.js:981 | The rounded value is within half of the input. |
| ProductMigration.GetProductStats | src/utils/completeProductMigration.js:940-985 | The category counts are the per-category occurrences and sum to the total. The average is 0 for an empty catalogue. |
| MigrationHelper.CheckMigrationStatus | src/utils/migrationHelper.js:4-34 | `totalProducts` is the list length, `hasProducts` = `migrationComplete` = (length > 0), and the category counts sum to the total. A failed read is an error status. |
| MigrationHelper.UncategorisedCountedAsUnknown | src/utils/migrationHelper.js:17-20 | A product without a category is counted under unknown. |
| MigrationHelper.FindProduct | src/utils/migrationHelper.js:37-53 | Found exactly when some product has the id; the product returned is the first match. |
| MigrationHelper.GetAllProductIds | src/utils/migrationHelper.js:56-66 | The ids keep the order and length of the product list. |
| MigrationHelper.ListedIdsAreFound | src/utils/migrationHelper.js:37-66 | Every listed id is found. |
| Counting.BumpCountOf | src/utils/migrationHelper.js:19 | One more occurrence of a key adds one to that key's count and leaves every other key's count as it was. |
| Counting.BumpKeys | src/utils/completeProductMigration.js:963 | A key seen before keeps its bucket in place. A new key gets a bucket at the end, the order in which an object lists keys that are not integer-like. |
| Counting.CountBy | src/utils/completeProductMigration.js:961-964 | Each key's count is its number of occurrences. Keys are distinct, counts are positive and they sum to the number of keys. |
| Quota.UpdateQuotaStatus | src/utils/hybridFirebaseManager.js:39-47 | Exceeding disables Firebase. Clearing the flag does not re-enable it. |
| Quota.IncrementRequestCount | src/utils/hybridFirebaseManager.js:50-66 | After the window the count restarts; the request is always counted. At or above the limit it only warns. |
| Quota.CounterNeverRefuses | src/utils/hybridFirebaseManager.js:50-66 | The counter counts every request, past the limit too. |
| Quota.CountsWithinWindow | src/utils/hybridFirebaseManager.js:50-66 | Within one window the count grows by exactly the number of requests. |
| Quota.OverrunNeedsReset | src/utils/hybridFirebaseManager.js:25-47 | Once an overrun is reported, `shouldUseFirebase` answers false until a reset or a forced enable. |
| Quota.ResetQuotaStatus | src/utils/hybridFirebaseManager.js:190-196 | Enabled, not exceeded, count 0. |
| Quota.ForceEnableFirebase | src/utils/hybridFirebaseManager.js:199-204 | Enabled, local fallback off, not exceeded. |
| LocalProductSync.OverlayLaws | src/utils/localProductSync.js:31-38 | An empty update is the identity, and applying an update twice is applying it once. |
| LocalProductSync.UpdateProduct | src/utils/localProductSync.js:29-51 | Only products with the id change, to the update merged with `updatedAt` now. Length and all other positions are kept. |
| LocalProductSync.AddProduct | src/utils/localProductSync.js:54-78 | Appends exactly one product, keeping the supplied id or using a temp_ id. |
| LocalProductSync.DeleteProduct | src/utils/localProductSync.js:81-98 | Removes every product with the id and keeps the rest. |
| LocalProductSync.DeleteKeepsOrder | src/utils/localProductSync.js:83-85 | Deletion keeps the relative order of the remaining products. |
| LocalProductSync.AddThenDelete | src/utils/localProductSync.js:56-85 | Deleting a just-added product by its id leaves the same list as deleting that id before the add. |
| LocalProductSync.DeleteAbsent | src/utils/localProductSync.js:80-85 | Deleting an id that no product has leaves the list unchanged. |
| LocalProductSync.AddFreshThenDelete | src/utils/localProductSync.js:56-85 | Deleting a just-added product whose id was new restores the list. |
| LocalProductSync.GetProductById | src/utils/localProductSync.js:101-109 | The first product with the id, or null. |
| LocalProductSync.GetProductsByCategory | src/utils/localProductSync.js:112-122 | Exactly the products whose truthy category matches, ignoring case, each as many times as it is stored. |
| LocalProductSync.ByCategoryAppend | src/utils/localProductSync.js:115-117 | The filter keeps list order: filtering two lists joined is joining the filtered lists. |
| LocalProductSync.CategoryIgnoresCase | src/utils/localProductSync.js:115-117 | Querying with a differently cased category gives the same list. |
| LocalProductSync.LastUpdatedOf | src/utils/localProductSync.js:139-143 | Null for an empty list. Otherwise no product's `updatedAt || createdAt` is later than the result, and the result is one of them. |
| LocalProductSync.GetSyncStatus | src/utils/localProductSync.js:137-156 | The count is the list length. `lastUpdated` is null for an empty list and NaN exactly when some product has no stamp; otherwise it is the largest stamp, attained by some product. |
| ProductsRoute.GetById | src/routes/products.js:10-14 | The first item with the id, or not found. |
| ProductsRoute.NewItem | src/routes/products.js:21-28 | Price 0 when falsy, images empty when absent, type generic, and stock kept when given, including 0. |
| ProductsRoute.Create | src/routes/products.js:17-31 | Without a name: 400 and the list unchanged. Otherwise: 201 and exactly one item appended. |
| ProductsRoute.ZeroStockKept | src/routes/products.js:27 | An explicit stock of 0 is kept. |
| ProductsRoute.CreatedIsFound | src/routes/products.js:10-31 | A created item is found by its id unless an earlier item has it. |
| RazorpayServer.CreateOrder | razorpay-server.js:25-47 | The gateway call has INR and empty notes as defaults. 200 on success, 500 on failure. |
| RazorpayServer.NoAmountCheck | razorpay-server.js:31-36 | An amount of 0, refused by the main server, is forwarded to the gateway here. |
| RazorpayServer.VerifyPayment | razorpay-server.js:50-87 | Verified exactly for the HMAC of `orderId|paymentId`; a mismatch is 400 with verified false. |
| RazorpayServer.SaveOrder | razorpay-server.js:90-143 | A save appends one order to the stored list, or to an empty list when the file is unreadable, and removes nothing. A failed write is 500 with the file unchanged. |
| RazorpayServer.SameMillisecondSameId | razorpay-server.js:114-116 | Two orders saved in the same millisecond get the same id. |

## Left out

- I/O is not modelled: the database, HTTP, axios, the payment SDK, file reads and writes. These become oracles or `Option` reads. Timers (`setInterval`), retries, logging, `localStorage` and window events are omitted.
- HMAC-SHA256 (RFC 2104, FIPS 180-4) is an uninterpreted function. Only the signed message and the comparison are modelled.
- JavaScript `null` and `undefined` are both `None`. Because of that, a spread update that sets a key explicitly to `undefined` is not distinguished from one that omits it.
- Dates are `Option<int>` milliseconds. A date of exactly 0 is not treated as falsy, and date parsing and formatting (`order_date`, `toDate`) are omitted.
- Prices are `real`. A price given as a string is not representable, so the `typeof` check of `addProduct` is modelled only through the positive-number test.
- Firestore's `!= null` / `== null` query semantics on absent fields are not modelled. A linked order is one whose `shiprocketOrderId` is present.
- Sorting.Sort: stability is not proved; only sortedness and permutation are.
- Announcements.GetActiveAnnouncements: uses the corrected order, not the as-written comparator. An announcement without `createdAt` is placed last among equal priorities.
- Announcements.GetAnnouncements: uses the corrected order, not the as-written comparator. A stored `createdAt` of null is treated as absent, although Firestore's `orderBy` keeps null values.
- Store writes (`add`, `update`, `set`) and collection queries always succeed. Not modelled: the per-order error count for a failed write in the sync steps (src/services/autoSyncService.js:180-183, 241-244, 293-296, 361-364), the whole-step error count for a failed query (186-189, 247-250, 299-302), and the 500 answers for a write that throws in the webhook handlers and the routes.
- Text.Upper and Text.Lower map ASCII letters only, and strings are sequences of Unicode scalar values, not UTF-16 code units. JavaScript's `toUpperCase` also maps other letters, sometimes to several characters (`'ß'` becomes `"SS"`), and `substring` counts code units.
- Catalogue.CategoryPrefix: matches the source only for ASCII categories, because of the case mapping and indexing above.
- Catalogue.BaseId: matches the source only for ASCII names and categories, for the same reason.
- LocalProductSync.GetProductsByCategory: compares categories with ASCII-only lower-casing, so two categories that differ only in a non-ASCII letter's case are not matched.
- OrderStore.NewerOrSameIsPreorder: an order with neither `createdAt` nor `timestamp` is placed last. In the source its date is NaN, every comparison with it is NaN, and where the engine puts it is implementation-defined.
- OrderStore.GetUserOrders: places undated orders last, for the reason just given.
- ServerRoutes.AutoCreate: the `createdAt.toDate` branch for a Firestore timestamp is not distinguished from a number of milliseconds.
- Counting.BumpKeys: integer-like keys, which a JavaScript object lists first in ascending numeric order, are kept in insertion order like every other key.
- LocalProductSync.GetSyncStatus: `cacheSize` and `isOnline` are not modelled; they read browser state.
- The deprecated `getLocalProducts` and `syncAllToFirebase` and the hybrid manager's `getStatus` are not modelled: they return constants or only log.
- The hybrid manager's store wrappers are not modelled. Each only counts the request with `Quota.IncrementRequestCount`, then calls the store.
- Quota.IncrementRequestCount: the limit of 50 only produces a warning flag, as in the source.
- The health endpoints are not modelled, and neither are the routes outside the core: create-shiprocket, the razorpay webhook, update-shiprocket, sync-to-shiprocket, update-all-orders, sync-order, create-real-order and upload.
- The GET routes for orders, carts, wishlists and announcements are not modelled separately; they return the store functions above unchanged.
- The client database module's `addProductWithId`, `deleteProduct` and `getProducts` are not part of this model. The migrations take them as oracles or maps.
- ProductMigration.GetProductStats: an average over a NaN sum is `None`, not modelled as NaN arithmetic.
- The `ALL_PRODUCTS` literal is not modelled: the catalogue is an abstract list.

## Findings

| source | as written | input that shows it | evidently intended | confidence | as-written member | corrected member |
|---|---|---|---|---|---|---|
| src/server.js:1726 | On the success path the recovery route writes with `admin.firestore.FieldValue`, but only `db` is imported. The write throws, and the route answers 500 after the provider order was created. | An order with no shipping link, and a provider create that succeeds. | Link the found order with the new id and answer success, so a repeat does not create again. | high, not executed | ServerRoutes.RecoverAsWritten, ServerRoutes.RecoverAsWrittenRepeatsCreation | ServerRoutes.Recover, ServerRoutes.RecoverIdempotent |
| src/services/firestore.js:549-553 | The announcement comparator compares raw priorities for inequality but subtracts `priority \|\| 1`, so a missing priority and priority 1 compare equal on rank yet take the `createdAt` branch only sometimes. The comparator is not a consistent order. | a: no priority, created 5; b: priority 1, created 10; c: no priority, created 1. cmp(a,b) = 0 and cmp(b,c) = 0, but cmp(a,c) < 0. | Order by `priority \|\| 1` descending, then `createdAt` descending. | medium, not executed | Announcements.CompareAsWrittenInconsistent | Announcements.RanksBefore, Announcements.RanksBeforeIsPreorder |
| src/utils/migrateToCustomIds.js:30-45 | The collision loop checks only the ids produced earlier in the same run, not the stored ids. A generated id equal to an existing product's custom id overwrites that product. | A stored product with id "GEN-AB", and a product with an automatic id, name "ab" and no category. | Check the stored ids as well, as `addProduct` does, so no stored product is overwritten. | medium, not executed | CustomIdMigration.MigrationOverwritesExisting | CustomIdMigration.MigrateToCustomIdsChecked |
