# Multi-tenant subscription backend — a Dafny model

The system is a small multi-tenant subscription backend. Users own tenants. A
tenant buys a subscription through an external payment provider, and the
provider's webhooks keep the local records in step. All state lives in three
JSON collections: users, tenants and subscriptions. An ordered record store
reads and writes them with linear scans (`backend/dataHelpers.js`). The HTTP
handlers in `backend/server.js` sit on top of that store.

This project models that core as pure functions over an immutable `Store` of
three sequences of flat records, and proves what the code does:

- **Json** (`json.dfy`): flat records, where a missing key stands for
  `undefined`. It models JavaScript truthiness and the shallow spread merge
  `{ ...a, ...b }`.
- **Decimal** (`decimal.dfy`): the decimal rendering of `Date.now()` used in
  generated ids. Its round trip and its injectivity are proved.
- **Records** (`records.dfy`): the scan primitives behind the accessors.
  - `find`, `findIndex` and `filter` are checked against independent
    first-match and order-preserving-selection specifications.
  - The find-index-and-merge update is shared by `updateTenant` and
    `updateSubscription`.
- **DataHelpers** (`data_helpers.dfy`): the accessors over the three
  collections.
  - Lookups return the first match and listings preserve store order.
  - Creates append `{ id: <prefix>_<millis>, ...data, ...stamps }`.
  - Updates merge into the first record with the id, or return `null` and
    write nothing.
- **Http** (`http.dfy`): a handler outcome, meaning the store left behind plus
  a 200 body or an error status with its message.
- **Webhook** (`webhook.dfy`): the provider webhook dispatch.
  - A rejected signature gets 400.
  - A completed checkout records a local subscription.
  - Subscription-updated and subscription-deleted events merge into the local
    subscription found by provider id. Both use the same two-step lookup as the
    source (first by `stripeSubscriptionId`, then by that record's `id`).
  - Any other event type is acknowledged and ignored.
  - An exception in an arm gets 500 and writes nothing.
- **Routes** (`routes.dfy`): the handlers that read or write the store.
  - `authenticateUser` and login.
  - Listing and creating a user's tenants.
  - A tenant's active subscription.
  - Starting a checkout.
  - The cancel, reactivate, upgrade and downgrade actions on a subscription.

Provider calls are parameters of the model, standing in for their answers:
- a retrieved subscription, or `None` when the call fails;
- a bool for "the provider accepted the change";
- the outcome of customer and session creation;
- the outcome of signature verification.

The clock is a parameter too: a millisecond counter for ids and an ISO string
for timestamps.

Strict equality `r.k === v` is equality of `Option<Value>`, so
`undefined === undefined` holds, as in JavaScript. A lookup for an
`undefined` key therefore matches records that lack the property.

Notes on what the code does:

- **Login errors.** Login without an email or a password answers 400
  "Email and password required". Wrong credentials answer 401 "Invalid
  credentials".
- **Tenant listing.** Listing a user's tenants needs only *some* truthy user
  id, from the `userId` header or the path, that names an existing user. It
  lists the tenants of the *path's* user. Node lowercases incoming header
  names, so in practice `req.headers.userId` is always undefined and the path
  parameter decides. The model keeps the header as an optional input.
- **Deletion idempotence.** The deleted-event patch stamps `canceledAt` with
  the current time. Replaying the event gives the same end state only when
  both deliveries read the same clock (`Webhook.RedeliveryIdempotent`). A
  later replay re-stamps `canceledAt`.
- **Record targeted by update and delete events.** These events update the
  subscription found in two steps. The handler first finds the first record
  whose `stripeSubscriptionId` matches. It then finds the first record whose
  `id` equals that record's `id` (`updateSubscription(localSub.id, …)`).
  - When two local ids coincide, the update lands on the earlier record, not
    on the one with the provider id (`Webhook.CollidingIdsRedirectUpdate`).
    Ids coincide when two creates read the same millisecond.
  - With distinct ids, the first record with the provider id is updated
    (`Webhook.SyncTargetsProviderMatch`).
- **Write failures.** `writeJsonFile` returns `false` on failure and no
  caller looks at it.

## Model

| member | source | states |
|---|---|---|
| Json.Merge | backend/dataHelpers.js:65 | the spread merge has the keys of both sides; patch keys take the patch's value and all other keys keep the base's value |
| Json.MergeIdempotent | backend/dataHelpers.js:91 | merging the same patch twice equals merging it once, and merging an empty patch changes nothing |
| Json.MergeOverridden | backend/dataHelpers.js:91 | a second merge whose patch covers every key of the first patch gives what the second merge alone gives |
| DataHelpers.GeneratedIdParses | backend/dataHelpers.js:36 | a generated id is the prefix, an underscore and decimal digits that read back as the millisecond count |
| Decimal.FromNat | backend/dataHelpers.js:36 | the rendered millisecond count is a non-empty run of digits with no leading zero except for 0 itself |
| Decimal.RoundTrip | backend/dataHelpers.js:52 | parsing the rendered number gives back the number |
| Decimal.Injective | backend/dataHelpers.js:79 | two millisecond counts render the same text exactly when they are equal |
| Records.IndexOf | backend/dataHelpers.js:63 | `findIndex` gives none exactly when no record has the key value, and otherwise the least matching position |
| Records.Find | backend/dataHelpers.js:31 | `find` gives none exactly when no record matches, and otherwise the record at the least matching position |
| Records.FilterBy | backend/dataHelpers.js:47 | `filter` is never longer than the collection and every record it returns passes the test |
| Records.FilterBySelected | backend/dataHelpers.js:47 | `filter` gives exactly the matching records, each once, in store order (an increasing index sequence covers the matching positions) |
| Records.SelectedUnique | backend/dataHelpers.js:74 | the selection specification determines the result: two lists that both satisfy it are equal |
| Records.FilterAppend | backend/dataHelpers.js:74 | filtering a concatenation is the concatenation of the filtered parts |
| Records.FindAfterAppend | backend/dataHelpers.js:32-43 | after appending a record, lookup finds the earlier first match if there was one, otherwise the new record if it matches |
| Records.FindWithinFilter | backend/server.js:181-182 | the first `active` subscription among a tenant's subscriptions is the first record that matches both the tenant and `active`, and there is none exactly when no record matches both |
| Records.UpdateById | backend/dataHelpers.js:61-70 | with no record with the id, the collection is unchanged and the result is `null`; otherwise only the first record with the id is replaced by its merge with the patch, that merged record is returned, and the length is kept |
| Records.UpdateIdempotent | backend/dataHelpers.js:87-96 | applying the same update twice gives the same collection and result as once, when the patch keeps the id |
| Records.UpdateOverridden | backend/dataHelpers.js:87-96 | two updates of the same id, where the second patch covers every key of the first and the first leaves `id` alone, leave the collection the second update alone leaves |
| Records.UpdateUnchanged | backend/dataHelpers.js:87-96 | an update whose patch only repeats values the first record with the id already holds leaves the collection as it was |
| Records.UpdateEmptyPatch | backend/dataHelpers.js:91 | an update with an empty patch writes back the collection unchanged |
| Records.FirstIndexAfterMerge | backend/dataHelpers.js:89-91 | a merge that does not touch a key does not change which record is first to match on that key |
| DataHelpers.GeneratedIdInjective | backend/dataHelpers.js:52 | two ids generated with the same prefix are equal exactly when they were generated in the same millisecond |
| DataHelpers.Stamp | backend/dataHelpers.js:51-56 | a created record has the generated id, the data's keys and the trailing stamps; stamps override the data and the data overrides the generated id |
| DataHelpers.GetUserById | backend/dataHelpers.js:31 | returns the first user whose `id` equals the argument, or none |
| DataHelpers.GetUserByEmail | backend/dataHelpers.js:32 | returns the first user whose `email` equals the argument, or none |
| DataHelpers.CreateUser | backend/dataHelpers.js:33-43 | appends exactly one user and changes nothing else; its keys are the data's plus `id` and `createdAt`, with the clock's time stamp and the data's `id` or a `user_<millis>` id |
| DataHelpers.GetTenantsByUserId | backend/dataHelpers.js:47 | returns exactly the tenants whose `userId` equals the argument, in store order |
| DataHelpers.GetTenantById | backend/dataHelpers.js:48 | returns the first tenant whose `id` equals the argument, or none |
| DataHelpers.CreateTenant | backend/dataHelpers.js:49-60 | appends exactly one tenant with the data's keys plus `id`, `createdAt` and `stripeCustomerId`; the customer id is `null` whatever the data says |
| DataHelpers.UpdateTenant | backend/dataHelpers.js:61-70 | merges the patch into the first tenant with the id and changes nothing else, or returns `null` and writes nothing; users and subscriptions are untouched |
| DataHelpers.GetSubscriptionsByTenantId | backend/dataHelpers.js:74 | returns exactly the subscriptions whose `tenantId` equals the argument, in store order |
| DataHelpers.GetSubscriptionById | backend/dataHelpers.js:75 | returns the first subscription whose `id` equals the argument, or none |
| DataHelpers.CreateSubscription | backend/dataHelpers.js:76-86 | appends exactly one subscription with the data's keys plus `id` and `createdAt`; the id is the data's or `sub_<millis>` |
| DataHelpers.UpdateSubscription | backend/dataHelpers.js:87-96 | merges the patch into the first subscription with the id and changes nothing else, or returns `null` and writes nothing; users and tenants are untouched |
| DataHelpers.CreatedTenantListedLast | backend/dataHelpers.js:47-60 | after a create, a user's tenant list is the earlier list followed by the new tenant if that tenant is the user's; other users' lists are unchanged |
| DataHelpers.CreatedUserFoundByEmail | backend/dataHelpers.js:32-43 | after a create, lookup by the new user's email finds the new user, unless an earlier user has that email, in which case it finds the earlier one |
| DataHelpers.EmailLookupIsCaseSensitive | backend/dataHelpers.js:32 | emails that differ only in letter case are different lookup keys |
| Webhook.OnCheckoutCompleted | backend/server.js:43-62 | a completed subscription-mode checkout appends exactly one local subscription for the metadata's tenant, copying the provider's id, first item, price, status, period and cancel flag; the new record has exactly those keys plus `id` and `createdAt`; it throws without metadata, when the retrieve fails or when there is no line item; other modes write nothing |
| Webhook.LocalSubscription | backend/server.js:51-60 | the data passed to `createSubscription` has exactly the provider's id, first item id, price id, status, period bounds and cancel flag, plus the metadata's `tenantId` when it is defined |
| Webhook.UpdatedPatch | backend/server.js:69-74 | the updated-event patch sets exactly the provider's status, period bounds and cancel flag, and never `id`, `stripeSubscriptionId` or `tenantId` |
| Webhook.DeletedPatch | backend/server.js:83-86 | the deleted-event patch sets exactly status `canceled` and `canceledAt` to the current time, and never `id`, `stripeSubscriptionId` or `tenantId` |
| Webhook.SyncByProviderId | backend/server.js:64-88 | with no local record for the provider id nothing changes; otherwise the first record whose id equals that match's id is merged with the patch (that record is at or before the match) and nothing else changes |
| Webhook.SyncTargetsProviderMatch | backend/server.js:66-69 | with pairwise distinct local ids, the record updated is the first one carrying the provider id |
| Webhook.CollidingIdsRedirectUpdate | backend/server.js:80-83 | when two local subscriptions share an id, an event for the second one's provider id is merged into the first |
| Webhook.SyncIdempotent | backend/server.js:78-88 | repeating the lookup-then-update with a patch that touches neither `id` nor `stripeSubscriptionId` leaves the store of a single run |
| Webhook.HandleWebhook | backend/server.js:30-96 | a bad signature gets 400 "Webhook Error: …" and no processing; a verified event gets `{ received: true }` or 500 with no write; unknown types and checkouts in another mode change nothing and are acknowledged; update and delete events never add records, leave the store unchanged when no record has the provider id, and otherwise merge into the first record whose id equals the match's id (at or before the match), which is the match itself when ids are distinct |
| Webhook.RedeliveryIdempotent | backend/server.js:64-88 | delivering the same update or delete event twice, at the same clock reading, leaves the store of a single delivery |
| Routes.RequestUserId | backend/server.js:121 | the user id is the header when it is truthy and the path parameter otherwise, and it is truthy exactly when one of them is |
| Routes.Authenticate | backend/server.js:120-133 | 401 "User ID required" when neither header nor path gives a truthy id, 401 "Invalid user" when no user has it; succeeds exactly otherwise, with the first user with that id |
| Routes.Profile | backend/server.js:150 | the login body keeps exactly the user's `id`, `email` and `name` that are present, with their values, and never the password |
| Routes.Login | backend/server.js:138-151 | 400 when email or password is falsy; otherwise 401 "Invalid credentials" on failure, and success exactly when the first user with that email has an equal password, and returns only that user's `id`, `email` and `name`, never the password |
| Routes.ListUserTenants | backend/server.js:154-158 | fails with 401 and the authentication message ("User ID required" or "Invalid user") exactly when authentication fails; otherwise returns exactly the path user's tenants in store order |
| Routes.CreateUserTenant | backend/server.js:160-170 | 401 with the authentication message when unauthenticated, 400 "Tenant name required" without a truthy name, with nothing written; otherwise appends one tenant `{ id, name, userId, createdAt, stripeCustomerId: null }` for the path user |
| Routes.CreatedTenantIsListed | backend/server.js:154-170 | after a tenant is created through the route, listing that user's tenants gives the earlier list followed by the new tenant |
| Routes.GetSubscriptionStatus | backend/server.js:173-189 | 404 exactly for an unknown tenant; otherwise the first tenant with the id, the first of its subscriptions with status `active` (none exactly when no subscription is both), and status `active` or `inactive` accordingly |
| Routes.StartCheckout | backend/server.js:191-234 | 404 for an unknown tenant; a tenant with a customer id is left unchanged; otherwise the newly created customer's id is recorded on that tenant alone, and stays recorded even if the session cannot be created; for an existing tenant every failure is 500 "Failed to create subscription" |
| Routes.ChangeSubscription | backend/server.js:236-298 | 404 unless the subscription exists and belongs to the tenant, 400 for an unknown action, 400 for a plan change without a new price, 500 when the provider rejects; none of these writes anything; success needs ownership, a known action and the provider's acceptance |
| Routes.ApplyAction | backend/server.js:248-291 | the action switch: 400 "Invalid action" for anything but the four actions, 400 for a plan change without a truthy new price, 500 with nothing written when the provider rejects, success exactly when the action is valid and the provider accepts |
| Routes.CancelEffect | backend/server.js:249-257 | a successful cancel changes only that subscription: status `canceling`, cancel flag set, every other key kept, merged record returned |
| Routes.ReactivateEffect | backend/server.js:259-267 | a successful reactivate changes only that subscription: status `active`, cancel flag cleared, every other key kept, merged record returned |
| Routes.PlanChangeEffect | backend/server.js:269-287 | a successful upgrade or downgrade changes only that subscription: the new price and an `updatedAt` stamp, every other key kept, merged record returned |
| Routes.MirrorChange | backend/server.js:253-256 | a rejected provider call answers 500 "Failed to update subscription" and writes nothing; an accepted one merges the patch into the first subscription with the id, or answers `null` with nothing written when there is none, and leaves users and tenants alone |
| Routes.MirrorEffect | backend/server.js:253-256 | an accepted change merges its patch into the first record with the id, keeps every other key of that record, and returns the merged record |
| Routes.MirrorTwice | backend/server.js:253-266 | two accepted changes to the same subscription, where the second patch covers the keys of the first, leave the store the second alone leaves |
| Routes.ReactivateAfterCancel | backend/server.js:249-267 | cancelling and then reactivating a subscription leaves the same store as reactivating it directly |
| Routes.CancelThenReactivateRestores | backend/server.js:249-267 | for an active subscription not set to cancel, cancel followed by reactivate restores the original store |

## Left out

- Reading and writing the JSON files is replaced by passing the collections in and returning them. The `getUsers`, `getTenants` and `getSubscriptions` readers become the store's fields. A file that is missing or unparsable reads as an empty collection, and the model's callers can pass one in. A failed write returns `false`, no caller uses it, and the model assumes every write succeeds.
- Every payment-provider call is an answer passed in:
  - `constructEvent` becomes the `Delivery` value;
  - `subscriptions.retrieve` becomes an optional subscription;
  - `subscriptions.update` becomes the `providerAccepted` flag;
  - customer creation and retrieval and `checkout.sessions.create` become `CheckoutProvider`.
- The arguments sent to the provider are not modelled. These are the subscription item, the price and the proration behaviour in `subscriptions.update`, and the price, URLs and metadata of the checkout session. Only their effect on the local store and the response is modelled.
- Converting Unix seconds to ISO strings (`new Date(s * 1000).toISOString()`) is not modelled. Period bounds arrive as strings already. A `RangeError` from an invalid date is not modelled either.
- `Date.now()` and `new Date().toISOString()` are the two independent fields of `Clock`.
- Numbers are mathematical integers, not IEEE doubles. Records are flat, with no nested objects or arrays.
- The checkout arm reads `session.metadata.tenantId`. If `metadata` is an object without `tenantId`, the subscription is written without a `tenantId` key, since `JSON.stringify` drops `undefined`. The model has no non-object `metadata`: it is either an object or absent, and absent throws. In the program, a string, number or boolean `metadata` does not throw, because reading `tenantId` from it gives `undefined`, so the subscription is recorded without a `tenantId`; the model answers 500 for that case instead. The provider always sends an object, so the case does not arise in practice.
- The body of an update response that is `null` is modelled as `Ok(None)`.
- Routes.Login: the 200 body is the profile record itself; the `{ user: … }` wrapper around it is not modelled, because records are flat.
- Concurrent requests and the lost-update race of whole-collection read-modify-write are out of scope: each handler is one atomic step.
- The plan catalogue (`STRIPE_PLANS` and `GET /api/plans`), the invoices route and the health route are left out. They only relay a constant list or provider data and never write the store.
- Express routing, CORS, body parsing and logging are left out.
- The React frontend is left out.
