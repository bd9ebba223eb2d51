/**
 The payment provider's webhook (backend/server.js, `POST /api/webhooks/stripe`):
 after the signature check, a dispatch over three event kinds that creates or
 updates local subscription records, with a silent default arm. The provider's
 objects arrive as parameters: the event's payload, and the answer of the
 `subscriptions.retrieve` call the checkout arm makes.
 */
module Webhook {
  import opened Json
  import opened Records
  import opened DataHelpers
  import opened Http

  /** One line item of a provider subscription: its id and its price's id. */
  datatype ProviderItem = ProviderItem(id: string, priceId: string)

  /** A provider subscription object. The period bounds are carried already
      rendered as ISO timestamps. */
  datatype ProviderSubscription = ProviderSubscription(
    id: string,
    status: string,
    items: seq<ProviderItem>,
    currentPeriodStart: string,
    currentPeriodEnd: string,
    cancelAtPeriodEnd: bool)

  /** A completed checkout session: its mode and its metadata object (absent
      when the session carries none, so that reading `metadata.tenantId` throws). */
  datatype CheckoutSession = CheckoutSession(mode: string, metadata: Option<Record>)

  /** An event `type` other than the three the handler acts on. */
  type OtherEventType = t: string | t !in {"checkout.session.completed", "customer.subscription.updated", "customer.subscription.deleted"}
    witness ""

  /** A verified event, by its `type`: the three kinds the handler acts on and
      every other type. */
  datatype Event =
    | CheckoutSessionCompleted(session: CheckoutSession)
    | CustomerSubscriptionUpdated(updated: ProviderSubscription)
    | CustomerSubscriptionDeleted(deleted: ProviderSubscription)
    | Unhandled(eventType: OtherEventType)

  /** The outcome of the signature check on the raw request. */
  datatype Delivery = Verified(event: Event) | SignatureRejected(message: string)

  /** The acknowledgement `{ received: true }`. */
  datatype Ack = Received

  /** The 500 message of the webhook handler. */
  const ProcessingFailed := "Webhook processing failed"

  /** The keys of a checkout's local subscription besides `tenantId`. */
  const CheckoutKeys: set<string> := {"stripeSubscriptionId", "stripeSubscriptionItemId", "priceId", "status",
                                      "currentPeriodStart", "currentPeriodEnd", "cancelAtPeriodEnd"}

  /** The fields the checkout arm records for a new local subscription: the
      provider's id, first item, price, status, period and cancel flag, and the
      metadata's `tenantId`, which is not persisted when it is `undefined`. */
  function LocalSubscription(tenantId: Option<Value>, sub: ProviderSubscription): (r: Record)
    requires |sub.items| > 0
    ensures r.Keys == CheckoutKeys + (if tenantId.Some? then {"tenantId"} else {})
    ensures Field(r, "tenantId") == tenantId
    ensures Field(r, "stripeSubscriptionId") == StrKey(sub.id)
    ensures Field(r, "stripeSubscriptionItemId") == StrKey(sub.items[0].id)
    ensures Field(r, "priceId") == StrKey(sub.items[0].priceId)
    ensures Field(r, "status") == StrKey(sub.status)
    ensures Field(r, "currentPeriodStart") == StrKey(sub.currentPeriodStart)
    ensures Field(r, "currentPeriodEnd") == StrKey(sub.currentPeriodEnd)
    ensures Field(r, "cancelAtPeriodEnd") == Some(Bool(sub.cancelAtPeriodEnd))
  {
    var fields := map[
      "stripeSubscriptionId" := Str(sub.id),
      "stripeSubscriptionItemId" := Str(sub.items[0].id),
      "priceId" := Str(sub.items[0].priceId),
      "status" := Str(sub.status),
      "currentPeriodStart" := Str(sub.currentPeriodStart),
      "currentPeriodEnd" := Str(sub.currentPeriodEnd),
      "cancelAtPeriodEnd" := Bool(sub.cancelAtPeriodEnd)];
    match tenantId
    case None => fields
    case Some(t) => fields["tenantId" := t]
  }

  /** `rec` is the subscription a checkout records: stamped with a generated
      id and the clock, owned by the metadata's tenant, and copying the
      provider's id, first item, price, status, period and cancel flag, with
      no other key. */
  ghost predicate IsCheckoutRecord(rec: Record, metadata: Record, sub: ProviderSubscription, clock: Clock)
    requires |sub.items| > 0
  {
    && rec.Keys == CheckoutKeys + (if "tenantId" in metadata then {"tenantId"} else {}) + {"id", "createdAt"}
    && Field(rec, "tenantId") == Field(metadata, "tenantId")
    && Field(rec, "id") == StrKey(GeneratedId("sub", clock.millis))
    && Field(rec, "createdAt") == StrKey(clock.iso)
    && Field(rec, "stripeSubscriptionId") == StrKey(sub.id)
    && Field(rec, "stripeSubscriptionItemId") == StrKey(sub.items[0].id)
    && Field(rec, "priceId") == StrKey(sub.items[0].priceId)
    && Field(rec, "status") == StrKey(sub.status)
    && Field(rec, "currentPeriodStart") == StrKey(sub.currentPeriodStart)
    && Field(rec, "currentPeriodEnd") == StrKey(sub.currentPeriodEnd)
    && Field(rec, "cancelAtPeriodEnd") == Some(Bool(sub.cancelAtPeriodEnd))
  }

  /** `after` is `before` with exactly one subscription appended, and that
      subscription is the checkout's record. */
  ghost predicate RecordsCheckout(before: Store, after: Store, metadata: Record, sub: ProviderSubscription, clock: Clock)
    requires |sub.items| > 0
  {
    && after.users == before.users
    && after.tenants == before.tenants
    && |after.subscriptions| == |before.subscriptions| + 1
    && after.subscriptions == before.subscriptions + [after.subscriptions[|before.subscriptions|]]
    && IsCheckoutRecord(after.subscriptions[|before.subscriptions|], metadata, sub, clock)
  }

  /** The `checkout.session.completed` arm; `None` when it throws (no
      metadata object, the retrieve call rejected, or no line item). */
  function OnCheckoutCompleted(s: Store, session: CheckoutSession, retrieved: Option<ProviderSubscription>, clock: Clock): (r: Option<Store>)
    ensures session.metadata.None? ==> r.None?
    ensures session.metadata.Some? && session.mode != "subscription" ==> r == Some(s)
    ensures session.metadata.Some? && session.mode == "subscription" ==>
      (r.Some? <==> retrieved.Some? && |retrieved.value.items| > 0)
    ensures r.Some? && session.mode == "subscription" ==>
      && session.metadata.Some? && retrieved.Some? && |retrieved.value.items| > 0
      && RecordsCheckout(s, r.value, session.metadata.value, retrieved.value, clock)
  {
    match session.metadata
    case None => None
    case Some(metadata) =>
      if session.mode != "subscription" then Some(s)
      else match retrieved
        case None => None
        case Some(sub) =>
          if |sub.items| == 0 then None
          else
            CheckoutRecorded(s, metadata, sub, clock);
            Some(CreateSubscription(s, LocalSubscription(Field(metadata, "tenantId"), sub), clock).store)
  }

  /** The subscription the checkout arm creates is recorded as `RecordsCheckout` describes. */
  lemma CheckoutRecorded(s: Store, metadata: Record, sub: ProviderSubscription, clock: Clock)
    requires |sub.items| > 0
    ensures RecordsCheckout(s, CreateSubscription(s, LocalSubscription(Field(metadata, "tenantId"), sub), clock).store, metadata, sub, clock)
  {
    StampedCheckout(s, LocalSubscription(Field(metadata, "tenantId"), sub), metadata, sub, clock);
  }

  /** `data` holds exactly the checkout fields the arm passes to
      `createSubscription`. */
  ghost predicate CarriesCheckout(data: Record, metadata: Record, sub: ProviderSubscription)
    requires |sub.items| > 0
  {
    && data.Keys == CheckoutKeys + (if "tenantId" in metadata then {"tenantId"} else {})
    && Field(data, "tenantId") == Field(metadata, "tenantId")
    && Field(data, "stripeSubscriptionId") == StrKey(sub.id)
    && Field(data, "stripeSubscriptionItemId") == StrKey(sub.items[0].id)
    && Field(data, "priceId") == StrKey(sub.items[0].priceId)
    && Field(data, "status") == StrKey(sub.status)
    && Field(data, "currentPeriodStart") == StrKey(sub.currentPeriodStart)
    && Field(data, "currentPeriodEnd") == StrKey(sub.currentPeriodEnd)
    && Field(data, "cancelAtPeriodEnd") == Some(Bool(sub.cancelAtPeriodEnd))
  }

  /** Creating a subscription from data that carries the checkout fields
      records the checkout. */
  lemma StampedCheckout(s: Store, data: Record, metadata: Record, sub: ProviderSubscription, clock: Clock)
    requires |sub.items| > 0
    requires CarriesCheckout(data, metadata, sub)
    ensures RecordsCheckout(s, CreateSubscription(s, data, clock).store, metadata, sub, clock)
  {
    assert "id" !in data && "createdAt" !in data;
    var c := CreateSubscription(s, data, clock);
    StampedRecord(data, c.record, metadata, sub, clock);
    assert c.store.subscriptions[|s.subscriptions|] == c.record;
  }

  /** A record stamped onto checkout data, as `createSubscription` stamps it,
      is the checkout's record. */
  lemma StampedRecord(data: Record, rec: Record, metadata: Record, sub: ProviderSubscription, clock: Clock)
    requires |sub.items| > 0
    requires CarriesCheckout(data, metadata, sub)
    requires rec.Keys == data.Keys + {"id", "createdAt"}
    requires rec["createdAt"] == Str(clock.iso)
    requires rec["id"] == Str(GeneratedId("sub", clock.millis))
    requires forall k :: k in data && k != "createdAt" ==> rec[k] == data[k]
    ensures IsCheckoutRecord(rec, metadata, sub, clock)
  {
  }

  /** The lookup-then-update shared by the `updated` and `deleted` arms: find
      the first local subscription whose `stripeSubscriptionId` matches, then
      `updateSubscription(localSub.id, patch)`, which merges into the first
      record carrying that `id` (the same record unless ids collide). */
  function SyncByProviderId(s: Store, stripeId: string, patch: Record): (r: Store)
    ensures r.users == s.users && r.tenants == s.tenants
    ensures |r.subscriptions| == |s.subscriptions|
    ensures NoMatch(s.subscriptions, "stripeSubscriptionId", StrKey(stripeId)) ==> r == s
    ensures forall i, j ::
      IsFirstIndex(s.subscriptions, "stripeSubscriptionId", StrKey(stripeId), i) &&
      IsFirstIndex(s.subscriptions, "id", Field(s.subscriptions[i], "id"), j) ==>
        j <= i && r.subscriptions == s.subscriptions[j := Merge(s.subscriptions[j], patch)]
  {
    match Find(s.subscriptions, "stripeSubscriptionId", StrKey(stripeId))
    case None => s
    case Some(local) => UpdateSubscription(s, Field(local, "id"), patch).store
  }

  /** Local ids are pairwise distinct (no two creates read the same millisecond). */
  ghost predicate DistinctIds(rs: seq<Record>)
  {
    forall a, b :: 0 <= a < b < |rs| ==> Field(rs[a], "id") != Field(rs[b], "id")
  }

  /** With distinct local ids, the record updated is the first one whose
      `stripeSubscriptionId` matches. */
  lemma SyncTargetsProviderMatch(s: Store, stripeId: string, patch: Record, i: int)
    requires DistinctIds(s.subscriptions)
    requires IsFirstIndex(s.subscriptions, "stripeSubscriptionId", StrKey(stripeId), i)
    ensures SyncByProviderId(s, stripeId, patch).subscriptions ==
      s.subscriptions[i := Merge(s.subscriptions[i], patch)]
  {
  }

  /** Two subscriptions created in the same millisecond share the id
      `sub_1700`; an update event for the second one's provider id is merged
      into the first. */
  lemma CollidingIdsRedirectUpdate()
    ensures
      var first := map["id" := Str("sub_1700"), "stripeSubscriptionId" := Str("sub_A")];
      var second := map["id" := Str("sub_1700"), "stripeSubscriptionId" := Str("sub_B")];
      var patch := map["status" := Str("canceled")];
      SyncByProviderId(Store([], [], [first, second]), "sub_B", patch).subscriptions ==
        [Merge(first, patch), second]
  {
  }

  /** Re-running the lookup-then-update with a patch that touches neither
      `id` nor `stripeSubscriptionId` gives the same store as running it once. */
  lemma SyncIdempotent(s: Store, stripeId: string, patch: Record)
    requires "id" !in patch && "stripeSubscriptionId" !in patch
    ensures SyncByProviderId(SyncByProviderId(s, stripeId, patch), stripeId, patch) == SyncByProviderId(s, stripeId, patch)
  {
    var rs, key := s.subscriptions, StrKey(stripeId);
    if !NoMatch(rs, "stripeSubscriptionId", key) {
      FirstIndexExists(rs, "stripeSubscriptionId", key);
      var i :| IsFirstIndex(rs, "stripeSubscriptionId", key, i);
      var idv := Field(rs[i], "id");
      FirstIndexExists(rs, "id", idv);
      var j :| IsFirstIndex(rs, "id", idv, j);
      var once := SyncByProviderId(s, stripeId, patch);
      var merged := Merge(rs[j], patch);
      assert once.subscriptions == rs[j := merged];
      FirstIndexAfterMerge(rs, j, patch, "stripeSubscriptionId", key, i);
      assert Field(once.subscriptions[i], "id") == idv;
      FirstIndexAfterMerge(rs, j, patch, "id", idv, j);
      MergeIdempotent(rs[j], patch);
      assert once.subscriptions[j := Merge(once.subscriptions[j], patch)] == once.subscriptions;
    }
  }

  /** The patch of the `customer.subscription.updated` arm: the provider's
      status, period and cancel flag, and none of the keys that identify or
      own a local subscription. */
  function UpdatedPatch(sub: ProviderSubscription): (r: Record)
    ensures r.Keys == {"status", "currentPeriodStart", "currentPeriodEnd", "cancelAtPeriodEnd"}
    ensures Field(r, "status") == StrKey(sub.status) && Field(r, "cancelAtPeriodEnd") == Some(Bool(sub.cancelAtPeriodEnd))
    ensures Field(r, "currentPeriodStart") == StrKey(sub.currentPeriodStart) && Field(r, "currentPeriodEnd") == StrKey(sub.currentPeriodEnd)
    ensures "id" !in r && "stripeSubscriptionId" !in r && "tenantId" !in r
  {
    map[
      "status" := Str(sub.status),
      "currentPeriodStart" := Str(sub.currentPeriodStart),
      "currentPeriodEnd" := Str(sub.currentPeriodEnd),
      "cancelAtPeriodEnd" := Bool(sub.cancelAtPeriodEnd)]
  }

  /** The patch of the `customer.subscription.deleted` arm: status
      `canceled` and the current time, and none of the keys that identify or
      own a local subscription. */
  function DeletedPatch(clock: Clock): (r: Record)
    ensures r.Keys == {"status", "canceledAt"}
    ensures Field(r, "status") == StrKey("canceled") && Field(r, "canceledAt") == StrKey(clock.iso)
    ensures "id" !in r && "stripeSubscriptionId" !in r && "tenantId" !in r
  {
    map["status" := Str("canceled"), "canceledAt" := Str(clock.iso)]
  }

  /** The patch an event that targets an existing subscription merges. */
  function SyncPatch(e: Event, clock: Clock): Record
    requires e.CustomerSubscriptionUpdated? || e.CustomerSubscriptionDeleted?
  {
    if e.CustomerSubscriptionUpdated? then UpdatedPatch(e.updated) else DeletedPatch(clock)
  }

  /** The provider subscription id an updating event refers to. */
  function SyncTarget(e: Event): string
    requires e.CustomerSubscriptionUpdated? || e.CustomerSubscriptionDeleted?
  {
    if e.CustomerSubscriptionUpdated? then e.updated.id else e.deleted.id
  }

  /** The webhook handler. A rejected signature is answered 400 and nothing
      is processed; a verified event is acknowledged whatever its type unless
      its arm throws, which is answered 500 with nothing written. */
  function HandleWebhook(s: Store, delivery: Delivery, retrieved: Option<ProviderSubscription>, clock: Clock): (h: Handled<Ack>)
    ensures h.store.users == s.users && h.store.tenants == s.tenants
    ensures h.response.Fail? ==> h.store == s
    ensures delivery.SignatureRejected? ==> h == Handled(s, Fail(400, "Webhook Error: " + delivery.message))
    ensures delivery.Verified? ==> h.response == Ok(Received) || h.response == Fail(500, ProcessingFailed)
    ensures delivery.Verified? && delivery.event.Unhandled? ==> h == Handled(s, Ok(Received))
    ensures delivery.Verified? && delivery.event.CheckoutSessionCompleted? ==>
      var session := delivery.event.session;
      && (session.metadata.None? ==> h == Handled(s, Fail(500, ProcessingFailed)))
      && (session.metadata.Some? && session.mode != "subscription" ==> h == Handled(s, Ok(Received)))
      && (session.metadata.Some? && session.mode == "subscription" ==>
            (h.response.Ok? <==> retrieved.Some? && |retrieved.value.items| > 0))
      && (h.response.Ok? && session.mode == "subscription" ==>
            && session.metadata.Some? && retrieved.Some? && |retrieved.value.items| > 0
            && RecordsCheckout(s, h.store, session.metadata.value, retrieved.value, clock))
    ensures delivery.Verified? && (delivery.event.CustomerSubscriptionUpdated? || delivery.event.CustomerSubscriptionDeleted?) ==>
      var e := delivery.event;
      var key := StrKey(SyncTarget(e));
      && h.response == Ok(Received)
      && |h.store.subscriptions| == |s.subscriptions|
      && (NoMatch(s.subscriptions, "stripeSubscriptionId", key) ==> h.store == s)
      && (forall i, j ::
            IsFirstIndex(s.subscriptions, "stripeSubscriptionId", key, i) &&
            IsFirstIndex(s.subscriptions, "id", Field(s.subscriptions[i], "id"), j) ==>
              j <= i && h.store.subscriptions == s.subscriptions[j := Merge(s.subscriptions[j], SyncPatch(e, clock))])
      && (DistinctIds(s.subscriptions) ==>
            forall i :: IsFirstIndex(s.subscriptions, "stripeSubscriptionId", key, i) ==>
              h.store.subscriptions == s.subscriptions[i := Merge(s.subscriptions[i], SyncPatch(e, clock))])
  {
    match delivery
    case SignatureRejected(message) => Handled(s, Fail(400, "Webhook Error: " + message))
    case Verified(e) =>
      match e
      case CheckoutSessionCompleted(session) =>
        (match OnCheckoutCompleted(s, session, retrieved, clock)
         case None => Handled(s, Fail(500, ProcessingFailed))
         case Some(after) => Handled(after, Ok(Received)))
      case CustomerSubscriptionUpdated(_) =>
        SyncEventTargetsProviderMatch(s, e, clock);
        Handled(SyncByProviderId(s, SyncTarget(e), SyncPatch(e, clock)), Ok(Received))
      case CustomerSubscriptionDeleted(_) =>
        SyncEventTargetsProviderMatch(s, e, clock);
        Handled(SyncByProviderId(s, SyncTarget(e), SyncPatch(e, clock)), Ok(Received))
      case Unhandled(_) => Handled(s, Ok(Received))
  }

  /** `SyncTargetsProviderMatch` for the event an `updated` or `deleted`
      delivery carries. */
  lemma SyncEventTargetsProviderMatch(s: Store, e: Event, clock: Clock)
    requires e.CustomerSubscriptionUpdated? || e.CustomerSubscriptionDeleted?
    ensures DistinctIds(s.subscriptions) ==>
      forall i :: IsFirstIndex(s.subscriptions, "stripeSubscriptionId", StrKey(SyncTarget(e)), i) ==>
        SyncByProviderId(s, SyncTarget(e), SyncPatch(e, clock)).subscriptions ==
          s.subscriptions[i := Merge(s.subscriptions[i], SyncPatch(e, clock))]
  {
  }

  /** Delivering the same `updated` or `deleted` event twice (with the same
      clock) leaves the same store as delivering it once. */
  lemma RedeliveryIdempotent(s: Store, delivery: Delivery, retrieved: Option<ProviderSubscription>, clock: Clock)
    requires delivery.Verified?
    requires delivery.event.CustomerSubscriptionUpdated? || delivery.event.CustomerSubscriptionDeleted?
    ensures var once := HandleWebhook(s, delivery, retrieved, clock).store;
      HandleWebhook(once, delivery, retrieved, clock).store == once
  {
    var e := delivery.event;
    SyncIdempotent(s, SyncTarget(e), SyncPatch(e, clock));
  }
}
