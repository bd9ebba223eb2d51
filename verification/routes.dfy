/**
 The request handlers of backend/server.js that read or change the store:
 `authenticateUser`, login, listing and creating a user's tenants, the
 subscription status of a tenant, starting a checkout, and the user actions
 on a subscription. Each is a pure function from the store and the request to
 the new store and the response; the payment provider's answers are passed in.
 */
module Routes {
  import opened Json
  import opened Records
  import opened DataHelpers
  import opened Http

  // authenticateUser

  /** `req.headers.userId || req.params.userId`: the header when it is
      truthy, the path parameter otherwise; the result is truthy exactly when
      one of the two is. */
  function RequestUserId(header: Option<Value>, param: string): (r: Option<Value>)
    ensures Truthy(header) ==> r == header
    ensures !Truthy(header) ==> r == StrKey(param)
    ensures Truthy(r) <==> Truthy(header) || Truthy(StrKey(param))
  {
    if Truthy(header) then header else StrKey(param)
  }

  /** `authenticateUser`: 401 when no user id is given, 401 when no user has
      it, otherwise the first user with that id. */
  function Authenticate(s: Store, header: Option<Value>, param: string): (r: Response<Record>)
    ensures var userId := RequestUserId(header, param);
      && (!Truthy(userId) ==> r == Fail(401, "User ID required"))
      && (Truthy(userId) && NoMatch(s.users, "id", userId) ==> r == Fail(401, "Invalid user"))
      && (r.Ok? <==> Truthy(userId) && !NoMatch(s.users, "id", userId))
      && (r.Ok? ==> FirstMatch(s.users, "id", userId, Some(r.body)))
  {
    var userId := RequestUserId(header, param);
    if !Truthy(userId) then Fail(401, "User ID required")
    else match GetUserById(s, userId)
      case None => Fail(401, "Invalid user")
      case Some(user) => Ok(user)
  }

  // POST /api/auth/login

  /** The properties the login response exposes. */
  const ProfileKeys: set<string> := {"id", "email", "name"}

  /** `{ id: user.id, email: user.email, name: user.name }` once serialised:
      properties the user lacks are dropped. */
  function Profile(user: Record): (r: Record)
    ensures r.Keys == user.Keys * ProfileKeys
    ensures forall k :: k in r ==> r[k] == user[k]
    ensures "password" !in r
  {
    map k | k in user && k in ProfileKeys :: user[k]
  }

  /** Login: 400 when email or password is missing (falsy); otherwise success
      exactly when the first user with that email exists and its password is
      equal, and then only the user's `id`, `email` and `name` are returned. */
  function Login(s: Store, email: Option<Value>, password: Option<Value>): (r: Response<Record>)
    ensures !Truthy(email) || !Truthy(password) ==> r == Fail(400, "Email and password required")
    ensures Truthy(email) && Truthy(password) ==>
      (r.Ok? <==> exists i :: IsFirstIndex(s.users, "email", email, i) && Matches(s.users[i], "password", password))
    ensures Truthy(email) && Truthy(password) && r.Fail? ==> r == Fail(401, "Invalid credentials")
    ensures r.Ok? ==> forall i :: IsFirstIndex(s.users, "email", email, i) ==>
      && r.body.Keys == s.users[i].Keys * ProfileKeys
      && (forall k :: k in r.body ==> r.body[k] == s.users[i][k])
    ensures r.Ok? ==> "password" !in r.body
  {
    if !Truthy(email) || !Truthy(password) then Fail(400, "Email and password required")
    else match GetUserByEmail(s, email)
      case None => Fail(401, "Invalid credentials")
      case Some(user) =>
        if !Matches(user, "password", password) then Fail(401, "Invalid credentials")
        else Ok(Profile(user))
  }

  // GET and POST /api/user/:userId/tenants

  /** Lists the tenants whose `userId` is the path's user id, once the caller
      is authenticated. */
  function ListUserTenants(s: Store, header: Option<Value>, userId: string): (r: Response<seq<Record>>)
    ensures r.Fail? <==> Authenticate(s, header, userId).Fail?
    ensures r.Fail? ==> r.status == 401 && r.error == Authenticate(s, header, userId).error
    ensures r.Ok? ==> Selected(s.tenants, "userId", StrKey(userId), r.body)
  {
    match Authenticate(s, header, userId)
    case Fail(status, error) => Fail(status, error)
    case Ok(_) => Ok(GetTenantsByUserId(s, StrKey(userId)))
  }

  /** Creates a tenant `{ name, userId }` for the path's user: 401 when not
      authenticated, 400 without a (truthy) name; nothing is written on error. */
  function CreateUserTenant(s: Store, header: Option<Value>, userId: string, name: Option<Value>, clock: Clock): (h: Handled<Record>)
    ensures h.response.Fail? ==> h.store == s
    ensures Authenticate(s, header, userId).Fail? ==>
      h.response.Fail? && h.response.status == 401 && h.response.error == Authenticate(s, header, userId).error
    ensures Authenticate(s, header, userId).Ok? && !Truthy(name) ==> h == Handled(s, Fail(400, "Tenant name required"))
    ensures h.response.Ok? <==> Authenticate(s, header, userId).Ok? && Truthy(name)
    ensures h.response.Ok? ==>
      var t := h.response.body;
      && h.store == s.(tenants := s.tenants + [t])
      && t.Keys == {"id", "name", "userId", "createdAt", "stripeCustomerId"}
      && t["id"] == Str(GeneratedId("tenant", clock.millis))
      && Some(t["name"]) == name
      && t["userId"] == Str(userId)
      && t["createdAt"] == Str(clock.iso)
      && t["stripeCustomerId"] == Null
  {
    match Authenticate(s, header, userId)
    case Fail(status, error) => Handled(s, Fail(status, error))
    case Ok(_) =>
      if !Truthy(name) then Handled(s, Fail(400, "Tenant name required"))
      else
        var c := CreateTenant(s, map["name" := name.value, "userId" := Str(userId)], clock);
        Handled(c.store, Ok(c.record))
  }

  /** After a tenant is created through the route, listing that user's
      tenants gives the earlier list followed by the new tenant. */
  lemma CreatedTenantIsListed(s: Store, header: Option<Value>, userId: string, name: Option<Value>, clock: Clock)
    ensures var h := CreateUserTenant(s, header, userId, name, clock);
      h.response.Ok? ==>
        ListUserTenants(h.store, header, userId) == Ok(GetTenantsByUserId(s, StrKey(userId)) + [h.response.body])
  {
    var h := CreateUserTenant(s, header, userId, name, clock);
    if h.response.Ok? {
      var data := map["name" := name.value, "userId" := Str(userId)];
      CreatedTenantListedLast(s, data, clock, StrKey(userId));
      assert Authenticate(h.store, header, userId) == Authenticate(s, header, userId);
    }
  }

  // GET /api/tenant/:tenantId/subscription

  /** `{ tenant, subscription, status }` */
  datatype SubscriptionView = SubscriptionView(tenant: Record, subscription: Option<Record>, status: Value)

  /** The tenant's status: 404 for an unknown tenant; otherwise the first of
      the tenant's subscriptions whose status is `active` (or none), with
      status `active` when there is one and `inactive` otherwise. */
  function GetSubscriptionStatus(s: Store, tenantId: string): (r: Response<SubscriptionView>)
    ensures r.Fail? <==> NoMatch(s.tenants, "id", StrKey(tenantId))
    ensures r.Fail? ==> r == Fail(404, "Tenant not found")
    ensures r.Ok? ==> FirstMatch(s.tenants, "id", StrKey(tenantId), Some(r.body.tenant))
    ensures r.Ok? ==>
      (r.body.subscription.None? <==>
         forall i :: 0 <= i < |s.subscriptions| ==>
           !(Matches(s.subscriptions[i], "tenantId", StrKey(tenantId)) && Matches(s.subscriptions[i], "status", StrKey("active"))))
    ensures r.Ok? ==>
      forall i :: IsFirstJointIndex(s.subscriptions, "tenantId", StrKey(tenantId), "status", StrKey("active"), i) ==>
        r.body.subscription == Some(s.subscriptions[i])
    ensures r.Ok? ==> r.body.status == if r.body.subscription.Some? then Str("active") else Str("inactive")
  {
    var key := StrKey(tenantId);
    match GetTenantById(s, key)
    case None => Fail(404, "Tenant not found")
    case Some(tenant) =>
      var active := Find(GetSubscriptionsByTenantId(s, key), "status", StrKey("active"));
      FindWithinFilter(s.subscriptions, "tenantId", key, "status", StrKey("active"));
      Ok(SubscriptionView(tenant, active, match active case Some(a) => a["status"] case None => Str("inactive")))
  }

  // POST /api/tenant/:tenantId/subscription

  /** The checkout session created at the provider. */
  datatype SessionLink = SessionLink(sessionId: string, url: string)

  /** The provider's answers: whether retrieving the tenant's existing
      customer succeeded, the id of a newly created customer (absent when the
      call failed), and the created checkout session (absent when it failed). */
  datatype CheckoutProvider = CheckoutProvider(customerRetrieved: bool, customerCreated: Option<string>, session: Option<SessionLink>)

  /** The 500 message of the checkout route. */
  const CheckoutFailed := "Failed to create subscription"

  /** Answers with the created session, or 500 when it could not be created. */
  function SessionResponse(s: Store, session: Option<SessionLink>): Handled<SessionLink>
  {
    match session
    case None => Handled(s, Fail(500, CheckoutFailed))
    case Some(link) => Handled(s, Ok(link))
  }

  /** Starting a checkout: 404 for an unknown tenant. A tenant without a
      (truthy) customer id gets the newly created customer's id recorded
      before the session is requested, so the id stays recorded even when the
      session cannot be created. A tenant with a customer id is not changed. */
  function StartCheckout(s: Store, tenantId: string, provider: CheckoutProvider): (h: Handled<SessionLink>)
    ensures h.store.users == s.users && h.store.subscriptions == s.subscriptions
    ensures h.response.Fail? ==> h.response.status in {404, 500}
    ensures NoMatch(s.tenants, "id", StrKey(tenantId)) ==> h == Handled(s, Fail(404, "Tenant not found"))
    ensures !NoMatch(s.tenants, "id", StrKey(tenantId)) && h.response.Fail? ==> h.response == Fail(500, CheckoutFailed)
    ensures forall i :: IsFirstIndex(s.tenants, "id", StrKey(tenantId), i) ==>
      var tenant := s.tenants[i];
      if Truthy(Field(tenant, "stripeCustomerId")) then
        && h.store == s
        && (h.response.Ok? <==> provider.customerRetrieved && provider.session.Some?)
      else if provider.customerCreated.None? then
        h == Handled(s, Fail(500, CheckoutFailed))
      else
        && |h.store.tenants| == |s.tenants|
        && h.store.tenants == s.tenants[i := h.store.tenants[i]]
        && Field(h.store.tenants[i], "stripeCustomerId") == StrKey(provider.customerCreated.value)
        && AgreeExcept(tenant, h.store.tenants[i], {"stripeCustomerId"})
        && (h.response.Ok? <==> provider.session.Some?)
    ensures h.response.Ok? ==> provider.session == Some(h.response.body)
  {
    var key := StrKey(tenantId);
    match GetTenantById(s, key)
    case None => Handled(s, Fail(404, "Tenant not found"))
    case Some(tenant) =>
      if Truthy(Field(tenant, "stripeCustomerId")) then
        if !provider.customerRetrieved then Handled(s, Fail(500, CheckoutFailed))
        else SessionResponse(s, provider.session)
      else match provider.customerCreated
        case None => Handled(s, Fail(500, CheckoutFailed))
        case Some(customerId) =>
          SessionResponse(UpdateTenant(s, key, map["stripeCustomerId" := Str(customerId)]).store, provider.session)
  }

  // PUT /api/tenant/:tenantId/subscription/:subscriptionId

  /** The subscription named in the path exists and belongs to the tenant
      named in the path. */
  ghost predicate OwnedBy(s: Store, tenantId: string, subscriptionId: string)
  {
    exists i :: IsFirstIndex(s.subscriptions, "id", StrKey(subscriptionId), i) &&
      Matches(s.subscriptions[i], "tenantId", StrKey(tenantId))
  }

  /** `case 'upgrade': case 'downgrade':` */
  predicate IsPlanChange(action: Option<Value>)
  {
    action == StrKey("upgrade") || action == StrKey("downgrade")
  }

  /** The four actions the switch handles. */
  predicate IsKnownAction(action: Option<Value>)
  {
    action == StrKey("cancel") || action == StrKey("reactivate") || IsPlanChange(action)
  }

  /** The 500 message of the subscription actions. */
  const UpdateFailed := "Failed to update subscription"

  /** The local patches of `cancel` and `reactivate`. */
  const CancelPatch: Record := map["status" := Str("canceling"), "cancelAtPeriodEnd" := Bool(true)]

  const ReactivatePatch: Record := map["status" := Str("active"), "cancelAtPeriodEnd" := Bool(false)]

  /** Mirrors a change the provider accepted into the local record; a
      rejected provider call writes nothing. */
  function MirrorChange(s: Store, key: Option<Value>, patch: Record, accepted: bool): (h: Handled<Option<Record>>)
    ensures !accepted ==> h == Handled(s, Fail(500, UpdateFailed))
    ensures accepted ==> h.response.Ok? && h.store.users == s.users && h.store.tenants == s.tenants
    ensures accepted ==> IsFirstUpdate(s.subscriptions, key, patch, Updated(h.store.subscriptions, h.response.body))
  {
    if !accepted then Handled(s, Fail(500, UpdateFailed))
    else
      var c := UpdateSubscription(s, key, patch);
      Handled(c.store, Ok(c.result))
  }

  /** The user actions on a subscription. 404 unless the subscription exists
      and belongs to the tenant; 400 for an unknown action and for a plan
      change without a new price; 500 when the provider rejects the change.
      None of these writes anything. Otherwise exactly the subscription's
      record changes: `cancel` sets status `canceling` and the cancel flag,
      `reactivate` sets status `active` and clears the flag, a plan change
      sets the new price and an `updatedAt` stamp; all other keys and records
      are kept, and the merged record is returned. */
  function ChangeSubscription(s: Store, tenantId: string, subscriptionId: string, action: Option<Value>, newPriceId: Option<Value>, providerAccepted: bool, clock: Clock): (h: Handled<Option<Record>>)
    ensures h.store.users == s.users && h.store.tenants == s.tenants
    ensures h.response.Fail? ==> h.store == s
    ensures !OwnedBy(s, tenantId, subscriptionId) ==> h == Handled(s, Fail(404, "Subscription not found"))
    ensures OwnedBy(s, tenantId, subscriptionId) && !IsKnownAction(action) ==> h == Handled(s, Fail(400, "Invalid action"))
    ensures OwnedBy(s, tenantId, subscriptionId) && IsPlanChange(action) && !Truthy(newPriceId) ==>
      h == Handled(s, Fail(400, "New price ID required for upgrade/downgrade"))
    ensures OwnedBy(s, tenantId, subscriptionId) && IsKnownAction(action) && !(IsPlanChange(action) && !Truthy(newPriceId)) ==>
      (h.response.Ok? <==> providerAccepted) && (!providerAccepted ==> h == Handled(s, Fail(500, UpdateFailed)))
    ensures h.response.Ok? ==> OwnedBy(s, tenantId, subscriptionId) && IsKnownAction(action) && providerAccepted
  {
    var key := StrKey(subscriptionId);
    match GetSubscriptionById(s, key)
    case None => Handled(s, Fail(404, "Subscription not found"))
    case Some(sub) =>
      if !Matches(sub, "tenantId", StrKey(tenantId)) then Handled(s, Fail(404, "Subscription not found"))
      else ApplyAction(s, key, action, newPriceId, providerAccepted, clock)
  }

  /** The `switch (action)` on a subscription the tenant owns: 400 for an
      unknown action and for a plan change without a new price, 500 when the
      provider rejects the change, and otherwise the action's patch mirrored
      into the record with the id. */
  function ApplyAction(s: Store, key: Option<Value>, action: Option<Value>, newPriceId: Option<Value>, providerAccepted: bool, clock: Clock): (h: Handled<Option<Record>>)
    ensures h.store.users == s.users && h.store.tenants == s.tenants
    ensures h.response.Fail? ==> h.store == s
    ensures !IsKnownAction(action) ==> h == Handled(s, Fail(400, "Invalid action"))
    ensures IsPlanChange(action) && !Truthy(newPriceId) ==> h == Handled(s, Fail(400, "New price ID required for upgrade/downgrade"))
    ensures IsKnownAction(action) && !(IsPlanChange(action) && !Truthy(newPriceId)) ==>
      (h.response.Ok? <==> providerAccepted) && (!providerAccepted ==> h == Handled(s, Fail(500, UpdateFailed)))
    ensures h.response.Ok? ==> IsKnownAction(action) && providerAccepted
  {
    if action == StrKey("cancel") then
      MirrorChange(s, key, CancelPatch, providerAccepted)
    else if action == StrKey("reactivate") then
      MirrorChange(s, key, ReactivatePatch, providerAccepted)
    else if IsPlanChange(action) then
      if !Truthy(newPriceId) then Handled(s, Fail(400, "New price ID required for upgrade/downgrade"))
      else MirrorChange(s, key, map["priceId" := newPriceId.value, "updatedAt" := Str(clock.iso)], providerAccepted)
    else Handled(s, Fail(400, "Invalid action"))
  }

  /** A successful write changed only the subscription at position `i`, kept
      the collection's length, and returned the merged record. */
  ghost predicate WroteOnly(s: Store, h: Handled<Option<Record>>, i: int)
    requires 0 <= i < |s.subscriptions|
  {
    && |h.store.subscriptions| == |s.subscriptions|
    && h.store.subscriptions == s.subscriptions[i := h.store.subscriptions[i]]
    && h.response == Ok(Some(h.store.subscriptions[i]))
  }

  /** A successful `cancel` sets status `canceling` and the cancel flag on the
      subscription and keeps every other key and record. */
  lemma CancelEffect(s: Store, tenantId: string, subscriptionId: string, newPriceId: Option<Value>, providerAccepted: bool, clock: Clock, i: int)
    requires IsFirstIndex(s.subscriptions, "id", StrKey(subscriptionId), i)
    ensures var h := ChangeSubscription(s, tenantId, subscriptionId, StrKey("cancel"), newPriceId, providerAccepted, clock);
      h.response.Ok? ==>
        var before, after := s.subscriptions[i], h.store.subscriptions[i];
        && WroteOnly(s, h, i)
        && Field(after, "status") == StrKey("canceling")
        && Field(after, "cancelAtPeriodEnd") == Some(Bool(true))
        && AgreeExcept(before, after, {"status", "cancelAtPeriodEnd"})
  {
  }

  /** A successful `reactivate` sets status `active` and clears the cancel
      flag on the subscription and keeps every other key and record. */
  lemma ReactivateEffect(s: Store, tenantId: string, subscriptionId: string, newPriceId: Option<Value>, providerAccepted: bool, clock: Clock, i: int)
    requires IsFirstIndex(s.subscriptions, "id", StrKey(subscriptionId), i)
    ensures var h := ChangeSubscription(s, tenantId, subscriptionId, StrKey("reactivate"), newPriceId, providerAccepted, clock);
      h.response.Ok? ==>
        var before, after := s.subscriptions[i], h.store.subscriptions[i];
        && WroteOnly(s, h, i)
        && Field(after, "status") == StrKey("active")
        && Field(after, "cancelAtPeriodEnd") == Some(Bool(false))
        && AgreeExcept(before, after, {"status", "cancelAtPeriodEnd"})
  {
  }

  /** A successful `upgrade` or `downgrade` sets the new price and an
      `updatedAt` stamp on the subscription and keeps every other key and
      record. */
  lemma PlanChangeEffect(s: Store, tenantId: string, subscriptionId: string, action: Option<Value>, newPriceId: Option<Value>, providerAccepted: bool, clock: Clock, i: int)
    requires IsFirstIndex(s.subscriptions, "id", StrKey(subscriptionId), i)
    requires IsPlanChange(action)
    ensures var h := ChangeSubscription(s, tenantId, subscriptionId, action, newPriceId, providerAccepted, clock);
      h.response.Ok? ==>
        var before, after := s.subscriptions[i], h.store.subscriptions[i];
        && WroteOnly(s, h, i)
        && Field(after, "priceId") == newPriceId
        && Field(after, "updatedAt") == StrKey(clock.iso)
        && AgreeExcept(before, after, {"priceId", "updatedAt"})
  {
    var h := ChangeSubscription(s, tenantId, subscriptionId, action, newPriceId, providerAccepted, clock);
    if h.response.Ok? {
      var patch := map["priceId" := newPriceId.value, "updatedAt" := Str(clock.iso)];
      assert action != StrKey("cancel") && action != StrKey("reactivate");
      assert h == ApplyAction(s, StrKey(subscriptionId), action, newPriceId, true, clock);
      assert h == MirrorChange(s, StrKey(subscriptionId), patch, true);
      MirrorEffect(s, StrKey(subscriptionId), patch, i);
    }
  }

  /** A mirrored change merges the patch into the first record with the id
      and nowhere else. */
  lemma MirrorEffect(s: Store, key: Option<Value>, patch: Record, i: int)
    requires IsFirstIndex(s.subscriptions, "id", key, i)
    ensures var h := MirrorChange(s, key, patch, true);
      var after := Merge(s.subscriptions[i], patch);
      && h.store.subscriptions == s.subscriptions[i := after]
      && h.response == Ok(Some(after))
      && AgreeExcept(s.subscriptions[i], after, patch.Keys)
      && forall k :: k in patch ==> Field(after, k) == Some(patch[k])
  {
  }

  /** On a subscription the tenant owns, an accepted `cancel` or
      `reactivate` is the mirrored merge of its patch. */
  lemma OwnedToggle(s: Store, tenantId: string, subscriptionId: string, clock: Clock, i: int)
    requires IsFirstIndex(s.subscriptions, "id", StrKey(subscriptionId), i)
    requires Matches(s.subscriptions[i], "tenantId", StrKey(tenantId))
    ensures ChangeSubscription(s, tenantId, subscriptionId, StrKey("cancel"), None, true, clock) ==
      MirrorChange(s, StrKey(subscriptionId), CancelPatch, true)
    ensures ChangeSubscription(s, tenantId, subscriptionId, StrKey("reactivate"), None, true, clock) ==
      MirrorChange(s, StrKey(subscriptionId), ReactivatePatch, true)
  {
  }

  /** Reactivating a cancelled subscription leaves the same store as
      reactivating it directly. */
  lemma ReactivateAfterCancel(s: Store, tenantId: string, subscriptionId: string, clock: Clock, i: int)
    requires IsFirstIndex(s.subscriptions, "id", StrKey(subscriptionId), i)
    requires Matches(s.subscriptions[i], "tenantId", StrKey(tenantId))
    ensures var cancelled := ChangeSubscription(s, tenantId, subscriptionId, StrKey("cancel"), None, true, clock).store;
      ChangeSubscription(cancelled, tenantId, subscriptionId, StrKey("reactivate"), None, true, clock).store ==
        ChangeSubscription(s, tenantId, subscriptionId, StrKey("reactivate"), None, true, clock).store
  {
    var key := StrKey(subscriptionId);
    OwnedToggle(s, tenantId, subscriptionId, clock, i);
    OwnershipKept(s, tenantId, subscriptionId, CancelPatch, i);
    OwnedToggle(MirrorChange(s, key, CancelPatch, true).store, tenantId, subscriptionId, clock, i);
    MirrorTwice(s, key, CancelPatch, ReactivatePatch);
  }

  /** A mirrored patch that touches neither `id` nor `tenantId` leaves the
      subscription first under its id and owned by the same tenant. */
  lemma OwnershipKept(s: Store, tenantId: string, subscriptionId: string, patch: Record, i: int)
    requires IsFirstIndex(s.subscriptions, "id", StrKey(subscriptionId), i)
    requires Matches(s.subscriptions[i], "tenantId", StrKey(tenantId))
    requires "id" !in patch && "tenantId" !in patch
    ensures var after := MirrorChange(s, StrKey(subscriptionId), patch, true).store.subscriptions;
      IsFirstIndex(after, "id", StrKey(subscriptionId), i) && Matches(after[i], "tenantId", StrKey(tenantId))
  {
  }

  /** Two mirrored merges into the same record, where the second patch
      covers every key of the first, leave what the second alone leaves. */
  lemma MirrorTwice(s: Store, key: Option<Value>, first: Record, second: Record)
    requires "id" !in first && first.Keys <= second.Keys
    ensures MirrorChange(MirrorChange(s, key, first, true).store, key, second, true).store ==
      MirrorChange(s, key, second, true).store
  {
    UpdateOverridden(s.subscriptions, key, first, second);
  }

  /** For a subscription that is active and not set to cancel, cancel followed
      by reactivate restores the store. */
  lemma CancelThenReactivateRestores(s: Store, tenantId: string, subscriptionId: string, clock: Clock, i: int)
    requires IsFirstIndex(s.subscriptions, "id", StrKey(subscriptionId), i)
    requires Matches(s.subscriptions[i], "tenantId", StrKey(tenantId))
    requires Matches(s.subscriptions[i], "status", StrKey("active"))
    requires Matches(s.subscriptions[i], "cancelAtPeriodEnd", Some(Bool(false)))
    ensures var cancelled := ChangeSubscription(s, tenantId, subscriptionId, StrKey("cancel"), None, true, clock).store;
      ChangeSubscription(cancelled, tenantId, subscriptionId, StrKey("reactivate"), None, true, clock).store == s
  {
    ReactivateAfterCancel(s, tenantId, subscriptionId, clock, i);
    OwnedToggle(s, tenantId, subscriptionId, clock, i);
    UpdateUnchanged(s.subscriptions, StrKey(subscriptionId), ReactivatePatch, i);
  }
}
