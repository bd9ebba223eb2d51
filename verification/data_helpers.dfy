/**
 The record store and its typed accessors (backend/dataHelpers.js). Each of
 the three collections is an ordered sequence of records; a lookup is a linear
 scan, a create appends one stamped record, an update shallow-merges a patch
 into the first record whose `id` matches. File reads and writes are replaced
 by passing the collections in and returning the new ones.
 */
module DataHelpers {
  import opened Json
  import opened Records
  import Decimal

  /** The three persisted collections. */
  datatype Store = Store(users: seq<Record>, tenants: seq<Record>, subscriptions: seq<Record>)

  /** The two clock readings a create takes: `Date.now()` in milliseconds
      (used in generated ids) and `new Date().toISOString()` (used in
      timestamps). The source reads them separately, so they are independent. */
  datatype Clock = Clock(millis: nat, iso: string)

  /** The store after a create, and the record that was created. */
  datatype Created = Created(store: Store, record: Record)

  /** The store after an update, and the merged record (absent for `null`). */
  datatype Changed = Changed(store: Store, result: Option<Record>)

  /** `${prefix}_${Date.now()}` */
  function GeneratedId(prefix: string, millis: nat): string
  {
    prefix + "_" + Decimal.FromNat(millis)
  }

  /** A generated id is the prefix, an underscore, and decimal digits that
      read back as the millisecond count. */
  lemma GeneratedIdParses(prefix: string, millis: nat)
    ensures var id := GeneratedId(prefix, millis);
      && |id| > |prefix| + 1 && id[..|prefix|] == prefix && id[|prefix|] == '_'
      && Decimal.AllDigits(id[|prefix| + 1..]) && Decimal.ToNat(id[|prefix| + 1..]) == millis
  {
    Decimal.RoundTrip(millis);
    assert GeneratedId(prefix, millis)[|prefix| + 1..] == Decimal.FromNat(millis);
  }

  /** Two generated ids with the same prefix collide exactly when the two
      creates read the same millisecond. */
  lemma GeneratedIdInjective(prefix: string, a: nat, b: nat)
    ensures GeneratedId(prefix, a) == GeneratedId(prefix, b) <==> a == b
  {
    if GeneratedId(prefix, a) == GeneratedId(prefix, b) {
      var n := |prefix| + 1;
      assert Decimal.FromNat(a) == GeneratedId(prefix, a)[n..];
      assert Decimal.FromNat(b) == GeneratedId(prefix, b)[n..];
      Decimal.Injective(a, b);
    }
  }

  /** The object literal `{ id, ...data, ...trailer }` of the create
      operations: a key of the trailer always wins, a key of the data wins over
      the generated `id`. */
  function Stamp(id: string, data: Record, trailer: Record): (r: Record)
    ensures r.Keys == {"id"} + data.Keys + trailer.Keys
    ensures forall k :: k in trailer ==> r[k] == trailer[k]
    ensures forall k :: k in data && k !in trailer ==> r[k] == data[k]
    ensures "id" !in trailer ==> r["id"] == if "id" in data then data["id"] else Str(id)
  {
    Merge(Merge(map["id" := Str(id)], data), trailer)
  }

  // User operations

  /** `getUserById`: the first user whose `id` equals the argument. */
  function GetUserById(s: Store, id: Option<Value>): (r: Option<Record>)
    ensures FirstMatch(s.users, "id", id, r)
  {
    Find(s.users, "id", id)
  }

  /** `getUserByEmail`: the first user whose `email` equals the argument;
      comparison is exact, with no case folding. */
  function GetUserByEmail(s: Store, email: Option<Value>): (r: Option<Record>)
    ensures FirstMatch(s.users, "email", email, r)
  {
    Find(s.users, "email", email)
  }

  /** `createUser`: appends `{ id: user_<millis>, ...data, createdAt }`. */
  function CreateUser(s: Store, data: Record, clock: Clock): (c: Created)
    ensures c.store == s.(users := s.users + [c.record])
    ensures c.record.Keys == data.Keys + {"id", "createdAt"}
    ensures c.record["createdAt"] == Str(clock.iso)
    ensures c.record["id"] == if "id" in data then data["id"] else Str(GeneratedId("user", clock.millis))
    ensures forall k :: k in data && k != "createdAt" ==> c.record[k] == data[k]
  {
    var user := Stamp(GeneratedId("user", clock.millis), data, map["createdAt" := Str(clock.iso)]);
    Created(s.(users := s.users + [user]), user)
  }

  // Tenant operations

  /** `getTenantsByUserId`: the tenants whose `userId` equals the argument,
      in store order. */
  function GetTenantsByUserId(s: Store, userId: Option<Value>): (r: seq<Record>)
    ensures Selected(s.tenants, "userId", userId, r)
  {
    FilterBySelected(s.tenants, "userId", userId);
    FilterBy(s.tenants, "userId", userId)
  }

  /** `getTenantById`: the first tenant whose `id` equals the argument. */
  function GetTenantById(s: Store, id: Option<Value>): (r: Option<Record>)
    ensures FirstMatch(s.tenants, "id", id, r)
  {
    Find(s.tenants, "id", id)
  }

  /** `createTenant`: appends
      `{ id: tenant_<millis>, ...data, createdAt, stripeCustomerId: null }`;
      the two trailing keys override anything the data supplies. */
  function CreateTenant(s: Store, data: Record, clock: Clock): (c: Created)
    ensures c.store == s.(tenants := s.tenants + [c.record])
    ensures c.record.Keys == data.Keys + {"id", "createdAt", "stripeCustomerId"}
    ensures c.record["createdAt"] == Str(clock.iso)
    ensures c.record["stripeCustomerId"] == Null
    ensures c.record["id"] == if "id" in data then data["id"] else Str(GeneratedId("tenant", clock.millis))
    ensures forall k :: k in data && k != "createdAt" && k != "stripeCustomerId" ==> c.record[k] == data[k]
  {
    var tenant := Stamp(GeneratedId("tenant", clock.millis), data,
                        map["createdAt" := Str(clock.iso), "stripeCustomerId" := Null]);
    Created(s.(tenants := s.tenants + [tenant]), tenant)
  }

  /** `updateTenant`: merges the patch into the first tenant whose `id`
      matches; with no match nothing is written and the result is `null`. */
  function UpdateTenant(s: Store, id: Option<Value>, patch: Record): (c: Changed)
    ensures c.store.users == s.users && c.store.subscriptions == s.subscriptions
    ensures IsFirstUpdate(s.tenants, id, patch, Updated(c.store.tenants, c.result))
  {
    var u := UpdateById(s.tenants, id, patch);
    Changed(s.(tenants := u.records), u.result)
  }

  // Subscription operations

  /** `getSubscriptionsByTenantId`: the subscriptions whose `tenantId` equals
      the argument, in store order. */
  function GetSubscriptionsByTenantId(s: Store, tenantId: Option<Value>): (r: seq<Record>)
    ensures Selected(s.subscriptions, "tenantId", tenantId, r)
  {
    FilterBySelected(s.subscriptions, "tenantId", tenantId);
    FilterBy(s.subscriptions, "tenantId", tenantId)
  }

  /** `getSubscriptionById`: the first subscription whose `id` equals the
      argument. */
  function GetSubscriptionById(s: Store, id: Option<Value>): (r: Option<Record>)
    ensures FirstMatch(s.subscriptions, "id", id, r)
  {
    Find(s.subscriptions, "id", id)
  }

  /** `createSubscription`: appends `{ id: sub_<millis>, ...data, createdAt }`. */
  function CreateSubscription(s: Store, data: Record, clock: Clock): (c: Created)
    ensures c.store == s.(subscriptions := s.subscriptions + [c.record])
    ensures c.record.Keys == data.Keys + {"id", "createdAt"}
    ensures c.record["createdAt"] == Str(clock.iso)
    ensures c.record["id"] == if "id" in data then data["id"] else Str(GeneratedId("sub", clock.millis))
    ensures forall k :: k in data && k != "createdAt" ==> c.record[k] == data[k]
  {
    var subscription := Stamp(GeneratedId("sub", clock.millis), data, map["createdAt" := Str(clock.iso)]);
    Created(s.(subscriptions := s.subscriptions + [subscription]), subscription)
  }

  /** `updateSubscription`: merges the patch into the first subscription whose
      `id` matches; with no match nothing is written and the result is `null`. */
  function UpdateSubscription(s: Store, id: Option<Value>, patch: Record): (c: Changed)
    ensures c.store.users == s.users && c.store.tenants == s.tenants
    ensures IsFirstUpdate(s.subscriptions, id, patch, Updated(c.store.subscriptions, c.result))
  {
    var u := UpdateById(s.subscriptions, id, patch);
    Changed(s.(subscriptions := u.records), u.result)
  }

  /** A created tenant is listed for its owner after every tenant that was
      listed before, and the lists of other owners do not change. */
  lemma CreatedTenantListedLast(s: Store, data: Record, clock: Clock, userId: Option<Value>)
    ensures var c := CreateTenant(s, data, clock);
      GetTenantsByUserId(c.store, userId) ==
        GetTenantsByUserId(s, userId) + (if Matches(c.record, "userId", userId) then [c.record] else [])
  {
    var c := CreateTenant(s, data, clock);
    FilterAppend(s.tenants, [c.record], "userId", userId);
    assert FilterBy([c.record], "userId", userId) == (if Matches(c.record, "userId", userId) then [c.record] else []) + [];
  }

  /** After `createUser`, looking the new user up by email finds it, unless an
      earlier user already has that email (the earlier one is found). */
  lemma CreatedUserFoundByEmail(s: Store, data: Record, clock: Clock)
    requires "email" in data
    ensures var c := CreateUser(s, data, clock);
      GetUserByEmail(c.store, Some(data["email"])) ==
        if NoMatch(s.users, "email", Some(data["email"])) then Some(c.record)
        else GetUserByEmail(s, Some(data["email"]))
  {
    var c := CreateUser(s, data, clock);
    FindAfterAppend(s.users, c.record, "email", Some(data["email"]));
  }

  /** Emails that differ only in letter case are different keys. */
  lemma EmailLookupIsCaseSensitive()
    ensures var s := Store([map["id" := Str("user_1"), "email" := Str("A@b.com")]], [], []);
      && GetUserByEmail(s, StrKey("a@b.com")) == None
      && GetUserByEmail(s, StrKey("A@b.com")) == Some(s.users[0])
  {
  }
}
