/**
 * `ListingService`: the food-listing operations around the notification
 * fan-out. Recipient selection (`find_nearby_users`), the hand-off to the
 * notification service after a listing is committed, listing creation, the
 * whitelisted update, the soft delete and the search.
 *
 * The users and listings tables are sequences of rows held by `ListingStore`.
 * PostGIS's `ST_DWithin` is the `within` field of `Database`; `online` says
 * whether the database answers at all.
 */
module ListingService {

  import opened Wrappers
  import opened Values
  import opened NotificationObserver

  datatype UserRole = Vendor | Charity | Individual | Admin

  datatype ListingStatus = Available | Claimed | Completed | Expired | Cancelled

  /** The stored value of a status (the `value` of the Python enum). */
  function StatusValue(s: ListingStatus): string
  {
    match s
    case Available => "available"
    case Claimed => "claimed"
    case Completed => "completed"
    case Expired => "expired"
    case Cancelled => "cancelled"
  }

  function RoleValue(r: UserRole): string
  {
    match r
    case Vendor => "vendor"
    case Charity => "charity"
    case Individual => "individual"
    case Admin => "admin"
  }

  datatype Point = Point(lat: real, lon: real)

  /** A row of the users table, with the columns this core reads. */
  datatype User = User(
    id: int,
    email: string,
    name: string,
    role: UserRole,
    phone: Option<string>,
    location: Option<Point>,
    verified: Option<bool>)

  /** A row of the food listings table. `attrs` holds the columns by name, since
      `update_listing` sets them from an arbitrary request body. */
  datatype FoodListing = FoodListing(id: int, vendorId: int, attrs: Dict, createdAt: int)

  /** The database as the queries see it: whether it answers, and the spatial
      test `ST_DWithin(location, origin, radius)` with the radius in kilometres. */
  datatype Database = Database(online: bool, within: (Point, Point, real) -> bool)

  /** The radius `_notify_nearby_users` searches, in kilometres. */
  const DefaultRadiusKm: real := 5.0

  // ---------------------------------------------------------------------------
  // Filtering a table.
  // ---------------------------------------------------------------------------

  /** The rows of `s` that satisfy `keep`, in table order. */
  function Filter<T>(s: seq<T>, keep: T -> bool): seq<T>
  {
    if s == [] then []
    else Filter(s[..|s| - 1], keep) + (if keep(s[|s| - 1]) then [s[|s| - 1]] else [])
  }

  /** A filter keeps exactly the rows that satisfy its condition. */
  lemma {:induction false} FilterExactly<T>(s: seq<T>, keep: T -> bool)
    ensures |Filter(s, keep)| <= |s|
    ensures forall x :: x in Filter(s, keep) ==> x in s && keep(x)
    ensures forall i :: 0 <= i < |s| && keep(s[i]) ==> s[i] in Filter(s, keep)
  {
    if s != [] {
      var init := s[..|s| - 1];
      FilterExactly(init, keep);
      forall i | 0 <= i < |s| - 1 ensures s[i] == init[i] { }
    }
  }

  /** Two conditions that agree on every row of the table select the same rows. */
  lemma {:induction false} FilterAgree<T>(s: seq<T>, p: T -> bool, q: T -> bool)
    requires forall i :: 0 <= i < |s| ==> p(s[i]) == q(s[i])
    ensures Filter(s, p) == Filter(s, q)
  {
    if s != [] {
      FilterAgree(s[..|s| - 1], p, q);
    }
  }

  // ---------------------------------------------------------------------------
  // find_nearby_users
  // ---------------------------------------------------------------------------

  /** `if exclude_user_id:` — only a present, non-zero id excludes anyone. */
  predicate Excluded(u: User, excludeUserId: Option<int>)
  {
    excludeUserId.Some? && excludeUserId.value != 0 && u.id == excludeUserId.value
  }

  /** The conditions of the selection query: a location, within the radius, not the
      excluded user, and `verified == True` (a NULL flag does not match). */
  predicate NearbyCandidate(u: User, db: Database, origin: Point, radiusKm: real, excludeUserId: Option<int>)
  {
    && u.location.Some?
    && db.within(u.location.value, origin, radiusKm)
    && !Excluded(u, excludeUserId)
    && u.verified == Some(true)
  }

  /** `find_nearby_users`: the selected users, or `[]` when the query raises. */
  function FindNearbyUsers(users: seq<User>, db: Database, origin: Point, radiusKm: real, excludeUserId: Option<int>): seq<User>
  {
    if !db.online then []
    else Filter(users, u => NearbyCandidate(u, db, origin, radiusKm, excludeUserId))
  }

  /** Every selected user has a location within the radius, is verified and is not
      the excluded user; every such user of the table is selected; a failing query
      yields the empty list. */
  lemma FindNearbyUsersExactly(users: seq<User>, db: Database, origin: Point, radiusKm: real, excludeUserId: Option<int>)
    ensures !db.online ==> FindNearbyUsers(users, db, origin, radiusKm, excludeUserId) == []
    ensures forall u :: u in FindNearbyUsers(users, db, origin, radiusKm, excludeUserId) ==>
      && u in users
      && u.location.Some? && db.within(u.location.value, origin, radiusKm)
      && u.verified == Some(true)
      && !Excluded(u, excludeUserId)
    ensures db.online ==> forall i :: 0 <= i < |users| && NearbyCandidate(users[i], db, origin, radiusKm, excludeUserId) ==>
      users[i] in FindNearbyUsers(users, db, origin, radiusKm, excludeUserId)
  {
    if db.online {
      FilterExactly(users, u => NearbyCandidate(u, db, origin, radiusKm, excludeUserId));
    }
  }

  /** `None` and `0` are falsy: passing either excludes nobody. */
  lemma FalsyExcludeExcludesNobody(users: seq<User>, db: Database, origin: Point, radiusKm: real)
    ensures FindNearbyUsers(users, db, origin, radiusKm, Some(0)) == FindNearbyUsers(users, db, origin, radiusKm, None)
  {
    if db.online {
      FilterAgree(users, u => NearbyCandidate(u, db, origin, radiusKm, Some(0)),
                         u => NearbyCandidate(u, db, origin, radiusKm, None));
    }
  }

  // ---------------------------------------------------------------------------
  // search_listings and get_vendor_listings
  // ---------------------------------------------------------------------------

  /** The pickup point of a listing, from its `latitude` and `longitude` columns
      (`None` when either is not a number). */
  function ListingLocation(l: FoodListing): Option<Point>
  {
    var lat, lon := Numeric(Get(l.attrs, "latitude")), Numeric(Get(l.attrs, "longitude"));
    if lat.Some? && lon.Some? then Some(Point(lat.value, lon.value)) else None
  }

  /** `expiry_time > now`; a NULL or non-datetime expiry does not match. */
  predicate ExpiresAfter(v: Value, now: int)
  {
    v.Time? && v.t > now
  }

  /** The conditions of the search query: available, not expired, within the radius,
      and of the requested food type when one is given. */
  predicate Searchable(l: FoodListing, db: Database, origin: Point, radiusKm: real, foodType: Value, now: int)
  {
    && Get(l.attrs, "status") == Str(StatusValue(Available))
    && ExpiresAfter(Get(l.attrs, "expiry_time"), now)
    && ListingLocation(l).Some? && db.within(ListingLocation(l).value, origin, radiusKm)
    && (!Truthy(foodType) || PyEquals(Get(l.attrs, "food_type"), foodType))
  }

  ghost predicate NewestFirst(s: seq<FoodListing>)
  {
    forall i, j :: 0 <= i < j < |s| ==> s[i].createdAt >= s[j].createdAt
  }

  /** Inserts `x` into a newest-first list, ahead of the rows that are not newer. */
  function InsertNewestFirst(s: seq<FoodListing>, x: FoodListing): (r: seq<FoodListing>)
    ensures multiset(r) == multiset(s) + multiset{x}
  {
    if s == [] || s[0].createdAt <= x.createdAt then [x] + s
    else
      assert s == [s[0]] + s[1..];
      [s[0]] + InsertNewestFirst(s[1..], x)
  }

  /** Inserting a row no newer than `bound` into rows no newer than `bound` gives
      rows no newer than `bound`. */
  lemma {:induction false} InsertBounded(s: seq<FoodListing>, x: FoodListing, bound: int)
    requires forall k :: 0 <= k < |s| ==> s[k].createdAt <= bound
    requires x.createdAt <= bound
    ensures forall k :: 0 <= k < |InsertNewestFirst(s, x)| ==> InsertNewestFirst(s, x)[k].createdAt <= bound
  {
    if s != [] && s[0].createdAt > x.createdAt {
      InsertBounded(s[1..], x, bound);
    }
  }

  /** Inserting keeps a list newest first. */
  lemma {:induction false} InsertKeepsOrder(s: seq<FoodListing>, x: FoodListing)
    requires NewestFirst(s)
    ensures NewestFirst(InsertNewestFirst(s, x))
  {
    if s != [] && s[0].createdAt > x.createdAt {
      var rest := InsertNewestFirst(s[1..], x);
      InsertKeepsOrder(s[1..], x);
      InsertBounded(s[1..], x, s[0].createdAt);
      assert InsertNewestFirst(s, x) == [s[0]] + rest;
    }
  }

  /** `ORDER BY created_at DESC`: a permutation of the rows, newest first. */
  function SortNewestFirst(s: seq<FoodListing>): (r: seq<FoodListing>)
    ensures multiset(r) == multiset(s)
    ensures NewestFirst(r)
  {
    if s == [] then []
    else
      assert s == [s[0]] + s[1..];
      var sorted := SortNewestFirst(s[1..]);
      InsertKeepsOrder(sorted, s[0]);
      InsertNewestFirst(sorted, s[0])
  }

  /** `.limit(limit).offset(offset)`: skip `offset` rows, then keep at most `limit`. */
  function Page(s: seq<FoodListing>, offset: nat, limit: nat): seq<FoodListing>
  {
    if offset >= |s| then []
    else if offset + limit <= |s| then s[offset..offset + limit]
    else s[offset..]
  }

  /** `search_listings`: the requested page of matching listings, or `[]` when the
      query raises. */
  function SearchListings(
    listings: seq<FoodListing>, db: Database, origin: Point, radiusKm: real,
    foodType: Value, limit: nat, offset: nat, now: int): seq<FoodListing>
  {
    if !db.online then []
    else
      var matching := Filter(listings, l => Searchable(l, db, origin, radiusKm, foodType, now));
      Page(SortNewestFirst(matching), offset, limit)
  }

  lemma PageOf(s: seq<FoodListing>, offset: nat, limit: nat)
    ensures |Page(s, offset, limit)| <= limit
    ensures forall i :: 0 <= i < |Page(s, offset, limit)| ==>
      offset + i < |s| && Page(s, offset, limit)[i] == s[offset + i]
    ensures offset <= |s| ==> |Page(s, offset, limit)| == limit || offset + |Page(s, offset, limit)| == |s|
    ensures forall x :: x in Page(s, offset, limit) ==> x in s
    ensures NewestFirst(s) ==> NewestFirst(Page(s, offset, limit))
    ensures offset == 0 && |s| <= limit ==> Page(s, offset, limit) == s
  {
  }

  /** Consecutive pages tile the ordered rows: the page of `a` rows at `offset`
      followed by the page of `b` rows after it is the page of `a + b` rows. */
  lemma PagesTile(s: seq<FoodListing>, offset: nat, a: nat, b: nat)
    ensures Page(s, offset, a) + Page(s, offset + a, b) == Page(s, offset, a + b)
  {
  }

  /** Consecutive searches with the same filters return consecutive runs of the
      newest-first result: the first `a` rows at `offset` and the `b` rows after
      them are together the first `a + b` rows at `offset`. */
  lemma SearchPagesTile(
    listings: seq<FoodListing>, db: Database, origin: Point, radiusKm: real,
    foodType: Value, a: nat, b: nat, offset: nat, now: int)
    ensures SearchListings(listings, db, origin, radiusKm, foodType, a, offset, now)
      + SearchListings(listings, db, origin, radiusKm, foodType, b, offset + a, now)
      == SearchListings(listings, db, origin, radiusKm, foodType, a + b, offset, now)
  {
    if db.online {
      var matching := Filter(listings, l => Searchable(l, db, origin, radiusKm, foodType, now));
      PagesTile(SortNewestFirst(matching), offset, a, b);
    }
  }

  /** Every search result is an available, unexpired listing of the table within the
      radius (and of the requested type); results are newest first; there are at
      most `limit` of them. */
  lemma SearchListingsSound(
    listings: seq<FoodListing>, db: Database, origin: Point, radiusKm: real,
    foodType: Value, limit: nat, offset: nat, now: int)
    ensures var r := SearchListings(listings, db, origin, radiusKm, foodType, limit, offset, now);
      && |r| <= limit
      && NewestFirst(r)
      && forall l :: l in r ==> l in listings && Searchable(l, db, origin, radiusKm, foodType, now)
  {
    if db.online {
      var keep := l => Searchable(l, db, origin, radiusKm, foodType, now);
      var matching := Filter(listings, keep);
      var sorted := SortNewestFirst(matching);
      FilterExactly(listings, keep);
      PageOf(sorted, offset, limit);
      forall l | l in sorted ensures l in matching {
        assert l in multiset(sorted);
      }
    }
  }

  /** The first page holds every matching listing when they all fit in it. */
  lemma SearchFirstPageComplete(
    listings: seq<FoodListing>, db: Database, origin: Point, radiusKm: real,
    foodType: Value, limit: nat, now: int)
    requires db.online
    requires |Filter(listings, l => Searchable(l, db, origin, radiusKm, foodType, now))| <= limit
    ensures forall i :: 0 <= i < |listings| && Searchable(listings[i], db, origin, radiusKm, foodType, now) ==>
      listings[i] in SearchListings(listings, db, origin, radiusKm, foodType, limit, 0, now)
  {
    var keep := l => Searchable(l, db, origin, radiusKm, foodType, now);
    var matching := Filter(listings, keep);
    var sorted := SortNewestFirst(matching);
    FilterExactly(listings, keep);
    assert |sorted| == |multiset(sorted)| == |multiset(matching)| == |matching|;
    PageOf(sorted, 0, limit);
    forall i | 0 <= i < |listings| && keep(listings[i])
      ensures listings[i] in sorted
    {
      assert listings[i] in multiset(matching);
    }
  }

  /** `get_vendor_listings`: a vendor's listings (of one status when a status is
      given), newest first. */
  function VendorListings(listings: seq<FoodListing>, vendorId: int, status: Value): seq<FoodListing>
  {
    SortNewestFirst(Filter(listings, l => OfVendor(l, vendorId, status)))
  }

  /** The conditions of the vendor query: the vendor's, and of `status` when given. */
  predicate OfVendor(l: FoodListing, vendorId: int, status: Value)
  {
    l.vendorId == vendorId && (!Truthy(status) || PyEquals(Get(l.attrs, "status"), status))
  }

  lemma VendorListingsSound(listings: seq<FoodListing>, vendorId: int, status: Value)
    ensures NewestFirst(VendorListings(listings, vendorId, status))
    ensures forall l :: l in VendorListings(listings, vendorId, status) ==>
      && l in listings && l.vendorId == vendorId
      && (Truthy(status) ==> PyEquals(Get(l.attrs, "status"), status))
    ensures forall i :: 0 <= i < |listings| && listings[i].vendorId == vendorId && !Truthy(status) ==>
      listings[i] in VendorListings(listings, vendorId, status)
    ensures forall i :: 0 <= i < |listings| && listings[i].vendorId == vendorId && PyEquals(Get(listings[i].attrs, "status"), status) ==>
      listings[i] in VendorListings(listings, vendorId, status)
  {
    var keep := l => OfVendor(l, vendorId, status);
    var matching := Filter(listings, keep);
    var sorted := SortNewestFirst(matching);
    FilterExactly(listings, keep);
    forall l | l in sorted ensures l in matching {
      assert l in multiset(sorted);
    }
    forall i | 0 <= i < |listings| && keep(listings[i]) ensures listings[i] in sorted {
      assert listings[i] in multiset(matching);
    }
  }

  // ---------------------------------------------------------------------------
  // Row lookups by primary key (`Model.query.get(id)`).
  // ---------------------------------------------------------------------------

  function FindUser(users: seq<User>, id: int): (r: Option<User>)
    ensures r.Some? ==> r.value in users && r.value.id == id
    ensures r.None? ==> forall i :: 0 <= i < |users| ==> users[i].id != id
  {
    if users == [] then None
    else if users[0].id == id then Some(users[0])
    else FindUser(users[1..], id)
  }

  function FindListingIndex(listings: seq<FoodListing>, id: int): (r: Option<nat>)
    ensures r.Some? ==> r.value < |listings| && listings[r.value].id == id
    ensures r.None? ==> forall i :: 0 <= i < |listings| ==> listings[i].id != id
  {
    if listings == [] then None
    else if listings[0].id == id then Some(0)
    else
      match FindListingIndex(listings[1..], id)
      case None => None
      case Some(i) => Some(i + 1)
  }

  // ---------------------------------------------------------------------------
  // create_listing
  // ---------------------------------------------------------------------------

  /** The keys `create_listing` reads with `listing_data[...]`, in the order the
      constructor call evaluates them. */
  const RequiredFields: seq<string> :=
    ["title", "quantity", "unit", "food_type", "expiry_time", "pickup_address", "latitude", "longitude"]

  /** The first of `keys` missing from `d`: the `KeyError` the lookups raise. */
  function FirstMissing(d: Dict, keys: seq<string>): (r: Option<string>)
    ensures r.None? <==> HasKeys(d, keys)
    ensures r.Some? ==> r.value in keys && r.value !in d
    ensures r.Some? ==> exists j :: 0 <= j < |keys| && keys[j] == r.value && HasKeys(d, keys[..j])
  {
    if keys == [] then None
    else if keys[0] !in d then
      assert HasKeys(d, keys[..0]);
      Some(keys[0])
    else
      var r := FirstMissing(d, keys[1..]);
      if r.Some? then
        var j :| 0 <= j < |keys[1..]| && keys[1..][j] == r.value && HasKeys(d, keys[1..][..j]);
        assert keys[..j + 1] == [keys[0]] + keys[1..][..j];
        assert HasKeys(d, keys[..j + 1]);
        r
      else r
  }

  /** The columns `create_listing` copies from the request: the required ones with
      `listing_data[...]`, the optional ones with `listing_data.get(...)`. */
  const CopiedColumns: set<string> := {
    "title", "description", "quantity", "unit", "food_type", "expiry_time",
    "pickup_start_time", "pickup_end_time", "pickup_address", "latitude",
    "longitude", "image_url", "special_instructions"}

  /** The row `create_listing` builds: the copied columns (`None` for an optional one
      left out) and status `AVAILABLE`. */
  function NewListing(id: int, vendorId: int, data: Dict, now: int): FoodListing
  {
    var copied := map k | k in CopiedColumns :: Get(data, k);
    FoodListing(id, vendorId, copied["status" := Str(StatusValue(Available))], now)
  }

  /** What `create_listing` returns or raises, given the users table, the id the
      database assigns and the clock. */
  function CreateResult(users: seq<User>, newId: int, vendorId: int, data: Dict, now: int): Result<FoodListing, PyError>
  {
    var vendor := FindUser(users, vendorId);
    if vendor.None? || vendor.value.role != Vendor then Failure(ValueError("Invalid vendor"))
    else
      match FirstMissing(data, RequiredFields)
      case Some(k) => Failure(KeyError(k))
      case None => Success(NewListing(newId, vendorId, data, now))
  }

  /** Only a user of the table with role `VENDOR` can create a listing; the new
      listing belongs to that vendor, is `AVAILABLE` and carries the request's
      values. */
  lemma CreateListingSound(users: seq<User>, newId: int, vendorId: int, data: Dict, now: int)
    ensures var r := CreateResult(users, newId, vendorId, data, now);
      r.Success? ==>
        && (exists u :: u in users && u.id == vendorId && u.role == Vendor)
        && r.value.id == newId && r.value.vendorId == vendorId && r.value.createdAt == now
        && r.value.attrs["status"] == Str(StatusValue(Available))
        && forall i :: 0 <= i < |RequiredFields| ==> RequiredFields[i] in data && r.value.attrs[RequiredFields[i]] == data[RequiredFields[i]]
    ensures (forall u :: u in users && u.id == vendorId ==> u.role != Vendor) ==>
      CreateResult(users, newId, vendorId, data, now) == Failure(ValueError("Invalid vendor"))
  {
    var r := CreateResult(users, newId, vendorId, data, now);
    if r.Success? {
      var v := FindUser(users, vendorId).value;
      assert v in users && v.id == vendorId && v.role == Vendor;
      NewListingCarries(newId, vendorId, data, now);
    }
  }

  /** The columns of a new listing: the request's value of every copied column
      (`None` for an optional one it leaves out), and `AVAILABLE`; no other key of
      the request is kept. */
  lemma NewListingCarries(id: int, vendorId: int, data: Dict, now: int)
    requires HasKeys(data, RequiredFields)
    ensures NewListing(id, vendorId, data, now).attrs["status"] == Str(StatusValue(Available))
    ensures forall i :: 0 <= i < |RequiredFields| ==>
      RequiredFields[i] in data && NewListing(id, vendorId, data, now).attrs[RequiredFields[i]] == data[RequiredFields[i]]
    ensures NewListing(id, vendorId, data, now).attrs.Keys == CopiedColumns + {"status"}
    ensures forall k :: k in CopiedColumns && k !in data ==> NewListing(id, vendorId, data, now).attrs[k] == Null
    ensures forall k :: k in CopiedColumns && k in data ==> NewListing(id, vendorId, data, now).attrs[k] == data[k]
  {
  }

  /** The vendor found by id is accepted: the listing is created exactly when the
      request holds every required field, and otherwise the error names a missing
      one. */
  lemma CreateListingComplete(users: seq<User>, newId: int, vendorId: int, data: Dict, now: int)
    requires FindUser(users, vendorId).Some? && FindUser(users, vendorId).value.role == Vendor
    ensures HasKeys(data, RequiredFields) <==> CreateResult(users, newId, vendorId, data, now).Success?
    ensures !HasKeys(data, RequiredFields) ==>
      var e := CreateResult(users, newId, vendorId, data, now);
      e.Failure? && e.error.KeyError? && e.error.key in RequiredFields && e.error.key !in data
  {
  }

  // ---------------------------------------------------------------------------
  // The dictionaries handed to the notification service, and the calls it makes.
  // ---------------------------------------------------------------------------

  /** `user.to_dict()`, restricted to the keys the notifiers read and a few more. */
  function UserDict(u: User): Dict
  {
    map[
      "id" := Int(u.id),
      "email" := Str(u.email),
      "name" := Str(u.name),
      "role" := Str(RoleValue(u.role)),
      "phone" := (if u.phone.Some? then Str(u.phone.value) else Null),
      "verified" := (if u.verified.Some? then Bool(u.verified.value) else Null)]
  }

  function UserDicts(us: seq<User>): (ds: seq<Dict>)
    ensures |ds| == |us|
    ensures forall i :: 0 <= i < |us| ==> ds[i] == UserDict(us[i])
  {
    seq(|us|, i requires 0 <= i < |us| => UserDict(us[i]))
  }

  /** `listing.to_dict()`: every key is present, with `None` for an empty column. */
  function ListingDict(l: FoodListing): Dict
  {
    map[
      "id" := Int(l.id),
      "vendor_id" := Int(l.vendorId),
      "title" := Get(l.attrs, "title"),
      "description" := Get(l.attrs, "description"),
      "quantity" := Get(l.attrs, "quantity"),
      "unit" := Get(l.attrs, "unit"),
      "food_type" := Get(l.attrs, "food_type"),
      "expiry_time" := Get(l.attrs, "expiry_time"),
      "pickup_start_time" := Get(l.attrs, "pickup_start_time"),
      "pickup_end_time" := Get(l.attrs, "pickup_end_time"),
      "pickup_address" := Get(l.attrs, "pickup_address"),
      "latitude" := Get(l.attrs, "latitude"),
      "longitude" := Get(l.attrs, "longitude"),
      "status" := Get(l.attrs, "status"),
      "image_url" := Get(l.attrs, "image_url"),
      "special_instructions" := Get(l.attrs, "special_instructions"),
      "created_at" := Time(l.createdAt)]
  }

  /** The users `_notify_nearby_users` selects: 5 km around the listing's pickup
      point, its vendor excluded. A pickup point that is not a pair of numbers makes
      the query fail, which yields `[]`. */
  function NearbyUsersOf(l: FoodListing, users: seq<User>, db: Database): seq<User>
  {
    match ListingLocation(l)
    case None => []
    case Some(p) => FindNearbyUsers(users, db, p, DefaultRadiusKm, Some(l.vendorId))
  }

  /** The observer calls `_notify_nearby_users` causes: none when nobody is nearby. */
  function NearbyCalls(l: FoodListing, users: seq<User>, db: Database, obs: seq<Observer>): seq<Call>
  {
    var nearby := NearbyUsersOf(l, users, db);
    if nearby == [] then [] else NotifyCalls(ListingDict(l), UserDicts(nearby), obs)
  }

  /** The vendor of a listing is never notified about it: the selection leaves it out
      when its id is truthy, and `notify` skips it in every case (also for id 0). */
  lemma VendorNeverNotified(l: FoodListing, users: seq<User>, db: Database, obs: seq<Observer>)
    ensures forall c :: c in NearbyCalls(l, users, db, obs) ==>
      "id" in c.user && c.user["id"] != Int(l.vendorId)
    ensures l.vendorId != 0 ==> forall u :: u in NearbyUsersOf(l, users, db) ==> u.id != l.vendorId
  {
    var nearby := NearbyUsersOf(l, users, db);
    if ListingLocation(l).Some? {
      FindNearbyUsersExactly(users, db, ListingLocation(l).value, DefaultRadiusKm, Some(l.vendorId));
    }
    if nearby != [] {
      var ld := ListingDict(l);
      NotifySkipsVendor(ld, UserDicts(nearby), obs);
      DictsKeyed(l, nearby);
    }
  }

  /** The keys of the dictionaries that `notify` reads outside its `try`. */
  lemma DictsKeyed(l: FoodListing, us: seq<User>)
    ensures "title" in ListingDict(l) && "vendor_id" in ListingDict(l)
    ensures ListingDict(l)["vendor_id"] == Int(l.vendorId)
    ensures forall i :: 0 <= i < |us| ==> Keyed(ListingDict(l), UserDicts(us)[i]) && UserDicts(us)[i]["id"] == Int(us[i].id)
  {
  }

  /** The hand-off to `notify` never raises: the listing dict has a `title` and a
      `vendor_id` and every user dict an `id`. When the vendor id is truthy every
      nearby user is notified through every observer. */
  lemma NearbyNotifyReturns(l: FoodListing, users: seq<User>, db: Database, obs: seq<Observer>, foreign: ForeignUpdate)
    ensures NotifyResult(ListingDict(l), UserDicts(NearbyUsersOf(l, users, db)), obs, foreign).Success?
    ensures l.vendorId != 0 ==>
      NearbyCalls(l, users, db, obs) == Fanout(UserDicts(NearbyUsersOf(l, users, db)), obs)
    ensures l.vendorId != 0 ==>
      |NearbyCalls(l, users, db, obs)| == |NearbyUsersOf(l, users, db)| * |obs|
  {
    var ld := ListingDict(l);
    var nearby := NearbyUsersOf(l, users, db);
    var uds := UserDicts(nearby);
    DictsKeyed(l, nearby);
    NotifyReturns(ld, uds, obs, foreign);
    NotifyCountBound(ld, uds, obs, foreign);
    if l.vendorId != 0 && nearby != [] {
      VendorNeverNotified(l, users, db, obs);
      forall i | 0 <= i < |uds| ensures Addressee(ld, uds[i]) {
        assert nearby[i] in nearby;
        PyEqualsInt(nearby[i].id, l.vendorId);
      }
      RecipientsAll(ld, uds);
      FanoutLength(uds, obs);
    }
  }

  // ---------------------------------------------------------------------------
  // update_listing and delete_listing
  // ---------------------------------------------------------------------------

  /** The fields `update_listing` copies from the request, in its order. */
  const AllowedFields: seq<string> := [
    "title", "description", "quantity", "unit", "food_type",
    "expiry_time", "pickup_start_time", "pickup_end_time",
    "special_instructions", "status"]

  /** The columns after `setattr` of each of `fields` that `update` holds. */
  function PatchAttrs(attrs: Dict, update: Dict, fields: seq<string>): Dict
  {
    if fields == [] then attrs
    else
      var f := fields[|fields| - 1];
      var patched := PatchAttrs(attrs, update, fields[..|fields| - 1]);
      if f in update then patched[f := update[f]] else patched
  }

  /** The listing after `update_listing` has applied `update`. */
  function Patched(l: FoodListing, update: Dict): FoodListing
  {
    l.(attrs := PatchAttrs(l.attrs, update, AllowedFields))
  }

  /** A column ends up with the request's value exactly when it is one of the
      fields and present in the request; every other column keeps its value. */
  lemma {:induction false} PatchAttrsAt(attrs: Dict, update: Dict, fields: seq<string>)
    ensures forall k :: k in PatchAttrs(attrs, update, fields) <==> k in attrs || (k in fields && k in update)
    ensures forall k :: k in fields && k in update ==> PatchAttrs(attrs, update, fields)[k] == update[k]
    ensures forall k :: k !in fields && k in attrs ==> PatchAttrs(attrs, update, fields)[k] == attrs[k]
    ensures forall k :: k !in update && k in attrs ==> PatchAttrs(attrs, update, fields)[k] == attrs[k]
  {
    if fields != [] {
      var init := fields[..|fields| - 1];
      PatchAttrsAt(attrs, update, init);
      assert forall k :: k in fields <==> k in init || k == fields[|fields| - 1];
    }
  }

  /** `update_listing` changes only whitelisted columns present in the request; the
      identifiers, the vendor and the creation time never change. */
  lemma UpdateOnlyWhitelisted(l: FoodListing, update: Dict)
    ensures var p := Patched(l, update);
      && p.id == l.id && p.vendorId == l.vendorId && p.createdAt == l.createdAt
      && (forall k :: k in AllowedFields && k in update ==> k in p.attrs && p.attrs[k] == update[k])
      && (forall k :: k in l.attrs && (k !in AllowedFields || k !in update) ==> k in p.attrs && p.attrs[k] == l.attrs[k])
      && (forall k :: k in p.attrs ==> k in l.attrs || (k in AllowedFields && k in update))
  {
    PatchAttrsAt(l.attrs, update, AllowedFields);
  }

  /** Keys outside the whitelist in the request have no effect, and applying the
      same request twice is the same as once. */
  lemma UpdateIgnoresOthersAndIsIdempotent(l: FoodListing, update: Dict, others: Dict)
    requires forall k :: k in others ==> k !in AllowedFields
    ensures Patched(l, update + others) == Patched(l, update)
    ensures Patched(Patched(l, update), update) == Patched(l, update)
  {
    var p := Patched(l, update);
    PatchAttrsAt(l.attrs, update, AllowedFields);
    PatchAttrsAt(p.attrs, update, AllowedFields);
    PatchAttrsAt(l.attrs, update + others, AllowedFields);
    assert Patched(p, update).attrs == p.attrs;
    assert Patched(l, update + others).attrs == p.attrs;
  }

  /** The listing after `delete_listing`: status `CANCELLED`, nothing else changed. */
  function SoftDeleted(l: FoodListing): FoodListing
  {
    l.(attrs := l.attrs["status" := Str(StatusValue(Cancelled))])
  }

  /** A deleted listing keeps every other column, and never shows up in a search
      again. */
  lemma DeletedIsHidden(l: FoodListing, db: Database, origin: Point, radiusKm: real, foodType: Value, now: int)
    ensures SoftDeleted(l).id == l.id && SoftDeleted(l).vendorId == l.vendorId && SoftDeleted(l).createdAt == l.createdAt
    ensures forall k :: k in l.attrs && k != "status" ==> SoftDeleted(l).attrs[k] == l.attrs[k]
    ensures !Searchable(SoftDeleted(l), db, origin, radiusKm, foodType, now)
  {
    assert StatusValue(Cancelled) != StatusValue(Available) by {
      assert StatusValue(Cancelled)[0] == 'c';
    }
  }

  // ---------------------------------------------------------------------------
  // The store.
  // ---------------------------------------------------------------------------

  /** The users and food listings tables, and the id the next inserted listing gets. */
  class ListingStore {
    var users: seq<User>
    var listings: seq<FoodListing>
    var nextId: int

    /** Listing ids are unique primary keys below `nextId`. */
    ghost predicate Valid()
      reads this
    {
      && (forall i :: 0 <= i < |listings| ==> listings[i].id < nextId)
      && (forall i, j :: 0 <= i < j < |listings| ==> listings[i].id != listings[j].id)
    }

    constructor (users: seq<User>)
      ensures Valid() && this.users == users && listings == [] && nextId == 1
    {
      this.users := users;
      listings := [];
      nextId := 1;
    }

    /** `_notify_nearby_users`: selects the nearby users and, only when there are
        any, hands them to `notify`. Whatever `notify` returns or raises is
        swallowed; `notified` tells whether it was called. */
    method NotifyNearbyUsers(l: FoodListing, db: Database, service: NotificationService, foreign: ForeignUpdate)
      returns (notified: bool, calls: seq<Call>)
      ensures notified <==> NearbyUsersOf(l, users, db) != []
      ensures calls == NearbyCalls(l, users, db, service.observers)
    {
      var nearby := NearbyUsersOf(l, users, db);
      if nearby == [] {
        return false, [];
      }
      var listingData := ListingDict(l);
      var usersData := UserDicts(nearby);
      var outcome;
      outcome, calls := service.Notify(listingData, usersData, foreign);
      notified := true;
    }

    /** `create_listing`: validates the vendor, inserts and commits the new row, then
        notifies nearby users. On an error nothing is inserted. */
    method CreateListing(vendorId: int, data: Dict, now: int, db: Database, service: NotificationService, foreign: ForeignUpdate)
      returns (r: Result<FoodListing, PyError>, calls: seq<Call>)
      requires Valid()
      modifies this
      ensures Valid() && users == old(users)
      ensures r == CreateResult(old(users), old(nextId), vendorId, data, now)
      ensures r.Success? ==> listings == old(listings) + [r.value] && nextId == old(nextId) + 1
      ensures r.Failure? ==> listings == old(listings) && nextId == old(nextId)
      ensures calls == if r.Success? then NearbyCalls(r.value, users, db, service.observers) else []
    {
      calls := [];
      var vendor := FindUser(users, vendorId);
      if vendor.None? || vendor.value.role != Vendor {
        return Failure(ValueError("Invalid vendor")), calls;
      }
      var missing := FirstMissing(data, RequiredFields);
      if missing.Some? {
        return Failure(KeyError(missing.value)), calls;
      }
      var listing := NewListing(nextId, vendorId, data, now);
      listings := listings + [listing];
      nextId := nextId + 1;
      var notified;
      notified, calls := NotifyNearbyUsers(listing, db, service, foreign);
      r := Success(listing);
    }

    /** `get_listing`: the listing with the given primary key, if any. */
    method GetListing(listingId: int) returns (r: Option<FoodListing>)
      requires Valid()
      ensures r.Some? ==> r.value in listings && r.value.id == listingId
      ensures r.None? <==> forall i :: 0 <= i < |listings| ==> listings[i].id != listingId
    {
      var index := FindListingIndex(listings, listingId);
      if index.None? {
        return None;
      }
      r := Some(listings[index.value]);
    }

    /** `update_listing`: copies the whitelisted fields present in `update` onto the
        row, or raises `ValueError` when there is no such listing. */
    method UpdateListing(listingId: int, update: Dict) returns (r: Result<FoodListing, PyError>)
      requires Valid()
      modifies this
      ensures Valid() && users == old(users) && nextId == old(nextId)
      ensures match FindListingIndex(old(listings), listingId)
        case None => r == Failure(ValueError("Listing not found")) && listings == old(listings)
        case Some(i) => r == Success(Patched(old(listings)[i], update)) && listings == old(listings)[i := r.value]
    {
      var index := FindListingIndex(listings, listingId);
      if index.None? {
        return Failure(ValueError("Listing not found"));
      }
      var i := index.value;
      var listing := listings[i];
      var attrs := listing.attrs;
      var k := 0;
      while k < |AllowedFields|
        invariant 0 <= k <= |AllowedFields|
        invariant attrs == PatchAttrs(listing.attrs, update, AllowedFields[..k])
      {
        var field := AllowedFields[k];
        assert AllowedFields[..k + 1][..k] == AllowedFields[..k];
        if field in update {
          attrs := attrs[field := update[field]];
        }
        k := k + 1;
      }
      assert AllowedFields[..k] == AllowedFields;
      listing := listing.(attrs := attrs);
      listings := listings[i := listing];
      r := Success(listing);
    }

    /** `delete_listing`: marks the row `CANCELLED` and returns `True`, or raises
        `ValueError` when there is no such listing. */
    method DeleteListing(listingId: int) returns (r: Result<bool, PyError>)
      requires Valid()
      modifies this
      ensures Valid() && users == old(users) && nextId == old(nextId)
      ensures match FindListingIndex(old(listings), listingId)
        case None => r == Failure(ValueError("Listing not found")) && listings == old(listings)
        case Some(i) => r == Success(true) && listings == old(listings)[i := SoftDeleted(old(listings)[i])]
    {
      var index := FindListingIndex(listings, listingId);
      if index.None? {
        return Failure(ValueError("Listing not found"));
      }
      var i := index.value;
      listings := listings[i := SoftDeleted(listings[i])];
      r := Success(true);
    }
  }
}
