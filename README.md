# Fresh-Share notification fan-out and listing rules, in Dafny

This project models the core of the Fresh-Share food-sharing platform. When a
vendor publishes a food listing, the platform selects the verified users near
the pickup point and notifies each of them through every registered channel
(email, SMS, push).

- `wrappers.dfy`: `Option` and `Result`.
- `values.dfy`: the Python values the code passes around. Dictionaries are
  `map<string, Value>`, and a missing key is where a `KeyError` would be raised.
  It also defines truthiness and `==`, under which `1 == True == 1.0`.
- `notification_observer.dfy`: the observer pattern of
  `src/observers/notification_observer.py`.
  - The three notifiers are pure functions from the two dictionaries to a
    reply: a truthy return, a falsy return, or an exception.
  - `NotificationService` is a class holding the ordered registry as a
    `seq<Observer>`. Its `Notify` method is the two nested loops of `notify`,
    proved against the reference functions `NotifyCalls` (every `update` call,
    in order) and `NotifyResult` (the count, or the `KeyError`).
- `listing_service.dfy`: `src/services/listing_service.py`.
  - The users and listings tables are sequences of rows.
  - `find_nearby_users`, `search_listings` and `get_vendor_listings` are
    filters, an ordering and a page over those tables.
  - `ListingStore` is a class whose methods create, update and soft-delete
    rows in place. `create_listing` hands the new listing to the notification
    service.

The spatial test `ST_DWithin` is an uninterpreted function, `Database.within`.
A query that raises is modelled by `Database.online == false`. The clock
(`datetime.now`) is a parameter. Observer subclasses other than the three
shipped ones are `Custom` observers. Their replies come from a `ForeignUpdate`
parameter, so an observer that raises can be modelled.

Some behaviours of the code are worth stating plainly, because a reader might
expect otherwise:
- `PushNotifier` needs no device token: it reads only the user's `id`. So a
  user without a phone gets two truthy replies from the default registry, not
  one (`DefaultRegistryNoPhone`).
- The notifiers return a boolean, not a typed Delivered/Skipped/Failed outcome.
  `notify` returns only the count of truthy replies, not a report.
- `find_nearby_users` and `search_listings` return `[]` when the query fails.
  They do not report that the selection is unavailable.
- A non-positive radius is not rejected. It is simply passed to the spatial
  test.

## Model

| member | source | states |
|---|---|---|
| NotificationObserver.EmailUpdate | src/observers/notification_observer.py:36-72 | `EmailNotifier.update`: truthy when the user's `email` and `name` and the listing keys read by the log line and `_compose_email` exist, falsy otherwise (its properties are proved in `EmailPushSucceedOnKeys`) |
| NotificationObserver.SmsUpdate | src/observers/notification_observer.py:80-110 | `SMSNotifier.update`: falsy without a truthy `phone`; otherwise truthy when the listing keys read by the log line and `_compose_sms` exist (proved in `SmsNeedsPhone`) |
| NotificationObserver.PushUpdate | src/observers/notification_observer.py:118-147 | `PushNotifier.update`: truthy when the user's `id` and the listing keys read by `_compose_push` exist, falsy otherwise (proved in `EmailPushSucceedOnKeys`) |
| NotificationObserver.Update | src/observers/notification_observer.py:205 | `observer.update(...)` dispatched on the observer's class; other subclasses reply through `ForeignUpdate` (proved in `NotifiersNeverRaise`) |
| NotificationObserver.Attached | src/observers/notification_observer.py:168-169 | the registry after `attach`: appended unless present (proved in `AttachIdempotent` and `AttachCount`) |
| NotificationObserver.RemoveFirst | src/observers/notification_observer.py:179-180 | `list.remove` of the first occurrence, or no change when absent (proved in `RemoveAbsent`, `RemovePresentLength`, `RemoveMultiset`, `RemoveFirstAt`) |
| NotificationObserver.NotifyCalls | src/observers/notification_observer.py:191-211 | every `update` call `notify` makes, in order: none without `title`, then user by user up to the first failing lookup, skipping the vendor (proved in `NotifySkipsVendor`, `FanoutOrder`, `NotifyCountBound`) |
| NotificationObserver.NotifyResult | src/observers/notification_observer.py:183-214 | the count `notify` returns, or the `KeyError` for `title`, a user `id` or `vendor_id` (proved in `NotifyCountBound` and `NotifyReturns`) |
| NotificationObserver.NotifyStopsAt | src/observers/notification_observer.py:197-199 | when user `i` is the first whose lookups fail, `notify` raises the `KeyError` of that lookup after making exactly the calls for the users before it |
| NotificationObserver.NotifyRunsThrough | src/observers/notification_observer.py:197-214 | when every lookup succeeds, `notify` makes the calls for all users and returns their truthy count |
| NotificationObserver.NotifiersNeverRaise | src/observers/notification_observer.py:36-136 | the email, SMS and push notifiers catch every exception: their reply is never an exception |
| NotificationObserver.SmsNeedsPhone | src/observers/notification_observer.py:80-102 | the SMS notifier succeeds if and only if the user's `phone` is truthy and the listing has the keys the message reads; otherwise it returns falsy |
| NotificationObserver.EmailPushSucceedOnKeys | src/observers/notification_observer.py:36-147 | the email notifier succeeds if and only if `email`, `name` and the listing keys it reads exist; the push notifier succeeds if and only if the user `id` and its listing keys exist |
| NotificationObserver.AttachIdempotent | src/observers/notification_observer.py:168-170 | attaching an observer twice leaves the registry as attaching it once |
| NotificationObserver.AttachCount | src/observers/notification_observer.py:168-169 | attaching a present observer changes nothing; attaching a new one appends it at the end, so the count grows by exactly one |
| NotificationObserver.RemoveAbsent | src/observers/notification_observer.py:179-181 | detaching an observer that is not attached leaves the registry unchanged |
| NotificationObserver.RemovePresentLength | src/observers/notification_observer.py:179-180 | detaching an attached observer shrinks the registry by exactly one |
| NotificationObserver.RemoveMultiset | src/observers/notification_observer.py:179-180 | `list.remove` takes out one occurrence of the observer and keeps every other one |
| NotificationObserver.RemoveFirstAt | src/observers/notification_observer.py:179-180 | removal cuts out exactly the first occurrence and keeps the order of the rest |
| NotificationObserver.DetachRemoves | src/observers/notification_observer.py:172-181 | on a registry without duplicates, the observer is absent after `detach` and the registry still has no duplicates |
| NotificationObserver.DetachUndoesAttach | tests/test_app.py:148-157 | detaching a freshly attached observer restores the registry as it was before the attach |
| NotificationObserver.Reach | src/observers/notification_observer.py:197-199 | the loop handles a prefix of the users, each of which has an `id` while the listing has a `vendor_id`; the user after that prefix is the one whose lookup raises `KeyError` |
| NotificationObserver.RecipientsExactly | src/observers/notification_observer.py:197-200 | the users addressed are exactly the given users whose `id` differs from the listing's `vendor_id` |
| NotificationObserver.RecipientsAll | src/observers/notification_observer.py:197-200 | when no given user is the vendor, `notify` addresses all of them |
| NotificationObserver.CallsForShape | src/observers/notification_observer.py:203-205 | for one user, observer number j of the registry is called j-th, once each |
| NotificationObserver.FanoutLength | src/observers/notification_observer.py:197-205 | one call per (recipient, observer) pair: #recipients × #observers calls |
| NotificationObserver.FanoutAppend | src/observers/notification_observer.py:197-205 | the calls for two groups of users are the calls for the first group followed by the calls for the second |
| NotificationObserver.FanoutOrder | src/observers/notification_observer.py:197-205 | calls go user after user in input order; every call for user i comes after all calls for earlier users and before all calls for later ones |
| NotificationObserver.FanoutMembers | src/observers/notification_observer.py:197-205 | every call is made for one of the recipients with one of the registered observers |
| NotificationObserver.SuccessesAppend | src/observers/notification_observer.py:195-207 | the count over two runs of calls is the sum of their counts |
| NotificationObserver.SuccessesAtMost | src/observers/notification_observer.py:204-207 | the number of truthy replies is at most the number of calls |
| NotificationObserver.NotifySkipsVendor | src/observers/notification_observer.py:197-200 | `notify` never calls an observer for a user whose `id` equals the listing's `vendor_id` |
| NotificationObserver.NotifyCountBound | src/observers/notification_observer.py:195-214 | when `notify` returns, its count is between 0 and #recipients × #observers, and exactly that many calls were made |
| NotificationObserver.NotifyReturns | src/observers/notification_observer.py:203-211 | with a `title`, a `vendor_id` and an `id` for every user, `notify` returns whatever the observers reply or raise, and calls every observer for every non-vendor user |
| NotificationObserver.NotifyOneUser | src/observers/notification_observer.py:197-214 | for one addressed user, `notify` calls each observer once for that user and returns their truthy count |
| NotificationObserver.TestNotifyCountsOne | tests/test_app.py:159-185 | in the repository's notify scenario (one email observer, one user other than the vendor), the count is exactly 1 |
| NotificationObserver.DefaultRegistryNoPhone | src/observers/notification_observer.py:221-227 | with the default registry, a user without a phone receives email and push but no SMS: 3 calls, count 2 |
| NotificationObserver.RaisingObserverIsolated | src/observers/notification_observer.py:203-211 | an observer that raises does not stop the next observer for the same user: both are called and the count is 1 |
| NotificationObserver.NotificationService.constructor | src/observers/notification_observer.py:156-159 | a new service has an empty registry |
| NotificationObserver.NotificationService.Attach | src/observers/notification_observer.py:161-170 | the registry becomes the old one with the observer appended unless already present; it keeps no duplicates |
| NotificationObserver.NotificationService.Detach | src/observers/notification_observer.py:172-181 | the registry loses the observer's first occurrence if present, and is unchanged otherwise; afterwards the observer is absent |
| NotificationObserver.NotificationService.ObserverCount | src/observers/notification_observer.py:216-218 | returns the number of attached observers |
| NotificationObserver.NotificationService.NotifyUser | src/observers/notification_observer.py:203-211 | for one user, calls every attached observer in registry order and counts the truthy replies; an exception is counted as no success and the loop continues |
| NotificationObserver.NotificationService.Notify | src/observers/notification_observer.py:183-214 | the count and the calls are those of the reference fan-out; the result is a `KeyError` when `title`, a user `id` or `vendor_id` is missing; the registry is not modified |
| NotificationObserver.DefaultService | src/observers/notification_observer.py:221-227 | the singleton holds the email, SMS and push notifiers, in that order |
| ListingService.FindNearbyUsers | src/services/listing_service.py:128-156 | `find_nearby_users`: the users passing the four filters, in table order, or `[]` on a failed query (proved in `FindNearbyUsersExactly`) |
| ListingService.SearchListings | src/services/listing_service.py:181-212 | `search_listings`: filter, newest first, then the page, or `[]` on a failed query (proved in `SearchListingsSound`, `SearchFirstPageComplete` and `SearchPagesTile`) |
| ListingService.Page | src/services/listing_service.py:204 | `.limit(limit).offset(offset)` (proved in `PageOf` and `PagesTile`) |
| ListingService.VendorListings | src/services/listing_service.py:268-275 | `get_vendor_listings`: the vendor's listings, of the given status when it is truthy, newest first (proved in `VendorListingsSound`) |
| ListingService.NewListing | src/services/listing_service.py:38-54 | the row `create_listing` builds: the request's columns and status `AVAILABLE` (proved in `NewListingCarries`) |
| ListingService.NewListingCarries | src/services/listing_service.py:38-54 | a new listing carries the request's value of every required field and of every optional column it gives, `None` for an optional column it leaves out, and status `AVAILABLE`; no other key of the request becomes a column |
| ListingService.CreateResult | src/services/listing_service.py:31-54 | the outcome of `create_listing`'s validation (proved in `CreateListingSound` and `CreateListingComplete`) |
| ListingService.CreateListingComplete | src/services/listing_service.py:33-54 | for the vendor found by id with role `VENDOR`, the listing is created if and only if every required field is present; otherwise the `KeyError` names a missing required field |
| ListingService.UserDict | src/models/__init__.py:103-118 | `User.to_dict`, restricted to `id`, `email`, `name`, `role`, `phone` and `verified` (proved in `DictsKeyed`) |
| ListingService.ListingDict | src/models/__init__.py:169-190 | `FoodListing.to_dict` without `vendor_name`: every key present, `None` for an empty column (proved in `DictsKeyed`) |
| ListingService.NearbyUsersOf | src/services/listing_service.py:86-91 | the selection of `_notify_nearby_users`: 5 km around the pickup point, the vendor excluded (proved in `VendorNeverNotified`) |
| ListingService.NearbyCalls | src/services/listing_service.py:93-104 | the calls `_notify_nearby_users` causes: none for an empty selection, otherwise the fan-out over the selected users' dictionaries (proved in `VendorNeverNotified` and `NearbyNotifyReturns`) |
| ListingService.PatchAttrs | src/services/listing_service.py:234-236 | the `setattr` loop over the listed fields present in the request (proved in `PatchAttrsAt`) |
| ListingService.Patched | src/services/listing_service.py:227-236 | the listing after `update_listing` (proved in `UpdateOnlyWhitelisted` and `UpdateIgnoresOthersAndIsIdempotent`) |
| ListingService.SoftDeleted | src/services/listing_service.py:256 | the listing after `delete_listing`: status `CANCELLED` (proved in `DeletedIsHidden`) |
| ListingService.FindNearbyUsersExactly | src/services/listing_service.py:128-156 | every user selected has a location, lies within the radius, is verified and is not the excluded user; every such user is selected; a failing query gives `[]` |
| ListingService.FalsyExcludeExcludesNobody | src/services/listing_service.py:143-144 | an `exclude_user_id` of 0 selects the same users as `None` |
| ListingService.InsertNewestFirst | src/services/listing_service.py:201 | inserting a listing into the ordered result adds exactly that listing |
| ListingService.InsertKeepsOrder | src/services/listing_service.py:201 | inserting into a list ordered by `created_at` descending keeps it ordered |
| ListingService.SortNewestFirst | src/services/listing_service.py:201 | `ORDER BY created_at DESC` gives a permutation of the rows, newest first |
| ListingService.PagesTile | src/services/listing_service.py:204 | the page of `a` rows at `offset` followed by the page of `b` rows at `offset + a` is the page of `a + b` rows at `offset`: consecutive pages neither skip nor repeat a row |
| ListingService.PageOf | src/services/listing_service.py:204 | row `i` of a page is row `offset + i` of the ordered result; a page holds `limit` rows, or every row after `offset` when fewer remain; a first page that fits holds the whole result |
| ListingService.SearchPagesTile | src/services/listing_service.py:186-204 | two consecutive searches with the same filters return consecutive runs of the newest-first result |
| ListingService.SearchListingsSound | src/services/listing_service.py:181-212 | every result is an available, unexpired listing of the table, within the radius and of the requested food type when one is given; results are newest first; there are at most `limit` of them |
| ListingService.SearchFirstPageComplete | src/services/listing_service.py:186-204 | when all matching listings fit in the first page, every one of them is returned |
| ListingService.VendorListingsSound | src/services/listing_service.py:268-275 | only the vendor's own listings are returned, newest first, and with a truthy status only listings of that status; every listing of the vendor is returned without a status filter, and every one of that status with it |
| ListingService.FindUser | src/services/listing_service.py:33 | the user found has the requested id; when none is found, no user has that id |
| ListingService.FindListingIndex | src/services/listing_service.py:223-225 | the index found holds a listing with the requested id; when none is found, no listing has it |
| ListingService.FirstMissing | src/services/listing_service.py:38-54 | reports a missing required key (the `KeyError`) exactly when one of the required fields is absent, and it is the first missing one in the order the constructor call reads them |
| ListingService.CreateListingSound | src/services/listing_service.py:31-54 | a listing is created only for an existing user with role `VENDOR`; the listing is `AVAILABLE`, belongs to that vendor and carries the request's required values; when no user with that id is a vendor, the error is `ValueError("Invalid vendor")` |
| ListingService.DictsKeyed | src/models/__init__.py:103-190 | the listing dictionary (`FoodListing.to_dict`) always has `title` and `vendor_id`, and every user dictionary (`User.to_dict`, lines 103-118) has `id`: the keys `notify` reads outside its `try` |
| ListingService.VendorNeverNotified | src/services/listing_service.py:86-104 | no observer is ever called for the listing's vendor; when the vendor id is truthy, the vendor is not even selected |
| ListingService.NearbyNotifyReturns | src/services/listing_service.py:97-104 | the hand-off to `notify` never raises; with a truthy vendor id, the calls are exactly the fan-out over the nearby users' dictionaries, so every nearby user is notified through every observer |
| ListingService.PatchAttrsAt | src/services/listing_service.py:234-236 | a column takes the request's value exactly when it is a listed field present in the request; every other column keeps its value |
| ListingService.UpdateOnlyWhitelisted | src/services/listing_service.py:227-236 | among the modelled columns, `update_listing` changes only the ten whitelisted fields present in the request; the identifiers, the vendor and the creation time never change |
| ListingService.UpdateIgnoresOthersAndIsIdempotent | src/services/listing_service.py:228-236 | adding keys outside the whitelist to a request changes nothing, and applying the same request twice equals applying it once |
| ListingService.DeletedIsHidden | src/services/listing_service.py:256 | a soft-deleted listing keeps every other modelled column and never matches a search again |
| ListingService.ListingStore.NotifyNearbyUsers | src/services/listing_service.py:76-107 | `notify` is called if and only if the selection (radius 5 km, vendor excluded) is non-empty; the calls are those of the fan-out over the selected users; no error escapes |
| ListingService.ListingStore.CreateListing | src/services/listing_service.py:20-73 | the result is the validated listing or the error; on success the row is committed with a fresh id before the nearby users are notified; on error nothing changes and nobody is notified |
| ListingService.ListingStore.GetListing | src/services/listing_service.py:214-217 | returns the listing with that id, or nothing if and only if no listing has it |
| ListingService.ListingStore.UpdateListing | src/services/listing_service.py:220-246 | the row with that id is replaced by its whitelisted patch, and no other modelled state changes; a missing listing gives `ValueError("Listing not found")` and no change |
| ListingService.ListingStore.DeleteListing | src/services/listing_service.py:249-265 | the row with that id gets status `CANCELLED` and `True` is returned, and no other modelled state changes; a missing listing gives `ValueError("Listing not found")` |

## Left out

- Logging and the message composers (`_compose_email`, `_compose_sms`, `_compose_push`). Their strings are never used. The model keeps only the keys they read, since a missing key turns into a falsy reply.
- The actual sends of email, SMS and push messages. The code has none: it only logs.
- PostGIS geodesy and the conversion of the radius from kilometres to metres. `Database.within` is an uninterpreted test.
- Float arithmetic. Coordinates are `real`, and datetimes are integer timestamps.
- The `to_dict` serialisers, in part:
  - the listing's `vendor_name`, and the user's `address`, `rating`, `rating_count`, `created_at` and coordinates, are not in the modelled dictionaries;
  - `isoformat` and `round` are not modelled;
  - an exception raised inside `to_dict` (it is swallowed by `_notify_nearby_users`) is not modelled.
- `ListingStore.CreateListing`: a commit that fails after validation is not modelled. Neither is the type or `CHECK` constraint checking of the database (`quantity > 0`, `expiry_time > created_at`).
- `ListingStore.UpdateListing`: it accepts any value for a field. The database's rejection of an ill-typed value at commit time is not modelled.
- How the ORM stores enums. Statuses and food types are compared by their value strings.
- VendorListingsSound: its completeness with a status filter holds only under that value-string reading. The `Enum(ListingStatus)` column has no `values_callable` (src/models/__init__.py:150), so the database holds member names such as `AVAILABLE`. The route passes the value string it received (src/routes/listing_routes.py:368), which may then match no row or be refused by the database.
- SearchFirstPageComplete: its completeness with a food type holds only under the same reading. The `Enum(FoodType)` column (src/models/__init__.py:136) and the string from src/routes/listing_routes.py:178 compare the same way.
- VendorListings: a failing query. `get_vendor_listings` has no `try`, so its error reaches the caller, unlike in `search_listings` and `find_nearby_users`. The model has no failing database for it.
- `updated_at`. The column is not modelled. Its `onupdate` (src/models/__init__.py:158) also changes it at the commits of `update_listing` and `delete_listing`.
- Ordering among listings with the same `created_at`. SQL leaves it unspecified; the model keeps table order.
- `FindNearbyUsers`: the order of the selected users. The query has no `ORDER BY`, so SQL leaves it unspecified. The model keeps table order, and so fixes the order of the calls in `NearbyCalls`.
- `NotificationService.Notify`: an observer that attaches or detaches observers while its `update` runs. `notify` iterates the live list, but a `ForeignUpdate` cannot change the registry, so the model iterates the registry as it was when `notify` began.
- Custom observers with side effects. `notify` hands the same `listing_data` and user dictionaries to every call. An observer that mutates them, or keeps state from one call to the next, cannot be expressed by the pure `ForeignUpdate`.
- Negative `limit` or `offset`. They are natural numbers here.
- User identity: the users table is assumed to be keyed by `id`, and `FindUser` returns the first row with that id.
- Observer identity: Python compares observers by object identity. The model compares them as values, by their `id` and their kind together.
- The three database sessions and any concurrent access to the tables.
- Timeouts, cancellation, parallel delivery, and per-send Delivered/Skipped/Failed reports. The code is sequential and returns only a count.
- Routes, authentication, configuration, password hashing, the legacy SQLite application and the demo script. `src/routes`, `src/app.py`, `src/config.py`, `app.py` and `demo_observer.py` are not part of this model.
