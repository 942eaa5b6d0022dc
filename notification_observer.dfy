/**
 * The observer-based notification fan-out: three notifier kinds (email, SMS,
 * push), the `NotificationService` registry that holds them in attach order,
 * and `notify`, which calls every observer for every user except the vendor
 * of the listing, isolates exceptions and counts the truthy replies.
 */
module NotificationObserver {

  import opened Wrappers
  import opened Values

  /** What one call of an observer's `update` amounts to: a truthy return, a
      falsy return, or an exception. */
  datatype Reply = Sent | NotSent | Raised

  /** The concrete `Observer` subclasses. `Custom` stands for any other subclass
      attached by a caller; its behaviour is supplied from outside. */
  datatype ObserverKind = Email | Sms | Push | Custom

  /** An observer instance. Python compares observers by identity, modelled by `id`. */
  datatype Observer = Observer(id: nat, kind: ObserverKind)

  /** The `update` of a `Custom` observer, given the observer's id and the two dicts. */
  type ForeignUpdate = (nat, Dict, Dict) -> Reply

  /** One invocation of `update`: the user dict and the observer it was called on. */
  datatype Call = Call(user: Dict, observer: Observer)

  // ---------------------------------------------------------------------------
  // The three notifiers. Each wraps its body in `try/except Exception` and so
  // turns every failed key lookup into `return False`.
  // ---------------------------------------------------------------------------

  /** Keys `EmailNotifier.update` reads from the user and the listing (log line
      and `_compose_email`). */
  const EmailUserKeys: seq<string> := ["email", "name"]
  const EmailListingKeys: seq<string> := ["title", "quantity", "unit", "pickup_address", "expiry_time"]

  /** Keys `SMSNotifier.update` reads from the listing once a phone is present. */
  const SmsListingKeys: seq<string> := ["title", "quantity", "unit", "expiry_time"]

  /** Keys `PushNotifier.update` reads from the listing (`_compose_push`). */
  const PushListingKeys: seq<string> := ["title", "quantity", "unit", "id"]

  function EmailUpdate(listing: Dict, user: Dict): Reply
  {
    if HasKeys(user, EmailUserKeys) && HasKeys(listing, EmailListingKeys) then Sent else NotSent
  }

  function SmsUpdate(listing: Dict, user: Dict): Reply
  {
    if !Truthy(Get(user, "phone")) then NotSent
    else if HasKeys(listing, SmsListingKeys) then Sent
    else NotSent
  }

  function PushUpdate(listing: Dict, user: Dict): Reply
  {
    if "id" in user && HasKeys(listing, PushListingKeys) then Sent else NotSent
  }

  /** `observer.update(listing_data, user_data)`, dispatched on the observer's class. */
  function Update(o: Observer, listing: Dict, user: Dict, foreign: ForeignUpdate): Reply
  {
    match o.kind
    case Email => EmailUpdate(listing, user)
    case Sms => SmsUpdate(listing, user)
    case Push => PushUpdate(listing, user)
    case Custom => foreign(o.id, listing, user)
  }

  /** The three shipped notifiers never let an exception escape: a missing key
      yields a falsy reply instead. */
  lemma NotifiersNeverRaise(o: Observer, listing: Dict, user: Dict, foreign: ForeignUpdate)
    requires o.kind != Custom
    ensures Update(o, listing, user, foreign) != Raised
  {
  }

  /** `SMSNotifier` reports success exactly when the user has a non-empty phone
      and the listing has the keys the message needs. */
  lemma SmsNeedsPhone(o: Observer, listing: Dict, user: Dict, foreign: ForeignUpdate)
    requires o.kind == Sms
    ensures Update(o, listing, user, foreign) == Sent
        <==> Truthy(Get(user, "phone")) && HasKeys(listing, SmsListingKeys)
  {
  }

  /** `EmailNotifier` and `PushNotifier` report success whenever the keys they read
      exist, and report failure (without raising) otherwise. */
  lemma EmailPushSucceedOnKeys(o: Observer, listing: Dict, user: Dict, foreign: ForeignUpdate)
    requires o.kind == Email || o.kind == Push
    ensures o.kind == Email ==>
      (Update(o, listing, user, foreign) == Sent <==> HasKeys(user, EmailUserKeys) && HasKeys(listing, EmailListingKeys))
    ensures o.kind == Push ==>
      (Update(o, listing, user, foreign) == Sent <==> "id" in user && HasKeys(listing, PushListingKeys))
  {
  }

  // ---------------------------------------------------------------------------
  // The observer registry.
  // ---------------------------------------------------------------------------

  ghost predicate NoDuplicates(s: seq<Observer>)
  {
    forall i, j :: 0 <= i < j < |s| ==> s[i] != s[j]
  }

  /** The registry after `attach(o)`: `o` is appended unless already present. */
  function Attached(s: seq<Observer>, o: Observer): seq<Observer>
  {
    if o in s then s else s + [o]
  }

  /** Python's `list.remove(o)`: drops the first occurrence of `o`. */
  function RemoveFirst(s: seq<Observer>, o: Observer): seq<Observer>
  {
    if s == [] then []
    else if s[0] == o then s[1..]
    else [s[0]] + RemoveFirst(s[1..], o)
  }

  /** Attaching twice is the same as attaching once. */
  lemma AttachIdempotent(s: seq<Observer>, o: Observer)
    ensures Attached(Attached(s, o), o) == Attached(s, o)
  {
  }

  /** Attaching a new observer puts it at the end and grows the count by one;
      attaching a present one changes nothing. */
  lemma AttachCount(s: seq<Observer>, o: Observer)
    ensures o in s ==> Attached(s, o) == s
    ensures o !in s ==> |Attached(s, o)| == |s| + 1 && Attached(s, o)[..|s|] == s && Attached(s, o)[|s|] == o
  {
  }

  /** `remove` of an absent observer leaves the list as it is. */
  lemma {:induction false} RemoveAbsent(s: seq<Observer>, o: Observer)
    ensures o !in s ==> RemoveFirst(s, o) == s
  {
    if s != [] {
      RemoveAbsent(s[1..], o);
    }
  }

  /** `remove` of a present observer shortens the list by one. */
  lemma {:induction false} RemovePresentLength(s: seq<Observer>, o: Observer)
    ensures o in s ==> |RemoveFirst(s, o)| == |s| - 1
  {
    if s != [] {
      RemovePresentLength(s[1..], o);
    }
  }

  /** `remove` takes away exactly one occurrence of the observer and nothing else. */
  lemma {:induction false} RemoveMultiset(s: seq<Observer>, o: Observer)
    ensures multiset(RemoveFirst(s, o)) == multiset(s) - multiset{o}
  {
    if s != [] {
      var tail := s[1..];
      RemoveMultiset(tail, o);
      assert s == [s[0]] + tail;
      assert multiset(s) == multiset{s[0]} + multiset(tail);
      if s[0] != o {
        var r := RemoveFirst(tail, o);
        assert RemoveFirst(s, o) == [s[0]] + r;
        assert multiset([s[0]] + r) == multiset{s[0]} + multiset(r);
        assert multiset{s[0]} + (multiset(tail) - multiset{o}) == (multiset{s[0]} + multiset(tail)) - multiset{o};
      }
    }
  }

  /** `remove` cuts out exactly the first occurrence and keeps the order of the rest. */
  lemma {:induction false} RemoveFirstAt(s: seq<Observer>, o: Observer, i: nat)
    requires i < |s| && s[i] == o && o !in s[..i]
    ensures RemoveFirst(s, o) == s[..i] + s[i + 1..]
  {
    if i > 0 {
      assert s[1..][..i - 1] == s[1..i];
      RemoveFirstAt(s[1..], o, i - 1);
      assert s[..i] == [s[0]] + s[1..i];
    }
  }

  /** In a registry without duplicates, detaching leaves no copy of the observer
      behind and keeps the registry duplicate-free. */
  lemma DetachRemoves(s: seq<Observer>, o: Observer)
    requires NoDuplicates(s)
    ensures o !in RemoveFirst(s, o)
    ensures NoDuplicates(RemoveFirst(s, o))
  {
    RemoveAbsent(s, o);
    if o in s {
      var i :| 0 <= i < |s| && s[i] == o;
      assert o !in s[..i];
      RemoveFirstAt(s, o, i);
      CutKeepsDistinct(s, i);
    }
  }

  /** Cutting one element out of a duplicate-free list leaves no copy of it and no
      duplicates. */
  lemma CutKeepsDistinct(s: seq<Observer>, i: nat)
    requires NoDuplicates(s) && i < |s|
    ensures s[i] !in s[..i] + s[i + 1..]
    ensures NoDuplicates(s[..i] + s[i + 1..])
  {
    var r := s[..i] + s[i + 1..];
    forall k | 0 <= k < |r| ensures r[k] == s[if k < i then k else k + 1] { }
    forall a, b | 0 <= a < b < |r| ensures r[a] != r[b] {
      assert r[a] == s[if a < i then a else a + 1];
      assert r[b] == s[if b < i then b else b + 1];
    }
    forall k | 0 <= k < |r| ensures r[k] != s[i] {
      assert r[k] == s[if k < i then k else k + 1];
    }
  }

  /** Detaching an observer that was just attached restores the registry. */
  lemma {:induction false} DetachUndoesAttach(s: seq<Observer>, o: Observer)
    requires o !in s
    ensures RemoveFirst(Attached(s, o), o) == s
  {
    if s != [] {
      assert (s + [o])[1..] == s[1..] + [o];
      DetachUndoesAttach(s[1..], o);
    }
  }

  // ---------------------------------------------------------------------------
  // The fan-out that `notify` performs, as reference functions. They unfold from
  // the END of their sequence, the way the loops in `notify` extend them.
  // ---------------------------------------------------------------------------

  /** The two lookups the loop makes for `user` succeed. */
  predicate Keyed(listing: Dict, user: Dict)
  {
    "id" in user && "vendor_id" in listing
  }

  /** `user` is someone `notify` addresses: its id differs from the vendor's. */
  predicate Addressee(listing: Dict, user: Dict)
  {
    Keyed(listing, user) && !PyEquals(user["id"], listing["vendor_id"])
  }

  /** How many leading users the loop gets through before `user_data['id']` or
      `listing_data['vendor_id']` raises `KeyError`: the index of the first user
      whose lookups fail, or the number of users when none does. */
  function Reach(listing: Dict, users: seq<Dict>): (k: nat)
    ensures k <= |users|
    ensures forall j :: 0 <= j < k ==> Keyed(listing, users[j])
    ensures k < |users| ==> !Keyed(listing, users[k])
  {
    if users == [] || !Keyed(listing, users[0]) then 0 else 1 + Reach(listing, users[1..])
  }

  /** The users of `users` that are addressed, in their order. */
  function Recipients(listing: Dict, users: seq<Dict>): seq<Dict>
  {
    if users == [] then []
    else
      var last := users[|users| - 1];
      Recipients(listing, users[..|users| - 1]) + (if Addressee(listing, last) then [last] else [])
  }

  /** The calls made for one user: every observer, in registry order. */
  function CallsFor(user: Dict, obs: seq<Observer>): seq<Call>
  {
    if obs == [] then [] else CallsFor(user, obs[..|obs| - 1]) + [Call(user, obs[|obs| - 1])]
  }

  /** The calls made for a list of recipients, user after user. */
  function Fanout(rs: seq<Dict>, obs: seq<Observer>): seq<Call>
  {
    if rs == [] then [] else Fanout(rs[..|rs| - 1], obs) + CallsFor(rs[|rs| - 1], obs)
  }

  /** The number of calls whose `update` returned a truthy value. */
  function Successes(listing: Dict, calls: seq<Call>, foreign: ForeignUpdate): nat
  {
    if calls == [] then 0
    else
      var last := calls[|calls| - 1];
      Successes(listing, calls[..|calls| - 1], foreign)
        + (if Update(last.observer, listing, last.user, foreign) == Sent then 1 else 0)
  }

  /** Every call `notify` makes, in order. `listing_data['title']` is read (for a
      log line) before the loop, so without it no call is made. */
  function NotifyCalls(listing: Dict, users: seq<Dict>, obs: seq<Observer>): seq<Call>
  {
    if "title" !in listing then []
    else Fanout(Recipients(listing, users[..Reach(listing, users)]), obs)
  }

  /** What `notify` returns, or the `KeyError` it raises. */
  function NotifyResult(listing: Dict, users: seq<Dict>, obs: seq<Observer>, foreign: ForeignUpdate): Result<nat, PyError>
  {
    if "title" !in listing then Failure(KeyError("title"))
    else
      var k := Reach(listing, users);
      if k < |users| then Failure(KeyError(if "id" !in users[k] then "id" else "vendor_id"))
      else Success(Successes(listing, NotifyCalls(listing, users, obs), foreign))
  }

  // ---------------------------------------------------------------------------
  // Lemmas about the fan-out.
  // ---------------------------------------------------------------------------

  // Steps by which the loops of `notify` extend the reference functions.

  lemma ReachAt(listing: Dict, users: seq<Dict>, k: nat)
    requires k <= |users|
    requires forall j :: 0 <= j < k ==> Keyed(listing, users[j])
    requires k == |users| || !Keyed(listing, users[k])
    ensures Reach(listing, users) == k
  {
  }

  /** The loop stops at user `i` when that user's lookups raise. */
  lemma NotifyStopsAt(listing: Dict, users: seq<Dict>, obs: seq<Observer>, foreign: ForeignUpdate, i: nat)
    requires "title" in listing && i < |users|
    requires forall j :: 0 <= j < i ==> Keyed(listing, users[j])
    requires !Keyed(listing, users[i])
    ensures NotifyResult(listing, users, obs, foreign) == Failure(KeyError(if "id" !in users[i] then "id" else "vendor_id"))
    ensures NotifyCalls(listing, users, obs) == Fanout(Recipients(listing, users[..i]), obs)
  {
    ReachAt(listing, users, i);
  }

  /** The loop runs through all users when every lookup succeeds. */
  lemma NotifyRunsThrough(listing: Dict, users: seq<Dict>, obs: seq<Observer>, foreign: ForeignUpdate)
    requires "title" in listing
    requires forall j :: 0 <= j < |users| ==> Keyed(listing, users[j])
    ensures NotifyCalls(listing, users, obs) == Fanout(Recipients(listing, users[..|users|]), obs)
    ensures NotifyResult(listing, users, obs, foreign) == Success(Successes(listing, NotifyCalls(listing, users, obs), foreign))
  {
    ReachAt(listing, users, |users|);
  }

  lemma FanoutStep(listing: Dict, users: seq<Dict>, obs: seq<Observer>, i: nat)
    requires i < |users|
    ensures Fanout(Recipients(listing, users[..i + 1]), obs)
      == Fanout(Recipients(listing, users[..i]), obs)
         + (if Addressee(listing, users[i]) then CallsFor(users[i], obs) else [])
  {
    var rs := Recipients(listing, users[..i]);
    assert users[..i + 1][..i] == users[..i];
    if Addressee(listing, users[i]) {
      assert (rs + [users[i]])[..|rs|] == rs;
    } else {
      assert rs + [] == rs;
    }
  }

  lemma CallsForStep(user: Dict, obs: seq<Observer>, j: nat)
    requires j < |obs|
    ensures CallsFor(user, obs[..j + 1]) == CallsFor(user, obs[..j]) + [Call(user, obs[j])]
  {
    assert obs[..j + 1][..j] == obs[..j];
  }

  lemma {:induction false} SuccessesAppend(listing: Dict, a: seq<Call>, b: seq<Call>, foreign: ForeignUpdate)
    ensures Successes(listing, a + b, foreign) == Successes(listing, a, foreign) + Successes(listing, b, foreign)
  {
    if b == [] {
      assert a + b == a;
    } else {
      var init := b[..|b| - 1];
      SuccessesAppend(listing, a, init, foreign);
      assert (a + b)[..|a + b| - 1] == a + init;
    }
  }

  lemma SuccessesStep(listing: Dict, calls: seq<Call>, c: Call, foreign: ForeignUpdate)
    ensures Successes(listing, calls + [c], foreign)
      == Successes(listing, calls, foreign) + (if Update(c.observer, listing, c.user, foreign) == Sent then 1 else 0)
  {
    assert (calls + [c])[..|calls|] == calls;
  }

  /** When no user is dropped by `notify`'s own vendor check, the recipients are all
      the users given. */
  lemma {:induction false} RecipientsAll(listing: Dict, users: seq<Dict>)
    requires forall i :: 0 <= i < |users| ==> Addressee(listing, users[i])
    ensures Recipients(listing, users) == users
  {
    if users != [] {
      RecipientsAll(listing, users[..|users| - 1]);
      assert users[..|users| - 1] + [users[|users| - 1]] == users;
    }
  }

  /** The recipients are exactly the users whose id differs from the vendor's:
      no one else, and no such user is dropped. */
  lemma {:induction false} RecipientsExactly(listing: Dict, users: seq<Dict>)
    ensures |Recipients(listing, users)| <= |users|
    ensures forall u :: u in Recipients(listing, users) ==> u in users && Addressee(listing, u)
    ensures forall i :: 0 <= i < |users| && Addressee(listing, users[i]) ==> users[i] in Recipients(listing, users)
  {
    if users != [] {
      var init := users[..|users| - 1];
      RecipientsExactly(listing, init);
      forall i | 0 <= i < |users| - 1 ensures users[i] == init[i] { }
    }
  }

  lemma {:induction false} CallsForShape(user: Dict, obs: seq<Observer>)
    ensures |CallsFor(user, obs)| == |obs|
    ensures forall j :: 0 <= j < |obs| ==> CallsFor(user, obs)[j] == Call(user, obs[j])
  {
    if obs != [] {
      CallsForShape(user, obs[..|obs| - 1]);
    }
  }

  /** `notify` makes |recipients| x |observers| calls. */
  lemma {:induction false} FanoutLength(rs: seq<Dict>, obs: seq<Observer>)
    ensures |Fanout(rs, obs)| == |rs| * |obs|
  {
    if rs != [] {
      FanoutLength(rs[..|rs| - 1], obs);
      CallsForShape(rs[|rs| - 1], obs);
      assert (|rs| - 1) * |obs| + |obs| == |rs| * |obs|;
    }
  }

  lemma {:induction false} FanoutAppend(a: seq<Dict>, b: seq<Dict>, obs: seq<Observer>)
    ensures Fanout(a + b, obs) == Fanout(a, obs) + Fanout(b, obs)
  {
    if b == [] {
      assert a + b == a;
    } else {
      var init, last := b[..|b| - 1], b[|b| - 1];
      FanoutAppend(a, init, obs);
      assert (a + b)[..|a + b| - 1] == a + init;
      assert (a + b)[|a + b| - 1] == last;
      calc {
        Fanout(a + b, obs);
        Fanout(a + init, obs) + CallsFor(last, obs);
        Fanout(a, obs) + Fanout(init, obs) + CallsFor(last, obs);
        Fanout(a, obs) + Fanout(b, obs);
      }
    }
  }

  /** The calls come user after user in input order, and each user's calls are one
      call per observer in registry order — whatever the replies, so an observer
      that fails or raises for one user stops neither the next observer nor the
      next user. */
  lemma FanoutOrder(rs: seq<Dict>, obs: seq<Observer>, i: nat)
    requires i < |rs|
    ensures Fanout(rs, obs) == Fanout(rs[..i], obs) + CallsFor(rs[i], obs) + Fanout(rs[i + 1..], obs)
  {
    assert rs == rs[..i] + [rs[i]] + rs[i + 1..];
    FanoutAppend(rs[..i] + [rs[i]], rs[i + 1..], obs);
    FanoutAppend(rs[..i], [rs[i]], obs);
    assert Fanout([rs[i]], obs) == Fanout([], obs) + CallsFor(rs[i], obs);
  }

  /** Every call is addressed to one of the recipients, through an attached observer. */
  lemma {:induction false} FanoutMembers(rs: seq<Dict>, obs: seq<Observer>)
    ensures forall c :: c in Fanout(rs, obs) ==> c.user in rs && c.observer in obs
  {
    if rs != [] {
      var init := rs[..|rs| - 1];
      FanoutMembers(init, obs);
      CallsForShape(rs[|rs| - 1], obs);
      forall c | c in Fanout(rs, obs) ensures c.user in rs && c.observer in obs {
        if c in Fanout(init, obs) {
          assert c.user in init;
        } else {
          assert c in CallsFor(rs[|rs| - 1], obs);
        }
      }
    }
  }

  lemma {:induction false} SuccessesAtMost(listing: Dict, calls: seq<Call>, foreign: ForeignUpdate)
    ensures Successes(listing, calls, foreign) <= |calls|
  {
    if calls != [] {
      SuccessesAtMost(listing, calls[..|calls| - 1], foreign);
    }
  }

  /** `notify` never calls an observer for the listing's own vendor. */
  lemma NotifySkipsVendor(listing: Dict, users: seq<Dict>, obs: seq<Observer>)
    ensures forall c :: c in NotifyCalls(listing, users, obs) ==>
      "id" in c.user && "vendor_id" in listing && !PyEquals(c.user["id"], listing["vendor_id"])
  {
    if "title" in listing {
      var handled := users[..Reach(listing, users)];
      FanoutMembers(Recipients(listing, handled), obs);
      RecipientsExactly(listing, handled);
    }
  }

  /** When `notify` returns, its count lies between 0 and #recipients x #observers,
      and one call was made per (recipient, observer) pair. */
  lemma NotifyCountBound(listing: Dict, users: seq<Dict>, obs: seq<Observer>, foreign: ForeignUpdate)
    requires NotifyResult(listing, users, obs, foreign).Success?
    ensures NotifyResult(listing, users, obs, foreign).value <= |Recipients(listing, users)| * |obs|
    ensures |NotifyCalls(listing, users, obs)| == |Recipients(listing, users)| * |obs|
  {
    assert users[..Reach(listing, users)] == users;
    FanoutLength(Recipients(listing, users), obs);
    SuccessesAtMost(listing, NotifyCalls(listing, users, obs), foreign);
  }

  /** A well-keyed `notify` call returns instead of raising, whatever the observers
      do: the exceptions of observers are caught. */
  lemma NotifyReturns(listing: Dict, users: seq<Dict>, obs: seq<Observer>, foreign: ForeignUpdate)
    requires "title" in listing
    requires forall i :: 0 <= i < |users| ==> Keyed(listing, users[i])
    ensures NotifyResult(listing, users, obs, foreign).Success?
    ensures NotifyCalls(listing, users, obs) == Fanout(Recipients(listing, users), obs)
  {
    assert users[..|users|] == users;
  }

  // ---------------------------------------------------------------------------
  // Concrete runs.
  // ---------------------------------------------------------------------------

  /** `notify` for a single addressed user makes that user's calls and nothing else. */
  lemma NotifyOneUser(listing: Dict, user: Dict, obs: seq<Observer>, foreign: ForeignUpdate)
    requires "title" in listing && Addressee(listing, user)
    ensures NotifyCalls(listing, [user], obs) == CallsFor(user, obs)
    ensures NotifyResult(listing, [user], obs, foreign) == Success(Successes(listing, CallsFor(user, obs), foreign))
  {
    ReachAt(listing, [user], 1);
    assert [user][..1] == [user];
    assert [user][..0] == [];
    assert Recipients(listing, [user]) == [] + [user];
    assert Fanout([user], obs) == [] + CallsFor(user, obs);
  }

  /** The listing dict of the repository's `notify` test. */
  const TestListing: Dict := map[
    "id" := Int(1), "vendor_id" := Int(1), "title" := Str("Test Food"), "quantity" := Int(10),
    "unit" := Str("kg"), "pickup_address" := Str("Test Address"), "expiry_time" := Time(0)]

  /** The user dict of that test: a user other than the vendor, with email and phone. */
  const TestUser: Dict := map[
    "id" := Int(2), "name" := Str("Test User"), "email" := Str("test@example.com"),
    "phone" := Str("+1234567890")]

  lemma TestDictsKeyed()
    ensures "title" in TestListing && Addressee(TestListing, TestUser)
    ensures HasKeys(TestUser, EmailUserKeys) && HasKeys(TestListing, EmailListingKeys)
    ensures HasKeys(TestListing, PushListingKeys)
  {
  }

  /** The calls for one user and two or three observers, in registry order. */
  lemma CallsForFew(user: Dict, o0: Observer, o1: Observer, o2: Observer)
    ensures CallsFor(user, [o0, o1]) == [Call(user, o0), Call(user, o1)]
    ensures CallsFor(user, [o0, o1, o2]) == [Call(user, o0), Call(user, o1), Call(user, o2)]
  {
    var obs := [o0, o1, o2];
    CallsForStep(user, obs, 0);
    CallsForStep(user, obs, 1);
    CallsForStep(user, obs, 2);
    assert obs[..0] == [] && obs[..1] == [o0] && obs[..2] == [o0, o1] && obs[..3] == obs;
  }

  /** The count over two or three calls adds up their truthy replies. */
  lemma SuccessesFew(listing: Dict, c0: Call, c1: Call, c2: Call, foreign: ForeignUpdate)
    ensures Successes(listing, [c0, c1], foreign)
      == (if Update(c0.observer, listing, c0.user, foreign) == Sent then 1 else 0)
         + (if Update(c1.observer, listing, c1.user, foreign) == Sent then 1 else 0)
    ensures Successes(listing, [c0, c1, c2], foreign)
      == Successes(listing, [c0, c1], foreign)
         + (if Update(c2.observer, listing, c2.user, foreign) == Sent then 1 else 0)
  {
    SuccessesStep(listing, [], c0, foreign);
    assert [] + [c0] == [c0];
    SuccessesStep(listing, [c0], c1, foreign);
    assert [c0] + [c1] == [c0, c1];
    SuccessesStep(listing, [c0, c1], c2, foreign);
    assert [c0, c1] + [c2] == [c0, c1, c2];
  }

  /** The email notifier succeeds for the test's user and listing. */
  lemma TestEmailSent(foreign: ForeignUpdate)
    ensures Update(Observer(0, Email), TestListing, TestUser, foreign) == Sent
  {
    TestDictsKeyed();
  }

  /** The repository's test attaches one `EmailNotifier` and notifies one user; the
      test only checks the count is non-negative, the model shows it is exactly 1. */
  lemma TestNotifyCountsOne(foreign: ForeignUpdate)
    ensures NotifyResult(TestListing, [TestUser], [Observer(0, Email)], foreign) == Success(1)
  {
    var obs := [Observer(0, Email)];
    var c := Call(TestUser, obs[0]);
    TestDictsKeyed();
    TestEmailSent(foreign);
    NotifyOneUser(TestListing, TestUser, obs, foreign);
    CallsForShape(TestUser, obs);
    assert CallsFor(TestUser, obs) == [] + [c];
    SuccessesStep(TestListing, [], c, foreign);
  }

  /** A user with an email address and no phone number. */
  const NoPhoneUser: Dict := map["id" := Int(3), "name" := Str("No Phone"), "email" := Str("nophone@example.com")]

  lemma NoPhoneUserKeyed()
    ensures Addressee(TestListing, NoPhoneUser) && HasKeys(NoPhoneUser, EmailUserKeys)
    ensures Get(NoPhoneUser, "phone") == Null
  {
  }

  /** The replies of the default notifiers for the user without a phone. */
  lemma NoPhoneReplies(foreign: ForeignUpdate)
    ensures Update(DefaultObservers[0], TestListing, NoPhoneUser, foreign) == Sent
    ensures Update(DefaultObservers[1], TestListing, NoPhoneUser, foreign) == NotSent
    ensures Update(DefaultObservers[2], TestListing, NoPhoneUser, foreign) == Sent
  {
    TestDictsKeyed();
    NoPhoneUserKeyed();
  }

  /** With the default registry, a user without a phone gets the email and the push
      notification and no SMS: two truthy replies out of three calls. */
  lemma DefaultRegistryNoPhone(foreign: ForeignUpdate)
    ensures NotifyResult(TestListing, [NoPhoneUser], DefaultObservers, foreign) == Success(2)
    ensures |NotifyCalls(TestListing, [NoPhoneUser], DefaultObservers)| == 3
  {
    var user, obs := NoPhoneUser, DefaultObservers;
    NoPhoneUserKeyed();
    NoPhoneReplies(foreign);
    NotifyOneUser(TestListing, user, obs, foreign);
    CallsForFew(user, obs[0], obs[1], obs[2]);
    SuccessesFew(TestListing, Call(user, obs[0]), Call(user, obs[1]), Call(user, obs[2]), foreign);
  }

  /** An observer that raises for a user does not stop the next observer for the
      same user: the email after it is still sent and counted. */
  lemma RaisingObserverIsolated(foreign: ForeignUpdate)
    requires foreign(7, TestListing, TestUser) == Raised
    ensures NotifyResult(TestListing, [TestUser], [Observer(7, Custom), Observer(0, Email)], foreign) == Success(1)
    ensures NotifyCalls(TestListing, [TestUser], [Observer(7, Custom), Observer(0, Email)])
      == [Call(TestUser, Observer(7, Custom)), Call(TestUser, Observer(0, Email))]
  {
    TestDictsKeyed();
    TestEmailSent(foreign);
    var custom, email := Observer(7, Custom), Observer(0, Email);
    NotifyOneUser(TestListing, TestUser, [custom, email], foreign);
    CallsForFew(TestUser, custom, email, email);
    SuccessesFew(TestListing, Call(TestUser, custom), Call(TestUser, email), Call(TestUser, email), foreign);
  }

  // ---------------------------------------------------------------------------
  // The service.
  // ---------------------------------------------------------------------------

  /** `NotificationService`: the subject of the observer pattern. */
  class NotificationService {
    var observers: seq<Observer>

    ghost predicate Valid()
      reads this
    {
      NoDuplicates(observers)
    }

    constructor ()
      ensures Valid() && observers == []
    {
      observers := [];
    }

    method Attach(o: Observer)
      requires Valid()
      modifies this
      ensures Valid()
      ensures observers == Attached(old(observers), o)
    {
      if o !in observers {
        observers := observers + [o];
      }
    }

    method Detach(o: Observer)
      requires Valid()
      modifies this
      ensures Valid()
      ensures observers == RemoveFirst(old(observers), o)
      ensures o !in observers
    {
      DetachRemoves(observers, o);
      if o in observers {
        observers := RemoveFirst(observers, o);
      } else {
        RemoveAbsent(observers, o);
      }
    }

    method ObserverCount() returns (n: nat)
      ensures n == |observers|
    {
      n := |observers|;
    }

    /** The inner loop of `notify`: every attached observer, in order, is asked to
        `update` for one user; an exception is caught and the loop goes on. */
    method NotifyUser(listing: Dict, user: Dict, foreign: ForeignUpdate)
      returns (sent: nat, calls: seq<Call>)
      ensures calls == CallsFor(user, observers)
      ensures sent == Successes(listing, calls, foreign)
    {
      sent, calls := 0, [];
      var j := 0;
      while j < |observers|
        invariant 0 <= j <= |observers|
        invariant calls == CallsFor(user, observers[..j])
        invariant sent == Successes(listing, calls, foreign)
      {
        var observer := observers[j];
        var reply := Update(observer, listing, user, foreign);
        CallsForStep(user, observers, j);
        SuccessesStep(listing, calls, Call(user, observer), foreign);
        calls := calls + [Call(user, observer)];
        if reply == Sent {
          sent := sent + 1;
        }
        j := j + 1;
      }
      assert observers[..|observers|] == observers;
    }

    /** `notify(listing_data, nearby_users)`: returns the count of truthy replies
        (or the `KeyError` raised by the loop) together with the calls made. */
    method Notify(listing: Dict, users: seq<Dict>, foreign: ForeignUpdate)
      returns (result: Result<nat, PyError>, calls: seq<Call>)
      ensures result == NotifyResult(listing, users, observers, foreign)
      ensures calls == NotifyCalls(listing, users, observers)
    {
      calls := [];
      if "title" !in listing {
        return Failure(KeyError("title")), calls;
      }
      var count := 0;
      var i := 0;
      while i < |users|
        invariant 0 <= i <= |users|
        invariant forall j :: 0 <= j < i ==> Keyed(listing, users[j])
        invariant calls == Fanout(Recipients(listing, users[..i]), observers)
        invariant count == Successes(listing, calls, foreign)
      {
        var user := users[i];
        if "id" !in user || "vendor_id" !in listing {
          NotifyStopsAt(listing, users, observers, foreign, i);
          var key := if "id" !in user then "id" else "vendor_id";
          return Failure(KeyError(key)), calls;
        }
        FanoutStep(listing, users, observers, i);
        if !PyEquals(user["id"], listing["vendor_id"]) {
          var sent, userCalls := NotifyUser(listing, user, foreign);
          SuccessesAppend(listing, calls, userCalls, foreign);
          calls := calls + userCalls;
          count := count + sent;
        }
        i := i + 1;
      }
      NotifyRunsThrough(listing, users, observers, foreign);
      result := Success(count);
    }
  }

  /** The module-level singleton: Email, SMS and Push notifiers attached in that order. */
  const DefaultObservers: seq<Observer> := [Observer(0, Email), Observer(1, Sms), Observer(2, Push)]

  method DefaultService() returns (s: NotificationService)
    ensures fresh(s) && s.Valid()
    ensures s.observers == DefaultObservers
  {
    s := new NotificationService();
    s.Attach(Observer(0, Email));
    s.Attach(Observer(1, Sms));
    s.Attach(Observer(2, Push));
  }
}
