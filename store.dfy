/** The route handlers of the server over an in-memory stand-in for the five
    collections. Handlers that write are methods of `Store`; handlers that only read
    are functions of it. Requests run one after another. */
module Bistro {
  import opened Wrappers
  import opened Documents
  import opened Auth
  import opened Analytics

  /** What a handler answers: a 401/403 refusal from a gate, an exception thrown inside
      the handler (a malformed id, a duplicate `_id`), or a response body. */
  datatype Reply<T> = Refused(status: int) | Thrown | Sent(body: T)

  /** The refusal a failed gate sends. */
  function Refusal<T>(g: Gate): (r: Reply<T>)
    requires !g.Granted?
  {
    match g
    case Unauthorized => Refused(401)
    case Forbidden => Refused(403)
  }

  /** The result of `POST /users`: the new `_id`, or the "already exists" answer whose
      `insertedId` is null. */
  datatype Registration = Inserted(insertedId: Key) | AlreadyExists

  datatype UpdateResult = UpdateResult(matchedCount: nat, modifiedCount: nat)

  datatype DeleteResult = DeleteResult(deletedCount: nat)

  /** The result of `POST /payments`: the payment's `_id` and how many carts went. */
  datatype CheckoutResult = CheckoutResult(insertedId: Key, deletedCount: nat)

  /** The contents of the five collections. */
  datatype Db = Db(
    users: map<Key, User>, menu: map<Key, MenuItem>, reviews: map<Key, Review>,
    carts: map<Key, Cart>, payments: map<Key, Payment>)

  /** Every collection keeps its `ObjectId` keys canonical. */
  ghost predicate WellKeyedDb(db: Db) {
    WellKeyed(db.users) && WellKeyed(db.menu) && WellKeyed(db.reviews) &&
    WellKeyed(db.carts) && WellKeyed(db.payments)
  }

  /** An `_id` a handler may insert under: generated by the driver, or a string. */
  predicate Insertable(id: Key) {
    id.ObjectId? ==> IsCanonical(id)
  }

  /** `payment.cartIds.map(id => new ObjectId(id))` as the set of keys of `$in`, or
      `None` when one of the ids makes the constructor throw. */
  function CartKeys(ids: seq<string>): (keys: Option<set<Key>>)
    ensures keys.Some? <==> forall i :: 0 <= i < |ids| ==> IsObjectIdString(ids[i])
    ensures keys.Some? ==>
      forall k :: k in keys.value <==> exists i :: 0 <= i < |ids| && ParseObjectId(ids[i]) == Some(k)
    decreases |ids|
  {
    if ids == [] then Some({})
    else
      match ParseObjectId(ids[0])
      case None => None
      case Some(k) =>
        match CartKeys(ids[1..])
        case None => None
        case Some(ks) =>
          assert forall i :: 1 <= i < |ids| ==> ids[1..][i - 1] == ids[i];
          Some({k} + ks)
  }

  /** A user document with its role set to "admin" and nothing else changed. */
  function Promoted(u: User): (v: User)
    ensures v.role == Some(AdminRole) && v.email == u.email && v.name == u.name
  {
    u.(role := Some(AdminRole))
  }

  /** A menu document after `$set` of the five patch fields; its other fields stay. */
  function Patched(m: MenuItem, p: MenuPatch): (n: MenuItem)
    ensures n.name == p.name && n.category == p.category && n.price == p.price
    ensures n.recipe == p.recipe && n.image == p.image
    ensures n.extra == m.extra
  {
    m.(name := p.name, category := p.category, price := p.price, recipe := p.recipe, image := p.image)
  }

  class Store {
    var users: map<Key, User>
    var menu: map<Key, MenuItem>
    var reviews: map<Key, Review>
    var carts: map<Key, Cart>
    var payments: map<Key, Payment>

    /** At most one user per email and canonical `ObjectId` keys, which every handler keeps. */
    ghost predicate Valid()
      reads this
    {
      UniqueEmails(users) && WellKeyedDb(State())
    }

    function State(): Db
      reads this
    {
      Db(users, menu, reviews, carts, payments)
    }

    /** The database as the server finds it at start-up. */
    constructor (initial: Db)
      requires UniqueEmails(initial.users) && WellKeyedDb(initial)
      ensures Valid() && State() == initial
    {
      users, menu, reviews := initial.users, initial.menu, initial.reviews;
      carts, payments := initial.carts, initial.payments;
    }

    // ------------------------------------------------------------ users

    /** `GET /users` (admin only): the whole users collection. */
    function ListUsers(authorization: Option<string>, verify: Verifier): (r: Reply<map<Key, User>>)
      reads this
      ensures !HeaderPresent(authorization) ==> r == Refused(401)
      ensures r.Sent? <==> VerifyToken(authorization, verify).Granted? &&
                           IsAdmin(users, VerifyToken(authorization, verify).claims.email)
      ensures r.Sent? ==> r.body == users
      ensures !r.Sent? ==> r == Refusal(AdminChain(authorization, verify, users))
    {
      var g := AdminChain(authorization, verify, users);
      if g.Granted? then Sent(users) else Refusal(g)
    }

    /** `GET /users/admin/:email`: 403 when the path email is not the caller's; otherwise
        whether a user with that email exists and has the role "admin". */
    function AdminFlag(authorization: Option<string>, verify: Verifier, email: string): (r: Reply<bool>)
      reads this
      ensures !HeaderPresent(authorization) ==> r == Refused(401)
      ensures (VerifyToken(authorization, verify).Granted? &&
               VerifyToken(authorization, verify).claims.email != Some(email)) ==> r == Refused(403)
      ensures r.Sent? <==> VerifyToken(authorization, verify) == Granted(Claims(Some(email)))
      ensures !r.Sent? ==> r == Refusal(OwnerChain(authorization, verify, email))
      ensures r.Sent? ==> (r.body <==>
        exists k :: k in users && users[k].email == Some(email) && users[k].role == Some(AdminRole))
    {
      var g := OwnerChain(authorization, verify, email);
      if !g.Granted? then Refusal(g)
      else Sent(IsAdmin(users, Some(email)))
    }

    /** `POST /users`: registers the user unless one with the same email exists, in which
        case nothing changes and `insertedId` is null. `id` is the `_id` the document gets
        (its own or one the driver generates); an `_id` already in use makes the insert throw. */
    method RegisterUser(user: User, id: Key) returns (r: Reply<Registration>)
      requires Valid() && Insertable(id)
      modifies this
      ensures Valid()
      ensures EmailTaken(old(users), user.email) ==> r == Sent(AlreadyExists) && State() == old(State())
      ensures !EmailTaken(old(users), user.email) && id in old(users) ==> r == Thrown && State() == old(State())
      ensures !EmailTaken(old(users), user.email) && id !in old(users) ==>
        r == Sent(Inserted(id)) && State() == old(State()).(users := old(users)[id := user])
    {
      if EmailTaken(users, user.email) {
        return Sent(AlreadyExists);
      }
      if id in users {
        return Thrown;
      }
      users := users[id := user];
      r := Sent(Inserted(id));
    }

    /** `PATCH /users/admin/:id` (admin only): sets `role` to "admin" on the user with that
        `_id` and changes nothing else; `modifiedCount` is 0 when it already was an admin. */
    method PromoteUser(authorization: Option<string>, verify: Verifier, id: string) returns (r: Reply<UpdateResult>)
      requires Valid()
      modifies this
      ensures Valid()
      ensures !AdminChain(authorization, verify, old(users)).Granted? ==>
        r == Refusal(AdminChain(authorization, verify, old(users))) && State() == old(State())
      ensures AdminChain(authorization, verify, old(users)).Granted? && ParseObjectId(id).None? ==>
        r == Thrown && State() == old(State())
      ensures AdminChain(authorization, verify, old(users)).Granted? && ParseObjectId(id).Some? ==>
        var k := ParseObjectId(id).value;
        if k in old(users) then
          && r == Sent(UpdateResult(1, if old(users)[k].role == Some(AdminRole) then 0 else 1))
          && State() == old(State()).(users := old(users)[k := Promoted(old(users)[k])])
        else
          r == Sent(UpdateResult(0, 0)) && State() == old(State())
    {
      var g := AdminChain(authorization, verify, users);
      if !g.Granted? {
        return Refusal(g);
      }
      var key := ParseObjectId(id);
      if key.None? {
        return Thrown;
      }
      var k := key.value;
      if k !in users {
        return Sent(UpdateResult(0, 0));
      }
      var u := users[k];
      users := users[k := Promoted(u)];
      r := Sent(UpdateResult(1, if u.role == Some(AdminRole) then 0 else 1));
    }

    /** `DELETE /users/:id` (admin only): removes the user with that `_id`, if any. */
    method DeleteUser(authorization: Option<string>, verify: Verifier, id: string) returns (r: Reply<DeleteResult>)
      requires Valid()
      modifies this
      ensures Valid()
      ensures !AdminChain(authorization, verify, old(users)).Granted? ==>
        r == Refusal(AdminChain(authorization, verify, old(users))) && State() == old(State())
      ensures AdminChain(authorization, verify, old(users)).Granted? && ParseObjectId(id).None? ==>
        r == Thrown && State() == old(State())
      ensures AdminChain(authorization, verify, old(users)).Granted? && ParseObjectId(id).Some? ==>
        var k := ParseObjectId(id).value;
        && r == Sent(DeleteResult(if k in old(users) then 1 else 0))
        && State() == old(State()).(users := old(users) - {k})
    {
      var g := AdminChain(authorization, verify, users);
      if !g.Granted? {
        return Refusal(g);
      }
      var key := ParseObjectId(id);
      if key.None? {
        return Thrown;
      }
      var k := key.value;
      r := Sent(DeleteResult(if k in users then 1 else 0));
      users := users - {k};
    }

    // ------------------------------------------------------------ menu

    /** `GET /menu/:id`: the item with that `_id`, `None` (null) when there is none; a
        malformed id throws. */
    function GetMenuItem(id: string): (r: Reply<Option<MenuItem>>)
      reads this
      ensures r == Thrown <==> !IsObjectIdString(id)
      ensures r.Sent? <==> IsObjectIdString(id)
      ensures r.Sent? ==> (r.body.Some? <==> ParseObjectId(id).value in menu)
      ensures r.Sent? && r.body.Some? ==> r.body.value == menu[ParseObjectId(id).value]
      ensures r.Sent? && r.body.Some? ==> exists k :: k in menu && IsCanonical(k) && menu[k] == r.body.value
    {
      match ParseObjectId(id)
      case None => Thrown
      case Some(k) => Sent(if k in menu then Some(menu[k]) else None)
    }

    /** `POST /menu` (admin only): stores the item under `id`. */
    method AddMenuItem(authorization: Option<string>, verify: Verifier, item: MenuItem, id: Key) returns (r: Reply<Key>)
      requires Valid() && Insertable(id)
      modifies this
      ensures Valid()
      ensures !AdminChain(authorization, verify, old(users)).Granted? ==>
        r == Refusal(AdminChain(authorization, verify, old(users))) && State() == old(State())
      ensures AdminChain(authorization, verify, old(users)).Granted? && id in old(menu) ==>
        r == Thrown && State() == old(State())
      ensures AdminChain(authorization, verify, old(users)).Granted? && id !in old(menu) ==>
        r == Sent(id) && State() == old(State()).(menu := old(menu)[id := item])
    {
      var g := AdminChain(authorization, verify, users);
      if !g.Granted? {
        return Refusal(g);
      }
      if id in menu {
        return Thrown;
      }
      menu := menu[id := item];
      r := Sent(id);
    }

    /** `PATCH /menu/:id` (no gate): overwrites name, category, price, recipe and image of
        the item with that `_id` and nothing else; `modifiedCount` is 0 when nothing differs. */
    method PatchMenuItem(id: string, patch: MenuPatch) returns (r: Reply<UpdateResult>)
      requires Valid()
      modifies this
      ensures Valid()
      ensures ParseObjectId(id).None? ==> r == Thrown && State() == old(State())
      ensures ParseObjectId(id).Some? ==>
        var k := ParseObjectId(id).value;
        if k in old(menu) then
          && r == Sent(UpdateResult(1, if Patched(old(menu)[k], patch) == old(menu)[k] then 0 else 1))
          && State() == old(State()).(menu := old(menu)[k := Patched(old(menu)[k], patch)])
        else
          r == Sent(UpdateResult(0, 0)) && State() == old(State())
    {
      var key := ParseObjectId(id);
      if key.None? {
        return Thrown;
      }
      var k := key.value;
      if k !in menu {
        return Sent(UpdateResult(0, 0));
      }
      var before := menu[k];
      var after := Patched(before, patch);
      menu := menu[k := after];
      r := Sent(UpdateResult(1, if after == before then 0 else 1));
    }

    /** `DELETE /menu/:id` (admin only): removes the item with that `_id`, if any. */
    method DeleteMenuItem(authorization: Option<string>, verify: Verifier, id: string) returns (r: Reply<DeleteResult>)
      requires Valid()
      modifies this
      ensures Valid()
      ensures !AdminChain(authorization, verify, old(users)).Granted? ==>
        r == Refusal(AdminChain(authorization, verify, old(users))) && State() == old(State())
      ensures AdminChain(authorization, verify, old(users)).Granted? && ParseObjectId(id).None? ==>
        r == Thrown && State() == old(State())
      ensures AdminChain(authorization, verify, old(users)).Granted? && ParseObjectId(id).Some? ==>
        var k := ParseObjectId(id).value;
        && r == Sent(DeleteResult(if k in old(menu) then 1 else 0))
        && State() == old(State()).(menu := old(menu) - {k})
    {
      var g := AdminChain(authorization, verify, users);
      if !g.Granted? {
        return Refusal(g);
      }
      var key := ParseObjectId(id);
      if key.None? {
        return Thrown;
      }
      var k := key.value;
      r := Sent(DeleteResult(if k in menu then 1 else 0));
      menu := menu - {k};
    }

    // ------------------------------------------------------------ carts

    /** `GET /carts?email=`: exactly the carts whose email equals the query's (a missing
        query email matches the carts without one). */
    function CartsOf(email: Email): (r: map<Key, Cart>)
      reads this
      ensures forall k :: k in r <==> k in carts && carts[k].email == email
      ensures forall k :: k in r ==> r[k] == carts[k]
    {
      map k | k in carts && carts[k].email == email :: carts[k]
    }

    /** `POST /carts` (no gate): stores the cart item under `id`. */
    method AddCart(cart: Cart, id: Key) returns (r: Reply<Key>)
      requires Valid() && Insertable(id)
      modifies this
      ensures Valid()
      ensures id in old(carts) ==> r == Thrown && State() == old(State())
      ensures id !in old(carts) ==> r == Sent(id) && State() == old(State()).(carts := old(carts)[id := cart])
    {
      if id in carts {
        return Thrown;
      }
      carts := carts[id := cart];
      r := Sent(id);
    }

    /** `DELETE /carts/:id` (no gate): removes the cart with that `_id`, if any. */
    method DeleteCart(id: string) returns (r: Reply<DeleteResult>)
      requires Valid()
      modifies this
      ensures Valid()
      ensures ParseObjectId(id).None? ==> r == Thrown && State() == old(State())
      ensures ParseObjectId(id).Some? ==>
        var k := ParseObjectId(id).value;
        && r == Sent(DeleteResult(if k in old(carts) then 1 else 0))
        && State() == old(State()).(carts := old(carts) - {k})
    {
      var key := ParseObjectId(id);
      if key.None? {
        return Thrown;
      }
      var k := key.value;
      r := Sent(DeleteResult(if k in carts then 1 else 0));
      carts := carts - {k};
    }

    // ------------------------------------------------------------ payments

    /** `GET /payments/:email`: 403 when the path email is not the caller's; otherwise
        exactly the payments with that email. */
    function PaymentsOf(authorization: Option<string>, verify: Verifier, email: string): (r: Reply<map<Key, Payment>>)
      reads this
      ensures !HeaderPresent(authorization) ==> r == Refused(401)
      ensures (VerifyToken(authorization, verify).Granted? &&
               VerifyToken(authorization, verify).claims.email != Some(email)) ==> r == Refused(403)
      ensures r.Sent? <==> VerifyToken(authorization, verify) == Granted(Claims(Some(email)))
      ensures !r.Sent? ==> r == Refusal(OwnerChain(authorization, verify, email))
      ensures r.Sent? ==> forall k :: k in r.body <==> k in payments && payments[k].email == Some(email)
      ensures r.Sent? ==> forall k :: k in r.body ==> r.body[k] == payments[k]
    {
      var g := OwnerChain(authorization, verify, email);
      if !g.Granted? then Refusal(g)
      else Sent(map k | k in payments && payments[k].email == Some(email) :: payments[k])
    }

    /** `POST /payments` (no gate): first inserts the payment under `id`, then deletes every
        cart whose `_id` is listed in `cartIds`. A malformed cart id throws after the
        insert, so the payment stays and no cart goes; a used `_id` throws before anything. */
    method RecordPayment(payment: Payment, id: Key) returns (r: Reply<CheckoutResult>)
      requires Valid() && Insertable(id)
      modifies this
      ensures Valid()
      ensures id in old(payments) ==> r == Thrown && State() == old(State())
      ensures id !in old(payments) && CartKeys(payment.cartIds).None? ==>
        r == Thrown && State() == old(State()).(payments := old(payments)[id := payment])
      ensures id !in old(payments) && CartKeys(payment.cartIds).Some? ==>
        var ks := CartKeys(payment.cartIds).value;
        && r == Sent(CheckoutResult(id, |old(carts).Keys * ks|))
        && State() == old(State()).(payments := old(payments)[id := payment], carts := old(carts) - ks)
      ensures id !in old(payments) ==> Revenue(payments) == old(Revenue(payments)) + payment.price
    {
      if id in payments {
        return Thrown;
      }
      RevenueInsert(payments, id, payment);
      payments := payments[id := payment];
      var keys := CartKeys(payment.cartIds);
      if keys.None? {
        return Thrown;
      }
      var ks := keys.value;
      var deleted := carts.Keys * ks;
      carts := carts - ks;
      r := Sent(CheckoutResult(id, |deleted|));
    }

    // ------------------------------------------------------------ analytics

    /** `GET /admin-stats` (no gate): the three counts and the revenue. */
    ghost function AdminStatsReply(): (r: AdminStats)
      reads this
      ensures r.users == |users| && r.menuItems == |menu| && r.orders == |payments|
      ensures r.revenue == Revenue(payments)
      ensures payments == map[] ==> r.revenue == 0.0
    {
      Stats(users, menu, payments)
    }

    /** `GET /order-stats` (admin only): the category report over all payments. */
    ghost function OrderStatsReply(authorization: Option<string>, verify: Verifier): (r: Reply<seq<Row>>)
      reads this
      ensures !HeaderPresent(authorization) ==> r == Refused(401)
      ensures r.Sent? <==> AdminChain(authorization, verify, users).Granted?
      ensures !r.Sent? ==> r == Refusal(AdminChain(authorization, verify, users))
      ensures r.Sent? ==> r.body == OrderStats(payments, menu)
      ensures r.Sent? ==> DistinctCategories(r.body)
      ensures r.Sent? ==> forall c :: QuantityOf(r.body, c) == Count(Lines(payments, menu), c)
      ensures r.Sent? ==> forall c :: RevenueOf(r.body, c) == CategoryRevenue(Lines(payments, menu), c)
      ensures r.Sent? ==> TotalQuantity(r.body) == |Lines(payments, menu)|
      ensures r.Sent? ==> TotalRevenue(r.body) == SumPrices(Lines(payments, menu))
    {
      var g := AdminChain(authorization, verify, users);
      if g.Granted? then Sent(OrderStats(payments, menu)) else Refusal(g)
    }
  }
  /** Registering the same email twice stores one user: the second call answers "already
      exists" and leaves the collection as the first call left it. */
  method RegisterTwice(store: Store, user: User, id1: Key, id2: Key) returns (first: Reply<Registration>, second: Reply<Registration>)
    requires store.Valid()
    requires !EmailTaken(store.users, user.email) && id1 !in store.users
    requires Insertable(id1) && Insertable(id2)
    modifies store
    ensures store.Valid()
    ensures first == Sent(Inserted(id1)) && second == Sent(AlreadyExists)
    ensures store.users == old(store.users)[id1 := user]
  {
    first := store.RegisterUser(user, id1);
    assert store.users[id1].email == user.email;
    second := store.RegisterUser(user, id2);
  }

  /** Deleting a cart by the id its insert answered undoes the insert: the collections are
      back as they were and one cart is reported deleted. */
  method AddThenDeleteCart(store: Store, cart: Cart, id: Key) returns (added: Reply<Key>, deleted: Reply<DeleteResult>)
    requires store.Valid()
    requires IsCanonical(id) && id !in store.carts
    modifies store
    ensures store.Valid()
    ensures added == Sent(id) && deleted == Sent(DeleteResult(1))
    ensures store.State() == old(store.State())
  {
    added := store.AddCart(cart, id);
    ParseCanonical(id);
    deleted := store.DeleteCart(id.hex);
    assert old(store.carts)[id := cart] - {id} == old(store.carts);
  }

  /** Every menu item stored under an `ObjectId` is found by `GET /menu/:id` with that
      id's hex string, because stored `ObjectId` keys are canonical. */
  lemma MenuItemReachable(store: Store, k: Key)
    requires store.Valid()
    requires k in store.menu && k.ObjectId?
    ensures store.GetMenuItem(k.hex) == Sent(Some(store.menu[k]))
  {
    ParseCanonical(k);
  }
}
