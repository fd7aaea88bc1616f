/**
 * The server's in-memory store (`MemStorage` in server/storage.ts): three
 * id-keyed tables (products, orders, users) and the counters that hand out
 * their ids.  A JavaScript `Map` lists its values in the order their keys
 * were first inserted, so each table is a `map` together with the sequence
 * of its keys in insertion order.  The source's methods are `async`; here
 * they complete at once.
 */
module Store {
  import opened Wrappers
  import opened Schema
  import Seqs

  /** `Math.max`. */
  function Max(a: int, b: int): (m: int)
    ensures m >= a && m >= b && (m == a || m == b)
  {
    if a >= b then a else b
  }

  /** `keys` lists every key of `m` exactly once: the insertion order of a `Map`. */
  ghost predicate InsertionOrder<T>(m: map<int, T>, keys: seq<int>) {
    && (forall i, j :: 0 <= i < j < |keys| ==> keys[i] != keys[j])
    && (forall i :: 0 <= i < |keys| ==> keys[i] in m)
    && (forall k :: k in m ==> k in keys)
  }

  /**
   * `Array.from(m.values())`: the values in the order of `keys`; when `keys`
   * is the map's insertion order, every stored value is listed.
   */
  function InOrder<T>(m: map<int, T>, keys: seq<int>): (vs: seq<T>)
    requires forall i :: 0 <= i < |keys| ==> keys[i] in m
    ensures |vs| == |keys|
    ensures forall i :: 0 <= i < |keys| ==> vs[i] == m[keys[i]]
    ensures InsertionOrder(m, keys) ==> forall k :: k in m ==> m[k] in vs
  {
    var vs := seq(|keys|, i requires 0 <= i < |keys| => m[keys[i]]);
    assert InsertionOrder(m, keys) ==> forall k :: k in m ==> m[k] in vs by {
      if InsertionOrder(m, keys) {
        forall k | k in m ensures m[k] in vs {
          var i :| 0 <= i < |keys| && keys[i] == k;
          assert vs[i] == m[k];
        }
      }
    }
    vs
  }

  function WithSlug(slug: string): Product -> bool {
    (p: Product) => p.slug == slug
  }

  function InCategory(category: string): Product -> bool {
    (p: Product) => p.category == category
  }

  function WithUsername(username: string): User -> bool {
    (u: User) => u.username == username
  }

  // ---------------------------------------------------------------------
  // The seeded catalogue

  /**
   * A seeded product.  Only the id, slug, name, category, "new" flag and
   * price are the catalogue's own; the descriptive text, pictures and
   * related-product lists are left empty.
   */
  function SeedProduct(id: int, slug: string, name: string, category: string, isNew: bool, price: int): Product {
    Product(id, slug, name, category, Some(isNew), price, "", "", [], "", None, None, None)
  }

  /** The `productData` list of `initializeProducts`, in its order. */
  const Seed: seq<Product> := [
    SeedProduct(1, "yx1-earphones", "YX1 Wireless Earphones", "earphones", true, 599),
    SeedProduct(2, "xx59-headphones", "XX59 Headphones", "headphones", false, 899),
    SeedProduct(3, "xx99-mark-one-headphones", "XX99 Mark I Headphones", "headphones", false, 1750),
    SeedProduct(4, "xx99-mark-two-headphones", "XX99 Mark II Headphones", "headphones", true, 2999),
    SeedProduct(5, "zx9-speaker", "ZX9 Speaker", "speakers", true, 4500),
    SeedProduct(6, "zx7-speaker", "ZX7 Speaker", "speakers", false, 3500)
  ]

  predicate DistinctIds(ps: seq<Product>) {
    forall i, j :: 0 <= i < j < |ps| ==> ps[i].id != ps[j].id
  }

  predicate DistinctSlugs(ps: seq<Product>) {
    forall i, j :: 0 <= i < j < |ps| ==> ps[i].slug != ps[j].slug
  }

  function ProductIds(ps: seq<Product>): seq<int> {
    seq(|ps|, i requires 0 <= i < |ps| => ps[i].id)
  }

  /** The products table after the `forEach` of `initializeProducts` has set each of `ps`. */
  function SeededTable(ps: seq<Product>): map<int, Product> {
    if ps == [] then map[] else SeededTable(ps[..|ps| - 1])[ps[|ps| - 1].id := ps[|ps| - 1]]
  }

  /** Its keys in insertion order: setting a key already present keeps its place. */
  function SeededKeys(ps: seq<Product>): seq<int> {
    if ps == [] then []
    else
      var last := ps[|ps| - 1];
      var keys := SeededKeys(ps[..|ps| - 1]);
      if last.id in SeededTable(ps[..|ps| - 1]) then keys else keys + [last.id]
  }

  /** `currentProductId` after the loop, starting from 1. */
  function SeededNextId(ps: seq<Product>): int {
    if ps == [] then 1 else Max(SeededNextId(ps[..|ps| - 1]), ps[|ps| - 1].id + 1)
  }

  /** Seeding keeps the table's invariant: keys in insertion order, each product under its own id, ids below the counter. */
  lemma {:induction false} SeededIsValid(ps: seq<Product>)
    ensures InsertionOrder(SeededTable(ps), SeededKeys(ps))
    ensures forall k :: k in SeededTable(ps) ==> SeededTable(ps)[k].id == k && k < SeededNextId(ps)
    ensures SeededNextId(ps) >= 1
  {
    if ps != [] {
      SeededIsValid(ps[..|ps| - 1]);
    }
  }

  /** Every product set during seeding is found under its id, holding the last product set there. */
  lemma {:induction false} SeededHasEveryId(ps: seq<Product>)
    ensures forall i :: 0 <= i < |ps| ==> ps[i].id in SeededTable(ps)
    ensures forall k :: k in SeededTable(ps) <==> k in ProductIds(ps)
  {
    if ps != [] {
      var init := ps[..|ps| - 1];
      SeededHasEveryId(init);
      forall i | 0 <= i < |init| ensures init[i] == ps[i] && ProductIds(init)[i] == ProductIds(ps)[i] { }
      assert ProductIds(ps) == ProductIds(init) + [ps[|ps| - 1].id];
    }
  }

  /** The counter ends at `max(1, largest id + 1)`. */
  lemma {:induction false} SeededNextIdIsMax(ps: seq<Product>)
    ensures SeededNextId(ps) >= 1
    ensures forall i :: 0 <= i < |ps| ==> ps[i].id < SeededNextId(ps)
    ensures SeededNextId(ps) == 1 || exists i :: 0 <= i < |ps| && SeededNextId(ps) == ps[i].id + 1
  {
    if ps != [] {
      var init := ps[..|ps| - 1];
      SeededNextIdIsMax(init);
      assert forall i :: 0 <= i < |init| ==> init[i] == ps[i];
      if SeededNextId(ps) != SeededNextId(init) {
        assert SeededNextId(ps) == ps[|ps| - 1].id + 1;
      }
    }
  }

  /** Dropping the last product keeps the ids distinct, and the last id is new to the rest. */
  lemma DistinctIdsInit(ps: seq<Product>)
    requires DistinctIds(ps) && ps != []
    ensures DistinctIds(ps[..|ps| - 1])
    ensures ps[|ps| - 1].id !in ProductIds(ps[..|ps| - 1])
  {
    var init := ps[..|ps| - 1];
    assert forall i :: 0 <= i < |init| ==> init[i] == ps[i];
    assert forall i :: 0 <= i < |init| ==> ProductIds(init)[i] != ps[|ps| - 1].id;
  }

  lemma ProductIdsInit(ps: seq<Product>)
    requires ps != []
    ensures ProductIds(ps) == ProductIds(ps[..|ps| - 1]) + [ps[|ps| - 1].id]
  {
  }

  /** With distinct ids, each product is stored as given and the keys follow the seed order. */
  lemma {:induction false} SeededDistinct(ps: seq<Product>)
    requires DistinctIds(ps)
    ensures SeededKeys(ps) == ProductIds(ps)
    ensures forall i :: 0 <= i < |ps| ==> ps[i].id in SeededTable(ps)
    ensures forall i :: 0 <= i < |ps| ==> SeededTable(ps)[ps[i].id] == ps[i]
  {
    if ps != [] {
      var init := ps[..|ps| - 1];
      var last := ps[|ps| - 1];
      DistinctIdsInit(ps);
      SeededDistinct(init);
      SeededHasEveryId(init);
      ProductIdsInit(ps);
      assert last.id !in SeededTable(init);
      assert SeededKeys(ps) == SeededKeys(init) + [last.id];
      forall i | 0 <= i < |ps| ensures ps[i].id in SeededTable(ps) && SeededTable(ps)[ps[i].id] == ps[i] {
        if i < |init| {
          assert init[i] == ps[i];
          assert ps[i].id != last.id;
        }
      }
    }
  }

  /** With distinct ids, the seeded catalogue lists the products exactly in seed order. */
  lemma SeededInOrder(ps: seq<Product>)
    requires DistinctIds(ps)
    ensures forall i :: 0 <= i < |SeededKeys(ps)| ==> SeededKeys(ps)[i] in SeededTable(ps)
    ensures InOrder(SeededTable(ps), SeededKeys(ps)) == ps
  {
    SeededDistinct(ps);
    assert forall i :: 0 <= i < |ps| ==> SeededKeys(ps)[i] == ps[i].id;
  }

  /** The slug lookup finds a product by a slug no other product shares. */
  lemma {:induction false} FindUniqueSlug(ps: seq<Product>, i: int)
    requires DistinctSlugs(ps) && 0 <= i < |ps|
    ensures Seqs.Find(ps, WithSlug(ps[i].slug)) == Some(ps[i])
  {
    var r := Seqs.Find(ps, WithSlug(ps[i].slug));
    assert WithSlug(ps[i].slug)(ps[i]);
    var j :| 0 <= j < |ps| && ps[j] == r.value && forall j' :: 0 <= j' < j ==> !WithSlug(ps[i].slug)(ps[j']);
    assert j == i;
  }

  /** The seed has distinct ids and slugs, and its largest id is 6. */
  lemma SeedFacts()
    ensures DistinctIds(Seed) && DistinctSlugs(Seed)
    ensures SeededNextId(Seed) == 7
  {
    assert Seed[..0] == [];
    assert Seed[..1][..0] == [] && Seed[..2][..1] == Seed[..1] && Seed[..3][..2] == Seed[..2];
    assert Seed[..4][..3] == Seed[..3] && Seed[..5][..4] == Seed[..4] && Seed[..6][..5] == Seed[..5];
    assert SeededNextId(Seed[..1]) == 2;
    assert SeededNextId(Seed[..2]) == 3;
    assert SeededNextId(Seed[..3]) == 4;
    assert SeededNextId(Seed[..4]) == 5;
    assert SeededNextId(Seed[..5]) == 6;
    assert Seed[..6] == Seed;
  }

  /** The seeded catalogue: a valid table listing the seed in order, each product findable by its slug. */
  lemma SeedCatalogue()
    ensures InsertionOrder(SeededTable(Seed), SeededKeys(Seed))
    ensures forall k :: k in SeededTable(Seed) ==> SeededTable(Seed)[k].id == k && k < 7
    ensures InOrder(SeededTable(Seed), SeededKeys(Seed)) == Seed
    ensures forall i :: 0 <= i < |Seed| ==> Seed[i].id in SeededTable(Seed) && SeededTable(Seed)[Seed[i].id] == Seed[i]
    ensures forall i :: 0 <= i < |Seed| ==> Seqs.Find(Seed, WithSlug(Seed[i].slug)) == Some(Seed[i])
    ensures SeededNextId(Seed) == 7
  {
    SeedFacts();
    SeededIsValid(Seed);
    SeededDistinct(Seed);
    SeededInOrder(Seed);
    forall i | 0 <= i < |Seed| ensures Seqs.Find(Seed, WithSlug(Seed[i].slug)) == Some(Seed[i]) {
      FindUniqueSlug(Seed, i);
    }
  }

  /**
   * Filtering a listing whose ids follow a sequence of distinct keys keeps
   * the keys' order and lists no product twice.
   */
  lemma FilterFollowsKeys(keys: seq<int>, all: seq<Product>, p: Product -> bool)
    requires |all| == |keys|
    requires forall i :: 0 <= i < |keys| ==> all[i].id == keys[i]
    requires forall i, j :: 0 <= i < j < |keys| ==> keys[i] != keys[j]
    ensures forall i, j :: 0 <= i < j < |Seqs.Filter(all, p)| ==>
      Seqs.Precedes(keys, Seqs.Filter(all, p)[i].id, Seqs.Filter(all, p)[j].id)
    ensures forall i, j :: 0 <= i < j < |Seqs.Filter(all, p)| ==> Seqs.Filter(all, p)[i] != Seqs.Filter(all, p)[j]
  {
    var ps := Seqs.Filter(all, p);
    Seqs.FilterKeepsOrder(all, p);
    forall i, j | 0 <= i < j < |ps|
      ensures Seqs.Precedes(keys, ps[i].id, ps[j].id)
      ensures ps[i] != ps[j]
    {
      assert Seqs.Precedes(all, ps[i], ps[j]);
      var a, b :| 0 <= a < b < |all| && all[a] == ps[i] && all[b] == ps[j];
      assert keys[a] == ps[i].id && keys[b] == ps[j].id;
    }
  }

  // ---------------------------------------------------------------------
  // The store

  class MemStorage {
    var products: map<int, Product>
    var productKeys: seq<int>
    var orders: map<int, Order>
    var orderKeys: seq<int>
    var users: map<int, User>
    var userKeys: seq<int>
    var currentProductId: int
    var currentOrderId: int
    var currentUserId: int

    /** Each table lists its keys in insertion order, stores every record under its own id, and has only ids below its counter. */
    ghost predicate Valid()
      reads this
    {
      && InsertionOrder(products, productKeys)
      && InsertionOrder(orders, orderKeys)
      && InsertionOrder(users, userKeys)
      && (forall k :: k in products ==> products[k].id == k && k < currentProductId)
      && (forall k :: k in orders ==> orders[k].id == k && k < currentOrderId)
      && (forall k :: k in users ==> users[k].id == k && k < currentUserId)
      && 1 <= currentProductId && 1 <= currentOrderId && 1 <= currentUserId
    }

    /** A new store holds the seeded catalogue and no orders or users. */
    constructor()
      ensures Valid()
      ensures GetAllProducts() == Seed
      ensures forall i :: 0 <= i < |Seed| ==> GetProduct(Seed[i].id) == Some(Seed[i])
      ensures forall i :: 0 <= i < |Seed| ==> GetProductBySlug(Seed[i].slug) == Some(Seed[i])
      ensures currentProductId == 7 && currentOrderId == 1 && currentUserId == 1
      ensures orders == map[] && orderKeys == [] && users == map[] && userKeys == []
    {
      products, productKeys := map[], [];
      orders, orderKeys := map[], [];
      users, userKeys := map[], [];
      currentProductId, currentOrderId, currentUserId := 1, 1, 1;
      new;
      InitializeProducts(Seed);
      SeedCatalogue();
    }

    /**
     * `initializeProducts`: set each product of `productData` (the seed)
     * under its id and raise the product counter past it.  Setting a key
     * that is already present keeps that key's place in the insertion order.
     */
    method InitializeProducts(productData: seq<Product>)
      requires products == map[] && productKeys == [] && currentProductId == 1
      modifies this
      ensures products == SeededTable(productData) && productKeys == SeededKeys(productData)
      ensures currentProductId == SeededNextId(productData)
      ensures orders == old(orders) && orderKeys == old(orderKeys)
      ensures users == old(users) && userKeys == old(userKeys)
      ensures currentOrderId == old(currentOrderId) && currentUserId == old(currentUserId)
    {
      var i := 0;
      while i < |productData|
        invariant 0 <= i <= |productData|
        invariant products == SeededTable(productData[..i])
        invariant productKeys == SeededKeys(productData[..i])
        invariant currentProductId == SeededNextId(productData[..i])
        invariant orders == old(orders) && orderKeys == old(orderKeys)
        invariant users == old(users) && userKeys == old(userKeys)
        invariant currentOrderId == old(currentOrderId) && currentUserId == old(currentUserId)
      {
        var product := productData[i];
        assert productData[..i + 1][..i] == productData[..i];
        if product.id !in products {
          productKeys := productKeys + [product.id];
        }
        products := products[product.id := product];
        currentProductId := Max(currentProductId, product.id + 1);
        i := i + 1;
      }
      assert productData[..i] == productData;
    }

    /** `getAllProducts`: every stored product once, in insertion order. */
    function GetAllProducts(): (ps: seq<Product>)
      reads this
      requires Valid()
      ensures |ps| == |productKeys|
      ensures forall i :: 0 <= i < |ps| ==> ps[i].id == productKeys[i]
      ensures forall p :: p in ps ==> p.id in products && products[p.id] == p
      ensures forall k :: k in products ==> products[k] in ps
    {
      InOrder(products, productKeys)
    }

    /** `getProduct`: the product stored under `id`, if any. */
    function GetProduct(id: int): (r: Option<Product>)
      reads this
      requires Valid()
      ensures r.Some? <==> id in products
      ensures r.Some? ==> r.value == products[id] && r.value.id == id
    {
      if id in products then Some(products[id]) else None
    }

    /** `getProductBySlug`: the first product in insertion order with that slug. */
    function GetProductBySlug(slug: string): (r: Option<Product>)
      reads this
      requires Valid()
      ensures r.Some? ==> r.value.slug == slug && r.value.id in products && products[r.value.id] == r.value
      ensures r.Some? ==>
        exists i :: 0 <= i < |productKeys| && products[productKeys[i]] == r.value &&
          forall j :: 0 <= j < i ==> products[productKeys[j]].slug != slug
      ensures r.None? <==> forall k :: k in products ==> products[k].slug != slug
    {
      var all := GetAllProducts();
      var r := Seqs.Find(all, WithSlug(slug));
      assert r.None? <== forall k :: k in products ==> products[k].slug != slug by {
        if r.Some? {
          assert r.value in all;
        }
      }
      r
    }

    /** `getProductsByCategory`: the products of that category, in insertion order. */
    function GetProductsByCategory(category: string): (ps: seq<Product>)
      reads this
      requires Valid()
      ensures forall p :: p in ps ==> p.category == category && p.id in products && products[p.id] == p
      ensures forall k :: k in products && products[k].category == category ==> products[k] in ps
      ensures (forall k :: k in products ==> products[k].category != category) ==> ps == []
      ensures forall i, j :: 0 <= i < j < |ps| ==> Seqs.Precedes(productKeys, ps[i].id, ps[j].id)
      ensures forall i, j :: 0 <= i < j < |ps| ==> ps[i] != ps[j]
    {
      var all := GetAllProducts();
      Seqs.FilterSound(all, InCategory(category));
      Seqs.FilterComplete(all, InCategory(category));
      var ps := Seqs.Filter(all, InCategory(category));
      assert forall p :: p in all && p.category == category ==> p in ps by {
        forall p | p in all && p.category == category ensures p in ps {
          var i :| 0 <= i < |all| && all[i] == p;
        }
      }
      assert forall k :: k in products ==> products[k] in all;
      assert (forall k :: k in products ==> products[k].category != category) ==> ps == [] by {
        if ps != [] {
          assert ps[0] in ps;
        }
      }
      assert forall i :: 0 <= i < |productKeys| ==> all[i].id == productKeys[i];
      FilterFollowsKeys(productKeys, all, InCategory(category));
      ps
    }

    /**
     * `createOrder`: the order gets the current order counter as its id,
     * the counter moves on by one, and the order is stored under that id.
     */
    method CreateOrder(insertOrder: InsertOrder) returns (order: Order)
      requires Valid()
      modifies this
      ensures Valid()
      ensures order == insertOrder.WithId(old(currentOrderId))
      ensures currentOrderId == old(currentOrderId) + 1
      ensures order.id !in old(orders) && forall k :: k in old(orders) ==> k < order.id
      ensures orders == old(orders)[order.id := order] && orderKeys == old(orderKeys) + [order.id]
      ensures GetOrder(order.id) == Some(order)
      ensures products == old(products) && productKeys == old(productKeys)
      ensures users == old(users) && userKeys == old(userKeys)
      ensures currentProductId == old(currentProductId) && currentUserId == old(currentUserId)
    {
      var id := currentOrderId;
      assert id !in orders;
      assert forall i :: 0 <= i < |orderKeys| ==> orderKeys[i] != id;
      currentOrderId := currentOrderId + 1;
      order := insertOrder.WithId(id);
      orders := orders[id := order];
      orderKeys := orderKeys + [id];
    }

    /** `getOrder`: the order stored under `id`, if any. */
    function GetOrder(id: int): (r: Option<Order>)
      reads this
      requires Valid()
      ensures r.Some? <==> id in orders
      ensures r.Some? ==> r.value == orders[id] && r.value.id == id
    {
      if id in orders then Some(orders[id]) else None
    }

    /** `getUser`: the user stored under `id`, if any. */
    function GetUser(id: int): (r: Option<User>)
      reads this
      requires Valid()
      ensures r.Some? <==> id in users
      ensures r.Some? ==> r.value == users[id] && r.value.id == id
    {
      if id in users then Some(users[id]) else None
    }

    /** `Array.from(this.users.values())`: every stored user once, in insertion order. */
    function AllUsers(): (us: seq<User>)
      reads this
      requires Valid()
      ensures |us| == |userKeys|
      ensures forall i :: 0 <= i < |us| ==> us[i] == users[userKeys[i]]
      ensures forall u :: u in us ==> u.id in users && users[u.id] == u
      ensures forall k :: k in users ==> users[k] in us
    {
      InOrder(users, userKeys)
    }

    /** `getUserByUsername`: the first user in insertion order with that name. */
    function GetUserByUsername(username: string): (r: Option<User>)
      reads this
      requires Valid()
      ensures r.Some? ==> r.value.username == username && r.value.id in users && users[r.value.id] == r.value
      ensures r.Some? ==>
        exists i :: 0 <= i < |userKeys| && users[userKeys[i]] == r.value &&
          forall j :: 0 <= j < i ==> users[userKeys[j]].username != username
      ensures r.None? <==> forall k :: k in users ==> users[k].username != username
    {
      var all := AllUsers();
      var r := Seqs.Find(all, WithUsername(username));
      assert r.None? <== forall k :: k in users ==> users[k].username != username by {
        if r.Some? {
          assert r.value in all;
        }
      }
      r
    }

    /** `createUser`: same id discipline as `createOrder`, with the user counter. */
    method CreateUser(insertUser: InsertUser) returns (user: User)
      requires Valid()
      modifies this
      ensures Valid()
      ensures user == insertUser.WithId(old(currentUserId))
      ensures currentUserId == old(currentUserId) + 1
      ensures user.id !in old(users) && forall k :: k in old(users) ==> k < user.id
      ensures users == old(users)[user.id := user] && userKeys == old(userKeys) + [user.id]
      ensures GetUser(user.id) == Some(user)
      ensures products == old(products) && productKeys == old(productKeys)
      ensures orders == old(orders) && orderKeys == old(orderKeys)
      ensures currentProductId == old(currentProductId) && currentOrderId == old(currentOrderId)
    {
      var id := currentUserId;
      assert id !in users;
      assert forall i :: 0 <= i < |userKeys| ==> userKeys[i] != id;
      currentUserId := currentUserId + 1;
      user := insertUser.WithId(id);
      users := users[id := user];
      userKeys := userKeys + [id];
    }
  }

  /**
   * Two orders placed one after the other get consecutive ids, and the
   * second leaves the first as it was stored.
   */
  method SuccessiveOrders(store: MemStorage, first: InsertOrder, second: InsertOrder)
    returns (a: Order, b: Order)
    requires store.Valid()
    modifies store
    ensures store.Valid()
    ensures a.id < b.id && b.id == a.id + 1
    ensures a.Insert() == first && b.Insert() == second
    ensures store.GetOrder(a.id) == Some(a) && store.GetOrder(b.id) == Some(b)
  {
    a := store.CreateOrder(first);
    b := store.CreateOrder(second);
  }
}
