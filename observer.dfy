/**
 * The observer demo (src/bin/observer.rs): a `Shop` keeps weak handles to its
 * subscribers and announces a discount to every one still alive. A handle is
 * the subscriber object itself; which subscribers are still owned elsewhere
 * is the set `alive` given to `Notify`.
 */
module Observer {
  import opened WeakRegistry

  /** The discount list every notification carries. */
  const Discounts: seq<string> := ["Socks"]

  /** `n` copies of `items`, one after the other. */
  function Repeat(items: seq<string>, n: nat): (r: seq<string>)
    ensures |r| == n * |items|
  {
    if n == 0 then [] else Repeat(items, n - 1) + items
  }

  /** Receiving `m` then `n` announcements is receiving `m + n` of them. */
  lemma {:induction false} RepeatAdd(items: seq<string>, m: nat, n: nat)
    ensures Repeat(items, m) + Repeat(items, n) == Repeat(items, m + n)
  {
    if n == 0 {
      assert Repeat(items, m) + [] == Repeat(items, m);
    } else {
      RepeatAdd(items, m, n - 1);
    }
  }

  class Person {
    const name: string
    var products: seq<string>

    constructor (name: string)
      ensures this.name == name && products == []
    {
      this.name := name;
      products := [];
    }

    /** `Subscriber::event`: every discount item is pushed onto `products`, in order. */
    method Event(discounts: seq<string>)
      modifies this
      ensures products == old(products) + discounts
    {
      var i := 0;
      while i < |discounts|
        invariant 0 <= i <= |discounts|
        invariant products == old(products) + discounts[..i]
      {
        products := products + [discounts[i]];
        i := i + 1;
      }
      assert discounts[..i] == discounts;
    }
  }

  /**
   * How many announcements subscriber `p` receives from one `notify` over the
   * handle list `subs`: one per handle to it if it is alive, none otherwise.
   */
  function Deliveries(subs: seq<Person>, alive: set<Person>, p: Person): (n: nat)
    ensures n > 0 <==> p in alive && p in subs
  {
    if p in alive then multiset(subs)[p] else 0
  }

  class Shop {
    /** Non-owning handles, in registration order. */
    var subscribers: seq<Person>

    constructor ()
      ensures subscribers == []
    {
      subscribers := [];
    }

    /** Registers one more handle at the end; duplicates are not rejected. */
    method AddSubscriber(subscriber: Person)
      modifies this
      ensures subscribers == old(subscribers) + [subscriber]
    {
      subscribers := subscribers + [subscriber];
    }

    /**
     * Delivers `Discounts` through every handle that resolves, in list order,
     * remembering whether one failed; if one did, a single retain pass drops
     * the dead handles. `delivered` lists the subscribers reached, in order.
     */
    method Notify(alive: set<Person>) returns (delivered: seq<Person>)
      modifies this, subscribers
      ensures delivered == Retain(old(subscribers), alive)
      ensures subscribers == Retain(old(subscribers), alive)
      ensures forall p {:trigger p in old(subscribers)} :: p in old(subscribers) ==>
        p.products == old(p.products) + Repeat(Discounts, Deliveries(old(subscribers), alive, p))
    {
      var subs := subscribers;
      var need := false;
      delivered := [];
      var i := 0;
      while i < |subs|
        invariant 0 <= i <= |subs| && subscribers == subs
        invariant delivered == Retain(subs[..i], alive)
        invariant need <==> HasDead(subs[..i], alive)
        invariant forall p :: p in subs ==>
          p.products == old(p.products) + Repeat(Discounts, Deliveries(subs[..i], alive, p))
      {
        var s := subs[i];
        assert subs[..i + 1] == subs[..i] + [s];
        RetainSnoc(subs[..i], s, alive);
        HasDeadSnoc(subs[..i], s, alive);
        if s in alive {
          label BeforeEvent:
          s.Event(Discounts);
          delivered := delivered + [s];
          forall p | p in subs
            ensures p.products == old(p.products) + Repeat(Discounts, Deliveries(subs[..i + 1], alive, p))
          {
            if p == s {
              assert Deliveries(subs[..i + 1], alive, p) == Deliveries(subs[..i], alive, p) + 1;
            } else {
              assert Deliveries(subs[..i + 1], alive, p) == Deliveries(subs[..i], alive, p);
              assert p.products == old@BeforeEvent(p.products);
            }
          }
        } else {
          need := true;
          forall p | p in subs
            ensures Deliveries(subs[..i + 1], alive, p) == Deliveries(subs[..i], alive, p)
          {
          }
        }
        i := i + 1;
      }
      assert subs[..i] == subs;
      if need {
        subscribers := Retain(subscribers, alive);
      } else {
        RetainAllLive(subs, alive);
      }
    }
  }

  /** The delivery log of `Notify` reaches each subscriber as often as `Deliveries` says. */
  lemma DeliveredMatchesCount(subs: seq<Person>, alive: set<Person>, p: Person)
    ensures multiset(Retain<Person>(subs, alive))[p] == Deliveries(subs, alive, p)
    ensures p in Retain<Person>(subs, alive) <==> p in subs && p in alive
  {
    RetainCount<Person>(subs, alive, p);
    RetainMembership<Person>(subs, alive, p);
  }

  /** The setup of `main`: three fresh persons subscribed in order. */
  method SubscribeThree() returns (shop: Shop, person1: Person, person2: Person, person3: Person)
    ensures fresh(shop) && fresh(person1) && fresh(person2) && fresh(person3)
    ensures person1 != person2 && person1 != person3 && person2 != person3
    ensures shop.subscribers == [person1, person2, person3]
    ensures person1.products == person2.products == person3.products == []
  {
    shop := new Shop();
    person1 := new Person("Person number 1");
    person2 := new Person("Person number 2");
    shop.AddSubscriber(person1);
    shop.AddSubscriber(person2);
    person3 := new Person("Person number 3");
    shop.AddSubscriber(person3);
  }

  /**
   * The first half of `main`: three fresh persons subscribed in order and
   * notified while all three are alive.
   */
  method SubscribeAndNotifyThree() returns (shop: Shop, person1: Person, person2: Person, person3: Person)
    ensures fresh(shop) && fresh(person1) && fresh(person2) && fresh(person3)
    ensures person1 != person2 && person1 != person3 && person2 != person3
    ensures shop.subscribers == [person1, person2, person3]
    ensures person1.products == person2.products == person3.products == Repeat(Discounts, 1)
  {
    shop, person1, person2, person3 := SubscribeThree();
    var all: seq<Person> := [person1, person2, person3];
    var alive: set<Person> := {person1, person2, person3};
    assert shop.subscribers == all;
    assert !HasDead<Person>(all, alive);
    RetainAllLive<Person>(all, alive);
    var d: seq<Person> := shop.Notify(alive);
    assert Deliveries(all, alive, person1) == 1;
    assert Deliveries(all, alive, person2) == 1;
    assert Deliveries(all, alive, person3) == 1;
    assert person1 in all && person2 in all && person3 in all;
  }

  /** A notification to a shop whose two subscribers are both alive. */
  method NotifyPair(shop: Shop, person1: Person, person2: Person, k: nat)
    requires person1 != person2 && shop.subscribers == [person1, person2]
    requires person1.products == person2.products == Repeat(Discounts, k)
    modifies shop, person1, person2
    ensures shop.subscribers == [person1, person2]
    ensures person1.products == person2.products == Repeat(Discounts, k + 1)
  {
    var pair: seq<Person> := [person1, person2];
    var both: set<Person> := {person1, person2};
    assert !HasDead(pair, both);
    RetainAllLive(pair, both);
    RepeatAdd(Discounts, k, 1);
    var d := shop.Notify(both);
    assert Deliveries(pair, both, person1) == 1 && Deliveries(pair, both, person2) == 1;
    assert person1 in pair && person2 in pair;
  }

  /**
   * The demo in `main`: persons 1 and 2 stay owned, person 3 is dropped after
   * the first notification and two more notifications follow. Returns the
   * subscriber counts after each notification and the products each person
   * holds when its last owner lets go of it.
   */
  method ObserverDemo() returns (counts: seq<nat>, products1: seq<string>, products2: seq<string>, products3: seq<string>)
    ensures counts == [3, 2, 2]
    ensures products1 == products2 == Repeat(Discounts, 3)
    ensures products3 == Repeat(Discounts, 1)
  {
    var shop, person1, person2, person3 := SubscribeAndNotifyThree();
    var c1: nat := |shop.subscribers|;
    // person 3's last owner goes out of scope here
    products3 := person3.products;

    var all: seq<Person> := [person1, person2, person3];
    var both: set<Person> := {person1, person2};
    var pair: seq<Person> := [person1, person2];
    assert shop.subscribers == all;
    RepeatAdd(Discounts, 1, 1);
    assert Retain(all, both) == pair by {
      assert all == pair + [person3];
      RetainSnoc(pair, person3, both);
      assert !HasDead(pair, both);
      RetainAllLive(pair, both);
    }
    var d: seq<Person> := shop.Notify(both);
    var c2: nat := |shop.subscribers|;
    assert Deliveries(all, both, person1) == 1 && Deliveries(all, both, person2) == 1;
    assert person1 in all && person2 in all;

    NotifyPair(shop, person1, person2, 2);
    counts := [c1, c2, |shop.subscribers|];
    products1, products2 := person1.products, person2.products;
  }
}
