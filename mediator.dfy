/**
 * The mediator demo (src/bin/mediator.rs): users never talk to each other
 * directly; a `MediatorColleague` keeps weak handles to all of them and routes
 * each message to the live users whose id matches the address. A handle is the
 * `User` object itself; which users are still owned elsewhere is the set
 * `alive` given to each send.
 */
module Mediator {
  import opened WeakRegistry

  /** Rust's `u32`, the type of user ids. */
  type UserId = x: nat | x < 0x1_0000_0000

  /** One `recv(msg, from)` call, made on `recipient`. */
  datatype Delivery = Delivery(recipient: User, msg: string, from: UserId)

  /** The live handles addressed by `to`: alive and answering `id() == to`. */
  function Addressed(alive: set<User>, to: UserId): set<User>
  {
    set u | u in alive && u.id == to
  }

  /** The colleagues a message to `to` reaches, in list order. */
  function Recipients(colleagues: seq<User>, alive: set<User>, to: UserId): seq<User>
  {
    Retain(colleagues, Addressed(alive, to))
  }

  class MediatorColleague {
    /** Non-owning handles, in registration order. */
    var colleagues: seq<User>

    constructor ()
      ensures colleagues == []
    {
      colleagues := [];
    }

    /** Registers one more handle at the end; neither handles nor ids are checked for duplicates. */
    method AddColleague(colleague: User)
      modifies this
      ensures colleagues == old(colleagues) + [colleague]
    {
      colleagues := colleagues + [colleague];
    }

    /**
     * Walks the handles in order and calls `recv(msg, from)` on every live
     * colleague whose id is `to`, remembering whether a handle failed to
     * resolve; if one did, a single retain pass drops the dead handles.
     * `log` lists the `recv` calls made, in order.
     */
    method SendMsg(from: UserId, msg: string, to: UserId, alive: set<User>) returns (log: seq<Delivery>)
      modifies this
      ensures |log| == |Recipients(old(colleagues), alive, to)|
      ensures forall k :: 0 <= k < |log| ==>
        log[k] == Delivery(Recipients(old(colleagues), alive, to)[k], msg, from)
      ensures colleagues == Retain(old(colleagues), alive)
    {
      var cs := colleagues;
      var target := Addressed(alive, to);
      var need := false;
      ghost var reached: seq<User> := [];
      log := [];
      var i := 0;
      while i < |cs|
        invariant 0 <= i <= |cs| && colleagues == cs
        invariant reached == Retain(cs[..i], target)
        invariant need <==> HasDead(cs[..i], alive)
        invariant |log| == |reached|
        invariant forall k :: 0 <= k < |log| ==> log[k] == Delivery(reached[k], msg, from)
      {
        var c := cs[i];
        assert cs[..i + 1] == cs[..i] + [c];
        RetainSnoc(cs[..i], c, target);
        HasDeadSnoc(cs[..i], c, alive);
        if c in alive {
          if c.id == to {
            var d := c.Recv(msg, from);
            log := log + [d];
            reached := reached + [c];
          }
        } else {
          need := true;
        }
        i := i + 1;
      }
      assert cs[..i] == cs;
      if need {
        colleagues := Retain(colleagues, alive);
      } else {
        RetainAllLive(cs, alive);
      }
    }
  }

  class User {
    const id: UserId
    /** Weak in the source: whether it still resolves is passed to `Send`. */
    const mediator: MediatorColleague

    constructor (id: UserId, mediator: MediatorColleague)
      ensures this.id == id && this.mediator == mediator
    {
      this.id := id;
      this.mediator := mediator;
    }

    /** `recv` only reports the message; the model returns the report. */
    method Recv(msg: string, from: UserId) returns (d: Delivery)
      ensures d.recipient == this && d.msg == msg && d.from == from
    {
      d := Delivery(this, msg, from);
    }

    /**
     * Sends through the mediator with `from` set to this user's id; does
     * nothing at all when the mediator is gone (`mediatorAlive` false).
     */
    method Send(msg: string, to: UserId, mediatorAlive: bool, alive: set<User>) returns (log: seq<Delivery>)
      modifies mediator
      ensures !mediatorAlive ==> log == [] && mediator.colleagues == old(mediator.colleagues)
      ensures mediatorAlive ==> |log| == |Recipients(old(mediator.colleagues), alive, to)|
      ensures mediatorAlive ==> forall k :: 0 <= k < |log| ==>
        log[k] == Delivery(Recipients(old(mediator.colleagues), alive, to)[k], msg, id)
      ensures mediatorAlive ==> mediator.colleagues == Retain(old(mediator.colleagues), alive)
    {
      if mediatorAlive {
        log := mediator.SendMsg(id, msg, to, alive);
      } else {
        log := [];
      }
    }
  }

  /**
   * Exactly the live colleagues with the target id are reached, as many times
   * as they are registered; ids are not unique, so all of them are.
   */
  lemma RecipientsExactly(colleagues: seq<User>, alive: set<User>, to: UserId, u: User)
    ensures u in Recipients(colleagues, alive, to) <==> u in colleagues && u in alive && u.id == to
    ensures multiset(Recipients(colleagues, alive, to))[u] ==
      if u in alive && u.id == to then multiset(colleagues)[u] else 0
  {
    RetainMembership(colleagues, Addressed(alive, to), u);
    RetainCount(colleagues, Addressed(alive, to), u);
  }

  /** A message to an id no live colleague has is dropped without a trace. */
  lemma UnknownAddressDropped(colleagues: seq<User>, alive: set<User>, to: UserId)
    requires forall u :: u in colleagues && u in alive ==> u.id != to
    ensures Recipients(colleagues, alive, to) == []
  {
    if Recipients(colleagues, alive, to) != [] {
      var u := Recipients(colleagues, alive, to)[0];
      RecipientsExactly(colleagues, alive, to, u);
    }
  }

  /** Among three live users with ids 1, 2 and 3, each id reaches exactly its owner. */
  lemma ThreeUsersAddressed(user1: User, user2: User, user3: User)
    requires user1.id == 1 && user2.id == 2 && user3.id == 3
    ensures Recipients([user1, user2, user3], {user1, user2, user3}, 3) == [user3]
    ensures Recipients([user1, user2, user3], {user1, user2, user3}, 1) == [user1]
  {
    var users: seq<User> := [user1, user2, user3];
    var alive: set<User> := {user1, user2, user3};
    assert users == [user1, user2] + [user3];
    RetainSnoc([user1, user2], user3, Addressed(alive, 3));
    UnknownAddressDropped([user1, user2], alive, 3);
    assert users == [user1] + [user2, user3];
    RetainAppend([user1], [user2, user3], Addressed(alive, 1));
    UnknownAddressDropped([user2, user3], alive, 1);
    assert [user1] == [] + [user1];
    RetainSnoc([], user1, Addressed(alive, 1));
  }

  /** The setup of `main`: one mediator and users 1, 2 and 3 registered in that order. */
  method RegisterThree() returns (mediator: MediatorColleague, user1: User, user2: User, user3: User)
    ensures user1.id == 1 && user2.id == 2 && user3.id == 3
    ensures user1.mediator == mediator && user2.mediator == mediator && user3.mediator == mediator
    ensures fresh(mediator) && mediator.colleagues == [user1, user2, user3]
  {
    mediator := new MediatorColleague();
    user1 := new User(1, mediator);
    mediator.AddColleague(user1);
    user2 := new User(2, mediator);
    mediator.AddColleague(user2);
    user3 := new User(3, mediator);
    mediator.AddColleague(user3);
  }

  /**
   * The demo in `main`: users 1, 2 and 3 register with one mediator, user 1
   * says "Hello" to 3 and user 3 says "Hi" to 1, all of them alive.
   */
  method MediatorDemo() returns (first: seq<Delivery>, second: seq<Delivery>)
    ensures |first| == 1 && first[0].recipient.id == 3 && first[0].msg == "Hello" && first[0].from == 1
    ensures |second| == 1 && second[0].recipient.id == 1 && second[0].msg == "Hi" && second[0].from == 3
  {
    var mediator, user1, user2, user3 := RegisterThree();
    var users: seq<User> := [user1, user2, user3];
    var alive: set<User> := {user1, user2, user3};
    ThreeUsersAddressed(user1, user2, user3);
    assert !HasDead(users, alive);
    RetainAllLive(users, alive);
    first := user1.Send("Hello", 3, true, alive);
    assert mediator.colleagues == users;
    second := user3.Send("Hi", 1, true, alive);
  }
}
