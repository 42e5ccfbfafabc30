/**
 * The iterator demo (src/bin/iterator.rs): a collection of users and a cursor
 * over a borrowed view of it that yields the users one by one, in order.
 */
module Iterator {
  import opened Wrappers

  datatype User = User(id: nat, name: string)

  class Colleagues {
    var users: seq<User>

    constructor ()
      ensures users == []
    {
      users := [];
    }

    method AddUser(user: User)
      modifies this
      ensures users == old(users) + [user]
    {
      users := users + [user];
    }

    /** A cursor at the start of the users as they are now. */
    method Iterator() returns (it: ColleaguesIter)
      ensures fresh(it) && it.users == users && it.pos == 0
    {
      it := new ColleaguesIter(users);
    }
  }

  class ColleaguesIter {
    var pos: nat
    /** The borrowed slice: it cannot change while the cursor exists. */
    const users: seq<User>

    /** The cursor never runs past the end of the slice. */
    predicate Valid()
      reads this
    {
      pos <= |users|
    }

    constructor (users: seq<User>)
      ensures this.users == users && pos == 0 && Valid()
    {
      this.users := users;
      pos := 0;
    }

    /**
     * Yields the user under the cursor and moves one step on; at the end it
     * yields nothing and stays there, so every later call yields nothing too.
     */
    method Next() returns (r: Option<User>)
      requires Valid()
      modifies this
      ensures Valid()
      ensures r.None? <==> old(pos) == |users|
      ensures r.None? ==> pos == old(pos)
      ensures r.Some? ==> pos == old(pos) + 1 && r.value == users[old(pos)]
    {
      if pos == |users| {
        return None;
      }
      pos := pos + 1;
      r := Some(users[pos - 1]);
    }
  }

  /**
   * What the `for` loop of `main` sees: a fresh cursor driven to its end
   * yields every user, in insertion order, duplicates included.
   */
  method IterateAll(colleagues: Colleagues) returns (seen: seq<User>)
    ensures seen == colleagues.users
  {
    var it := colleagues.Iterator();
    seen := [];
    while true
      invariant fresh(it) && it.Valid() && it.users == colleagues.users
      invariant seen == it.users[..it.pos]
      decreases |it.users| - it.pos
    {
      var next := it.Next();
      if next.None? {
        break;
      }
      seen := seen + [next.value];
    }
    assert it.users[..it.pos] == it.users;
  }

  /** The demo in `main`: John (1), Smith (2) and Kate (1) come out in that order. */
  method IteratorDemo() returns (seen: seq<User>)
    ensures seen == [User(1, "John"), User(2, "Smith"), User(1, "Kate")]
  {
    var colleagues := new Colleagues();
    colleagues.AddUser(User(1, "John"));
    colleagues.AddUser(User(2, "Smith"));
    colleagues.AddUser(User(1, "Kate"));
    seen := IterateAll(colleagues);
  }
}
