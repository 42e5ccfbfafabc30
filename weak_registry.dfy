/**
 * The non-owning handle lists kept by `Shop` (src/bin/observer.rs) and by
 * `MediatorColleague` (src/bin/mediator.rs). A handle is whatever the list
 * stores; whether its referent still exists is an abstract set `alive` handed
 * to each operation, instead of Rc/Weak reference counts.
 *
 * `Retain` is `Vec::retain(|x| x.upgrade().is_some())`: it keeps exactly the
 * handles that still resolve, in their original order, duplicates included.
 */
module WeakRegistry {

  /** The list after one `retain` pass that keeps only handles in `alive`. */
  function Retain<H(==)>(hs: seq<H>, alive: set<H>): (r: seq<H>)
    ensures |r| <= |hs|
  {
    if hs == [] then []
    else Retain(hs[..|hs| - 1], alive) + (if hs[|hs| - 1] in alive then [hs[|hs| - 1]] else [])
  }

  /** True when some handle of `hs` no longer resolves. */
  predicate HasDead<H(==)>(hs: seq<H>, alive: set<H>)
  {
    exists i :: 0 <= i < |hs| && hs[i] !in alive
  }

  /** Scanning one more handle: it survives exactly when it is alive. */
  lemma RetainSnoc<H>(hs: seq<H>, x: H, alive: set<H>)
    ensures Retain(hs + [x], alive) == Retain(hs, alive) + (if x in alive then [x] else [])
  {
    assert (hs + [x])[..|hs + [x]| - 1] == hs;
  }

  /** Scanning one more handle: the flag of `notify` is raised exactly by a dead one. */
  lemma HasDeadSnoc<H>(hs: seq<H>, x: H, alive: set<H>)
    ensures HasDead(hs + [x], alive) <==> HasDead(hs, alive) || x !in alive
  {
    if HasDead(hs, alive) {
      var i :| 0 <= i < |hs| && hs[i] !in alive;
      assert (hs + [x])[i] == hs[i];
    }
    if x !in alive {
      assert (hs + [x])[|hs|] == x;
    }
  }

  /** Retain distributes over concatenation: survivors keep their relative order. */
  lemma {:induction false} RetainAppend<H>(s: seq<H>, t: seq<H>, alive: set<H>)
    ensures Retain(s + t, alive) == Retain(s, alive) + Retain(t, alive)
    decreases |t|
  {
    if t == [] {
      assert s + t == s;
    } else {
      var t' := t[..|t| - 1];
      assert (s + t)[..|s + t| - 1] == s + t';
      RetainAppend(s, t', alive);
    }
  }

  /** A handle survives exactly when it was in the list and still resolves. */
  lemma {:induction false} RetainMembership<H>(hs: seq<H>, alive: set<H>, x: H)
    ensures x in Retain(hs, alive) <==> x in hs && x in alive
    decreases |hs|
  {
    if hs != [] {
      var init := hs[..|hs| - 1];
      RetainMembership(init, alive, x);
      assert hs == init + [hs[|hs| - 1]];
    }
  }

  /** Every copy of a live handle survives and every copy of a dead one goes. */
  lemma {:induction false} RetainCount<H>(hs: seq<H>, alive: set<H>, x: H)
    ensures multiset(Retain(hs, alive))[x] == if x in alive then multiset(hs)[x] else 0
    decreases |hs|
  {
    if hs != [] {
      var init := hs[..|hs| - 1];
      RetainCount(init, alive, x);
      assert hs == init + [hs[|hs| - 1]];
    }
  }

  /** With no dead handle, the retain pass changes nothing. */
  lemma {:induction false} RetainAllLive<H>(hs: seq<H>, alive: set<H>)
    requires !HasDead(hs, alive)
    ensures Retain(hs, alive) == hs
    decreases |hs|
  {
    if hs != [] {
      var init := hs[..|hs| - 1];
      assert !HasDead(init, alive) by {
        forall i | 0 <= i < |init| ensures init[i] in alive {
          assert init[i] == hs[i];
        }
      }
      RetainAllLive(init, alive);
      assert hs == init + [hs[|hs| - 1]];
    }
  }

  /** A dead handle makes the list strictly shorter. */
  lemma {:induction false} RetainDropsDead<H>(hs: seq<H>, alive: set<H>)
    requires HasDead(hs, alive)
    ensures |Retain(hs, alive)| < |hs|
    decreases |hs|
  {
    var init := hs[..|hs| - 1];
    if hs[|hs| - 1] in alive {
      assert HasDead(init, alive) by {
        var i :| 0 <= i < |hs| && hs[i] !in alive;
        assert i < |init| && init[i] == hs[i];
      }
      RetainDropsDead(init, alive);
    }
  }

  /** Retaining twice with the same liveness is the same as retaining once. */
  lemma {:induction false} RetainIdempotent<H>(hs: seq<H>, alive: set<H>)
    ensures Retain(Retain(hs, alive), alive) == Retain(hs, alive)
  {
    assert !HasDead(Retain(hs, alive), alive) by {
      forall i | 0 <= i < |Retain(hs, alive)| ensures Retain(hs, alive)[i] in alive {
        RetainMembership(hs, alive, Retain(hs, alive)[i]);
      }
    }
    RetainAllLive(Retain(hs, alive), alive);
  }
}
