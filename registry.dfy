/**
 * The server's practice registry (backend/data/registry.py): a dictionary
 * from practice id to configuration, filled by register_practice. Python
 * dictionaries remember insertion order, and re-assigning an existing key
 * keeps its place, so the registry is a map plus the order of first
 * registration.
 */
module Registry {
  import opened Base
  import opened Config

  /** No id appears twice. */
  predicate DistinctIds(xs: seq<int>)
  {
    forall i, j :: 0 <= i < j < |xs| ==> xs[i] != xs[j]
  }

  /** A list without repeats has as many elements as its set of elements. */
  lemma {:induction false} DistinctCardinality(xs: seq<int>)
    requires DistinctIds(xs)
    ensures |set x | x in xs| == |xs|
    decreases |xs|
  {
    if xs != [] {
      var init := xs[..|xs| - 1];
      var last := xs[|xs| - 1];
      assert DistinctIds(init);
      DistinctCardinality(init);
      assert last !in init;
      assert (set x | x in xs) == (set x | x in init) + {last} by {
        assert xs == init + [last];
      }
    }
  }

  class PracticeRegistry {
    var practices: map<int, Practice>
    /** The ids in order of first registration: the dictionary's iteration order. */
    var order: seq<int>

    /** The order lists each registered id exactly once, and every config sits under its own id. */
    predicate Valid()
      reads this
    {
      && DistinctIds(order) && practices.Keys == (set x | x in order)
      && (forall id :: id in practices ==> practices[id].id == id)
    }

    constructor ()
      ensures Valid() && practices == map[] && order == []
    {
      practices := map[];
      order := [];
    }

    /**
     * register_practice: the config under its own id, replacing an earlier
     * one in place; a new id goes to the end of the order.
     */
    method RegisterPractice(p: Practice)
      requires Valid()
      modifies this
      ensures Valid()
      ensures practices == old(practices)[p.id := p]
      ensures order == if p.id in old(practices) then old(order) else old(order) + [p.id]
      ensures GetPractice(p.id) == Some(p)
      ensures forall id :: id != p.id ==> GetPractice(id) == old(GetPractice(id))
    {
      if p.id !in practices {
        order := order + [p.id];
      }
      practices := practices[p.id := p];
    }

    /**
     * get_practice: the registered config, or None for an unregistered id.
     * A config it returns carries the id asked for, and None means that no
     * registered config has that id.
     */
    function GetPractice(id: int): (r: Option<Practice>)
      requires Valid()
      reads this
      ensures r.Some? ==> r.value.id == id && r.value in practices.Values
      ensures r.None? ==> forall p :: p in practices.Values ==> p.id != id
    {
      if id in practices then Some(practices[id]) else None
    }

    /** get_all_practices: the configs in registration order, one per registered id. */
    function GetAllPractices(): (r: seq<Practice>)
      requires Valid()
      reads this
      ensures |r| == |order| == |practices|
      ensures forall i :: 0 <= i < |r| ==> r[i] == practices[order[i]]
      ensures forall id :: id in practices ==> practices[id] in r
    {
      DistinctCardinality(order);
      var o, m := order, practices;
      var r := seq(|o|, i requires 0 <= i < |o| && o[i] in m => m[o[i]]);
      assert forall id :: id in m ==> m[id] in r by {
        forall id | id in m
          ensures m[id] in r
        {
          var i :| 0 <= i < |o| && o[i] == id;
          assert r[i] == m[id];
        }
      }
      r
    }
  }

  /** Registering the same id twice keeps only the second config, in the first one's place. */
  method RegisterTwice(reg: PracticeRegistry, p: Practice, q: Practice)
    requires reg.Valid() && p.id == q.id
    modifies reg
    ensures reg.Valid()
    ensures reg.GetPractice(p.id) == Some(q)
    ensures |reg.order| == |old(reg.order)| + (if p.id in old(reg.practices) then 0 else 1)
  {
    reg.RegisterPractice(p);
    reg.RegisterPractice(q);
  }
}
