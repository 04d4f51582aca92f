/** `_deep_merge` of backend/api/settings/transfer.py on nested dicts of any depth.  A dict is a map
    here: the merge never looks at key order, and two Python dicts are equal whatever their order. */
module DeepMerge {
  import opened Common

  datatype Config = Leaf(value: string) | Dictionary(entries: map<string, Config>)

  const EMPTY_CONFIG := Dictionary(map[])

  function Merge(base: Config, update: Config): (r: Config)
    requires base.Dictionary? && update.Dictionary?
    ensures r.Dictionary?
    decreases update
  {
    Dictionary(map k | k in base.entries.Keys + update.entries.Keys ::
                 if k !in update.entries then base.entries[k]
                 else if k in base.entries && base.entries[k].Dictionary? && update.entries[k].Dictionary?
                 then Merge(base.entries[k], update.entries[k])
                 else update.entries[k])
  }

  // ---------- dict objects ----------

  datatype Item = Text(value: string) | Nested(dict: DictObject)

  class DictObject {
    var entries: map<string, Item>

    constructor (entries: map<string, Item>)
      ensures this.entries == entries
    {
      this.entries := entries;
    }
  }

  /** The object holds the configuration; all dicts below it are in `heap`, shared ones as well. */
  ghost predicate Holds(d: DictObject, c: Config, heap: set<DictObject>)
    reads heap
    decreases c, 0
  {
    && d in heap && c.Dictionary? && d.entries.Keys == c.entries.Keys
    && forall k :: k in c.entries ==> ItemHolds(d.entries[k], c.entries[k], heap)
  }

  ghost predicate ItemHolds(i: Item, c: Config, heap: set<DictObject>)
    reads heap
    decreases c, 1
  {
    match i
    case Text(value) => c == Leaf(value)
    case Nested(dict) => Holds(dict, c, heap)
  }

  lemma {:induction false} HoldsInMore(d: DictObject, c: Config, heap: set<DictObject>, more: set<DictObject>)
    requires Holds(d, c, heap) && heap <= more
    ensures Holds(d, c, more)
    decreases c, 0
  {
    forall k | k in c.entries ensures ItemHolds(d.entries[k], c.entries[k], more) {
      ItemHoldsInMore(d.entries[k], c.entries[k], heap, more);
    }
  }

  lemma {:induction false} ItemHoldsInMore(i: Item, c: Config, heap: set<DictObject>, more: set<DictObject>)
    requires ItemHolds(i, c, heap) && heap <= more
    ensures ItemHolds(i, c, more)
    decreases c, 1
  {
    if i.Nested? { HoldsInMore(i.dict, c, heap, more); }
  }

  ghost predicate Lists(items: map<string, Item>, cs: map<string, Config>, heap: set<DictObject>)
    reads heap
  {
    items.Keys == cs.Keys && forall k :: k in cs ==> ItemHolds(items[k], cs[k], heap)
  }

  lemma {:induction false} ListsInMore(items: map<string, Item>, cs: map<string, Config>,
                                       heap: set<DictObject>, more: set<DictObject>)
    requires Lists(items, cs, heap) && heap <= more
    ensures Lists(items, cs, more)
  {
    forall k | k in cs ensures ItemHolds(items[k], cs[k], more) { ItemHoldsInMore(items[k], cs[k], heap, more); }
  }

  /** What the copy holds when the keys in `done` have been assigned. */
  ghost function Partly(b: Config, u: Config, done: set<string>): map<string, Config>
    requires b.Dictionary? && u.Dictionary? && done <= u.entries.Keys
  {
    map k | k in b.entries.Keys + done :: if k in done then Merge(b, u).entries[k] else b.entries[k]
  }

  lemma {:induction false} PartlyAll(b: Config, u: Config)
    requires b.Dictionary? && u.Dictionary?
    ensures Partly(b, u, u.entries.Keys) == Merge(b, u).entries
  {
  }

  ghost function Assigned(cs: map<string, Config>, key: string, c: Config): map<string, Config> {
    cs[key := if key in cs && cs[key].Dictionary? && c.Dictionary? then Merge(cs[key], c) else c]
  }

  lemma {:induction false} PartlyStep(b: Config, u: Config, done: set<string>, key: string)
    requires b.Dictionary? && u.Dictionary? && done <= u.entries.Keys && key in u.entries && key !in done
    ensures Partly(b, u, done + {key}) == Assigned(Partly(b, u, done), key, u.entries[key])
  {
  }

  /** The assignment to one key. */
  method AssignEntry(result: DictObject, key: string, value: Item,
                     ghost cs: map<string, Config>, ghost c: Config, ghost heap: set<DictObject>,
                     ghost inner: set<DictObject>)
    returns (ghost grown: set<DictObject>)
    requires result !in heap + inner && Lists(result.entries, cs, heap + inner) && ItemHolds(value, c, heap)
    modifies result
    ensures inner <= grown && result !in grown
    ensures forall d :: d in grown && d !in inner ==> fresh(d)
    ensures Lists(result.entries, Assigned(cs, key, c), heap + grown)
    ensures result.entries.Keys == old(result.entries.Keys) + {key}
    ensures result.entries == old(result.entries)[key := result.entries[key]]
    ensures if key in old(result.entries) && old(result.entries)[key].Nested? && value.Nested?
            then result.entries[key].Nested? && result.entries[key].dict in grown
            else result.entries[key] == value
    decreases c, 3
  {
    grown := inner;
    if key in result.entries && result.entries[key].Nested? && value.Nested? {
      ghost var more;
      var merged;
      HoldsInMore(value.dict, c, heap, heap + inner);
      merged, more := DeepMerge(result.entries[key].dict, value.dict, cs[key], c, heap + inner);
      grown := inner + more;
      assert heap + inner + more == heap + grown;
      ListsInMore(result.entries, cs, heap + inner, heap + grown);
      result.entries := result.entries[key := Nested(merged)];
    } else {
      ItemHoldsInMore(value, c, heap, heap + inner);
      result.entries := result.entries[key := value];
    }
  }

  /** Where two dicts meet there is one of `made`; everything else is the very item of an input. */
  predicate Shares(r: map<string, Item>, base: map<string, Item>, update: map<string, Item>, made: set<DictObject>) {
    forall k :: k in r ==>
      if k !in update then k in base && r[k] == base[k]
      else if k in base && base[k].Nested? && update[k].Nested? then r[k].Nested? && r[k].dict in made
      else r[k] == update[k]
  }

  ghost function Only(items: map<string, Item>, done: set<string>): map<string, Item>
    requires done <= items.Keys
  {
    map k | k in done :: items[k]
  }

  lemma {:induction false} OnlyAll(items: map<string, Item>)
    ensures Only(items, items.Keys) == items
  {
  }

  lemma {:induction false} SharesStep(r: map<string, Item>, s: map<string, Item>, base: map<string, Item>,
                                      update: map<string, Item>, done: set<string>, key: string,
                                      made: set<DictObject>, more: set<DictObject>)
    requires done <= update.Keys && key in update && key !in done && made <= more
    requires Shares(r, base, Only(update, done), made)
    requires key in s && s == r[key := s[key]]
    requires key in r <==> key in base
    requires if key in r && r[key].Nested? && update[key].Nested?
             then s[key].Nested? && s[key].dict in more
             else s[key] == update[key]
    ensures Shares(s, base, Only(update, done + {key}), more)
  {
    forall k | k in s && k != key
      ensures k in r && s[k] == r[k] && (k in Only(update, done) <==> k in Only(update, done + {key}))
    {
    }
  }

  /** The state of the loop: the keys in `done` are assigned, with the dicts of `inner`. */
  ghost predicate Assigning(r: map<string, Item>, base: map<string, Item>, items: map<string, Item>,
                            b: Config, u: Config, done: set<string>, heap: set<DictObject>, inner: set<DictObject>)
    requires b.Dictionary? && u.Dictionary?
    reads heap, inner
  {
    && done <= items.Keys && base.Keys == b.entries.Keys
    && Lists(items, u.entries, heap)
    && Lists(r, Partly(b, u, done), heap + inner)
    && Shares(r, base, Only(items, done), inner)
  }

  method AssignRound(result: DictObject, key: string, items: map<string, Item>, ghost base: map<string, Item>,
                     ghost b: Config, ghost u: Config, ghost done: set<string>,
                     ghost heap: set<DictObject>, ghost inner: set<DictObject>)
    returns (ghost grown: set<DictObject>)
    requires b.Dictionary? && u.Dictionary? && result !in heap + inner
    requires Assigning(result.entries, base, items, b, u, done, heap, inner)
    requires key in items && key !in done
    modifies result
    ensures Assigning(result.entries, base, items, b, u, done + {key}, heap, grown)
    ensures result !in grown && forall d :: d in grown && d !in inner ==> fresh(d)
    decreases u, 0
  {
    PartlyStep(b, u, done, key);
    assert key in base ==> result.entries[key] == base[key];
    ghost var r := result.entries;
    grown := AssignEntry(result, key, items[key], Partly(b, u, done), u.entries[key], heap, inner);
    SharesStep(r, result.entries, base, items, done, key, inner, grown);
  }

  /** The loop over the items of `update`. */
  method AssignAll(result: DictObject, items: map<string, Item>, ghost base: map<string, Item>,
                   ghost b: Config, ghost u: Config, ghost heap: set<DictObject>)
    returns (ghost inner: set<DictObject>)
    requires b.Dictionary? && u.Dictionary? && result !in heap && result.entries == base
    requires Lists(base, b.entries, heap) && Lists(items, u.entries, heap)
    modifies result
    ensures Lists(result.entries, Merge(b, u).entries, heap + inner)
    ensures result !in inner && forall d :: d in inner ==> fresh(d)
    ensures Shares(result.entries, base, items, inner)
    decreases u, 1
  {
    inner := {};
    var done: set<string> := {};
    assert Partly(b, u, {}) == b.entries && heap + inner == heap;
    while items.Keys - done != {}
      invariant result !in inner && forall d :: d in inner ==> fresh(d)
      invariant Assigning(result.entries, base, items, b, u, done, heap, inner)
      decreases items.Keys - done
    {
      var key :| key in items.Keys - done;
      inner := AssignRound(result, key, items, base, b, u, done, heap, inner);
      done := done + {key};
    }
    assert done == items.Keys;
    OnlyAll(items);
    PartlyAll(b, u);
  }

  /** The source's merge: a copy of `base`, then one assignment per key of `update`.  No dict that was there
      before is changed.  The result is a new dict; where two dicts meet it has a new one, and everything
      else it shares with the inputs. */
  method DeepMerge(base: DictObject, update: DictObject, ghost b: Config, ghost u: Config, ghost heap: set<DictObject>)
    returns (result: DictObject, ghost made: set<DictObject>)
    requires Holds(base, b, heap) && Holds(update, u, heap)
    ensures Holds(result, Merge(b, u), heap + made)
    ensures fresh(made) && result in made
    ensures unchanged(heap)
    ensures Shares(result.entries, base.entries, update.entries, made)
    decreases u, 2
  {
    result := new DictObject(base.entries);
    ghost var inner := AssignAll(result, update.entries, base.entries, b, u, heap);
    made := inner + {result};
    ListsInMore(result.entries, Merge(b, u).entries, heap + inner, heap + made);
  }

  // ---------- identity and idempotence ----------

  lemma {:induction false} EmptyIsIdentity(c: Config)
    requires c.Dictionary?
    ensures Merge(c, EMPTY_CONFIG) == c && Merge(EMPTY_CONFIG, c) == c
  {
    assert Merge(c, EMPTY_CONFIG).entries == c.entries;
    assert Merge(EMPTY_CONFIG, c).entries == c.entries;
  }

  lemma {:induction false} MergeTwiceIsOnce(base: Config, update: Config)
    requires base.Dictionary? && update.Dictionary?
    ensures Merge(Merge(base, update), update) == Merge(base, update)
    decreases update
  {
    var once := Merge(base, update);
    forall k | k in once.entries ensures Merge(once, update).entries[k] == once.entries[k] {
      if k in update.entries && update.entries[k].Dictionary? {
        if k in base.entries && base.entries[k].Dictionary? {
          MergeTwiceIsOnce(base.entries[k], update.entries[k]);
        } else {
          EmptyIsIdentity(update.entries[k]);
          MergeTwiceIsOnce(EMPTY_CONFIG, update.entries[k]);
        }
      }
    }
    assert Merge(once, update).entries == once.entries;
  }

  // ---------- what is where afterwards ----------

  function Lookup(c: Config, path: seq<string>): Option<Config>
    decreases |path|
  {
    if path == [] then Some(c)
    else if c.Dictionary? && path[0] in c.entries then Lookup(c.entries[path[0]], path[1..])
    else None
  }

  /** The update has something to say about the path: an entry at it, or a leaf on the way. */
  predicate Touches(update: Config, path: seq<string>)
    decreases |path|
  {
    path == [] || update.Leaf? || (path[0] in update.entries && Touches(update.entries[path[0]], path[1..]))
  }

  /** Paths the update does not touch keep what the base has there. */
  lemma {:induction false} UntouchedPathsKeep(base: Config, update: Config, path: seq<string>)
    requires base.Dictionary? && update.Dictionary? && !Touches(update, path)
    ensures Lookup(Merge(base, update), path) == Lookup(base, path)
    decreases |path|
  {
    var k := path[0];
    if k in update.entries && update.entries[k].Dictionary? {
      if k in base.entries && base.entries[k].Dictionary? {
        UntouchedPathsKeep(base.entries[k], update.entries[k], path[1..]);
      } else {
        UntouchedPathsKeep(EMPTY_CONFIG, update.entries[k], path[1..]);
        EmptyIsIdentity(update.entries[k]);
        assert path[1..] != [];
      }
    }
  }

  /** Exactly which leaves the merged dict has: every leaf of the update, and every leaf of the
      base that the update does not touch. */
  lemma {:induction false} LeavesOfMerge(base: Config, update: Config, path: seq<string>, v: string)
    requires base.Dictionary? && update.Dictionary?
    ensures Lookup(Merge(base, update), path) == Some(Leaf(v))
            <==> Lookup(update, path) == Some(Leaf(v))
                 || (!Touches(update, path) && Lookup(base, path) == Some(Leaf(v)))
    decreases |path|
  {
    if path != [] {
      var k := path[0];
      if k in update.entries && update.entries[k].Dictionary? {
        if k in base.entries && base.entries[k].Dictionary? {
          LeavesOfMerge(base.entries[k], update.entries[k], path[1..], v);
        } else {
          LeavesOfMerge(EMPTY_CONFIG, update.entries[k], path[1..], v);
          EmptyIsIdentity(update.entries[k]);
          assert path[1..] != [] ==> Lookup(base, path) == None;
        }
      }
    }
  }

  // ---------- associativity ----------

  /** Everything in x is overwritten by z. */
  ghost predicate Covered(x: Config, z: Config)
    requires x.Dictionary? && z.Dictionary?
    decreases z
  {
    forall k :: k in x.entries ==>
      k in z.entries && (x.entries[k].Dictionary? && z.entries[k].Dictionary? ==> Covered(x.entries[k], z.entries[k]))
  }

  lemma {:induction false} CoveredIff(x: Config, z: Config)
    requires x.Dictionary? && z.Dictionary?
    ensures Merge(x, z) == z <==> Covered(x, z)
    decreases z
  {
    var m := Merge(x, z);
    forall k | k in x.entries && k in z.entries && x.entries[k].Dictionary? && z.entries[k].Dictionary?
      ensures m.entries[k] == z.entries[k] <==> Covered(x.entries[k], z.entries[k])
    { CoveredIff(x.entries[k], z.entries[k]); }
    if Covered(x, z) {
      assert m.entries == z.entries;
    } else {
      var k :| k in x.entries &&
        !(k in z.entries
          && (x.entries[k].Dictionary? && z.entries[k].Dictionary? ==> Covered(x.entries[k], z.entries[k])));
      assert k in m.entries;
    }
  }

  /** No dict of a is hidden by a leaf of b and then shows up again under a dict of c. */
  ghost predicate Compatible(a: Config, b: Config, c: Config)
    requires a.Dictionary? && b.Dictionary? && c.Dictionary?
    decreases c, 1
  {
    forall k :: CompatibleAt(a, b, c, k)
  }

  ghost predicate CompatibleAt(a: Config, b: Config, c: Config, k: string)
    requires a.Dictionary? && b.Dictionary? && c.Dictionary?
    decreases c, 0
  {
    k in a.entries && k in b.entries && k in c.entries && a.entries[k].Dictionary? && c.entries[k].Dictionary? ==>
      if b.entries[k].Dictionary? then Compatible(a.entries[k], b.entries[k], c.entries[k])
      else Covered(a.entries[k], c.entries[k])
  }

  /** Merging in either grouping gives the same dict if and only if the three are compatible. */
  lemma {:induction false} AssociativeIff(a: Config, b: Config, c: Config)
    requires a.Dictionary? && b.Dictionary? && c.Dictionary?
    ensures Merge(Merge(a, b), c) == Merge(a, Merge(b, c)) <==> Compatible(a, b, c)
    decreases c, 1
  {
    var left, right := Merge(Merge(a, b), c), Merge(a, Merge(b, c));
    assert left.entries.Keys == right.entries.Keys;
    forall k | k in left.entries ensures left.entries[k] == right.entries[k] <==> CompatibleAt(a, b, c, k) {
      AssociativeAt(a, b, c, k);
    }
    if Compatible(a, b, c) {
      forall k | k in left.entries ensures left.entries[k] == right.entries[k] { assert CompatibleAt(a, b, c, k); }
      assert left.entries == right.entries;
    }
    if left == right {
      forall k ensures CompatibleAt(a, b, c, k) {
        if k in left.entries { AssociativeAt(a, b, c, k); }
      }
    }
  }

  lemma {:induction false} AssociativeAt(a: Config, b: Config, c: Config, k: string)
    requires a.Dictionary? && b.Dictionary? && c.Dictionary?
    requires k in Merge(Merge(a, b), c).entries
    ensures k in Merge(a, Merge(b, c)).entries
    ensures Merge(Merge(a, b), c).entries[k] == Merge(a, Merge(b, c)).entries[k] <==> CompatibleAt(a, b, c, k)
    decreases c, 0
  {
    if k in a.entries && k in b.entries && k in c.entries && a.entries[k].Dictionary? && c.entries[k].Dictionary? {
      if b.entries[k].Dictionary? {
        AssociativeIff(a.entries[k], b.entries[k], c.entries[k]);
      } else {
        CoveredIff(a.entries[k], c.entries[k]);
      }
    }
  }

  /** Where b and c both have an entry, both have a leaf or both have a dict. */
  ghost predicate SamePositions(b: Config, c: Config)
    requires b.Dictionary? && c.Dictionary?
    decreases c
  {
    forall k :: k in b.entries && k in c.entries ==>
      && (b.entries[k].Dictionary? <==> c.entries[k].Dictionary?)
      && (b.entries[k].Dictionary? ==> SamePositions(b.entries[k], c.entries[k]))
  }

  lemma {:induction false} AssociativeWhenPositionsAgree(a: Config, b: Config, c: Config)
    requires a.Dictionary? && b.Dictionary? && c.Dictionary? && SamePositions(b, c)
    ensures Compatible(a, b, c) && Merge(Merge(a, b), c) == Merge(a, Merge(b, c))
    decreases c
  {
    forall k | k in a.entries && k in b.entries && k in c.entries
               && a.entries[k].Dictionary? && c.entries[k].Dictionary?
      ensures b.entries[k].Dictionary? && Compatible(a.entries[k], b.entries[k], c.entries[k])
    { AssociativeWhenPositionsAgree(a.entries[k], b.entries[k], c.entries[k]); }
    AssociativeIff(a, b, c);
  }

  /** The failing family is not empty: a leaf in the middle lets the old dict through on one side only. */
  lemma {:induction false} NotAlwaysAssociative()
    ensures var a := Dictionary(map["model" := Dictionary(map["name" := Leaf("x")])]);
            var b := Dictionary(map["model" := Leaf("off")]);
            var c := Dictionary(map["model" := EMPTY_CONFIG]);
            Merge(Merge(a, b), c) != Merge(a, Merge(b, c))
  {
    var inner := Dictionary(map["name" := Leaf("x")]);
    var a := Dictionary(map["model" := inner]);
    var b := Dictionary(map["model" := Leaf("off")]);
    var c := Dictionary(map["model" := EMPTY_CONFIG]);
    assert "name" in inner.entries && !Covered(inner, EMPTY_CONFIG);
    assert !CompatibleAt(a, b, c, "model");
    AssociativeIff(a, b, c);
  }
}
