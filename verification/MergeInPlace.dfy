/** The merge as the code does it: recursively, in place, over decoded objects on the heap. */
module MergeInPlace {
  import opened MergePatch

  datatype Value = NullValue | ScalarValue(text: string) | MapValue(node: JsonMap)

  /** A decoded object. Decoding gives a tree: no node is reached in two ways. */
  class JsonMap {
    var entries: map<string, Value>
    ghost var Repr: set<JsonMap>

    ghost predicate Valid()
      reads this, Repr
      decreases Repr
    {
      this in Repr &&
      (forall k :: k in entries && entries[k].MapValue? ==>
        var n := entries[k].node;
        n in Repr && n.Repr <= Repr && this !in n.Repr && n.Valid()) &&
      forall k, l :: k in entries && l in entries && k != l && entries[k].MapValue? && entries[l].MapValue? ==>
        entries[k].node.Repr !! entries[l].node.Repr
    }

    ghost function Contents(): (m: Members)
      requires Valid()
      reads this, Repr
      decreases Repr
      ensures m.Keys == entries.Keys
    {
      map k | k in entries ::
        match entries[k]
        case NullValue => Null
        case ScalarValue(text) => Scalar(text)
        case MapValue(n) => Object(n.Contents())
    }
  }

  /* ---- what a value of the heap shows ---- */

  /** The nodes of a value are among the given ones. */
  ghost predicate Within(v: Value, nodes: set<JsonMap>)
    reads if v.MapValue? then {v.node} else {}
  {
    v.MapValue? ==> v.node in v.node.Repr && v.node.Repr <= nodes
  }

  /** The value is well formed and stands for the given JSON. */
  ghost predicate Shows(v: Value, j: Json)
    reads if v.MapValue? then {v.node} + v.node.Repr else {}
  {
    match v
    case NullValue => j == Null
    case ScalarValue(text) => j == Scalar(text)
    case MapValue(n) => n.Valid() && j == Object(n.Contents())
  }

  ghost predicate Standing(v: Value, j: Json, nodes: set<JsonMap>)
    reads if v.MapValue? then {v.node} + v.node.Repr else {}
  {
    Shows(v, j) && Within(v, nodes)
  }

  ghost function NodesOf(v: Value): set<JsonMap>
    reads if v.MapValue? then {v.node} else {}
  {
    if v.MapValue? then v.node.Repr else {}
  }

  lemma RootIsInside(d: JsonMap)
    requires d.Valid()
    ensures d in d.Repr && d.Contents().Keys == d.entries.Keys
  {
  }

  lemma EntriesAtStart(dst: JsonMap, below: map<string, set<JsonMap>>)
    requires dst.Valid()
    requires forall k :: k in dst.entries ==> k in below && NodesOf(dst.entries[k]) <= below[k]
    ensures forall k :: k in dst.entries ==> Standing(dst.entries[k], dst.Contents()[k], below[k])
  {
    forall k | k in dst.entries ensures Standing(dst.entries[k], dst.Contents()[k], below[k]) {
    }
  }

  lemma StandsInMore(v: Value, j: Json, nodes: set<JsonMap>, more: set<JsonMap>)
    requires Standing(v, j, nodes) && nodes <= more
    ensures Standing(v, j, more)
  {
    hide Shows;
  }

  /* ---- disjoint regions of nodes ---- */

  ghost predicate Apart(dst: JsonMap, below: map<string, set<JsonMap>>) {
    (forall k :: k in below ==> dst !in below[k]) &&
    forall k, l :: k in below && l in below && k != l ==> below[k] !! below[l]
  }

  /** Where each key's nodes may lie, and where the destination's lie before: disjoint, away from the root and the
      patch. */
  ghost predicate Plan(dst: JsonMap, patchNodes: set<JsonMap>, below: map<string, set<JsonMap>>,
                       own: map<string, set<JsonMap>>)
  {
    Apart(dst, below) && dst !in patchNodes &&
    forall k :: k in own ==> k in below && own[k] <= below[k] && own[k] !! patchNodes
  }

  lemma OthersAreApart(dst: JsonMap, patchNodes: set<JsonMap>, below: map<string, set<JsonMap>>,
                       own: map<string, set<JsonMap>>, key: string)
    requires Plan(dst, patchNodes, below, own) && key in below
    ensures dst !in patchNodes && (key in own ==> own[key] <= below[key] && own[key] !! patchNodes && dst !in own[key])
    ensures forall k :: k in below && k != key ==> dst !in below[k] && (key in own ==> own[key] !! below[k])
  {
  }

  /** The patch object, unchanged, with its nodes in their regions. */
  ghost predicate Supplies(src: JsonMap, patch: Members, below: map<string, set<JsonMap>>)
    reads src, src.Repr
  {
    src.Valid() && src.Contents() == patch && forall k :: k in src.entries ==>
      k in below && NodesOf(src.entries[k]) <= below[k]
  }

  lemma SuppliesMeans(src: JsonMap, patch: Members, below: map<string, set<JsonMap>>, key: string)
    requires Supplies(src, patch, below) && key in src.entries
    ensures src.Valid() && src.Contents() == patch && key in patch && key in below
    ensures NodesOf(src.entries[key]) <= below[key]
  {
  }

  /** The destination shows the given members, each within its region. */
  ghost predicate Stands(dst: JsonMap, target: Members, below: map<string, set<JsonMap>>)
    reads *
  {
    dst.entries.Keys == target.Keys && target.Keys <= below.Keys &&
    forall k :: k in target ==> Standing(dst.entries[k], target[k], below[k])
  }

  lemma StandsMeans(dst: JsonMap, target: Members, below: map<string, set<JsonMap>>)
    requires Stands(dst, target, below)
    ensures dst.entries.Keys == target.Keys && target.Keys <= below.Keys
    ensures forall k :: k in target ==> Standing(dst.entries[k], target[k], below[k])
    ensures forall k :: k in target && dst.entries[k].MapValue? ==>
      dst.entries[k].node in below[k] && dst.entries[k].node.Repr <= below[k]
    ensures forall k :: k in target ==> Standing(dst.entries[k], target[k], NodesOf(dst.entries[k]))
  {
    hide Shows;
  }

  lemma StandsAgain(dst: JsonMap, target: Members, below: map<string, set<JsonMap>>)
    requires forall k :: (k in dst.entries <==> k in target) && (k in target ==> k in below)
    requires forall k :: k in target ==> Standing(dst.entries[k], target[k], below[k])
    ensures Stands(dst, target, below)
  {
    hide Standing;
  }

  /** The keys still to do have the nodes they had. */
  ghost predicate Kept(dst: JsonMap, own: map<string, set<JsonMap>>, todo: set<string>)
    reads *
  {
    forall k :: k in todo ==> (k in dst.entries <==> k in own) && (k in own ==> NodesOf(dst.entries[k]) == own[k])
  }

  lemma KeptMeans(dst: JsonMap, own: map<string, set<JsonMap>>, todo: set<string>, key: string)
    requires Kept(dst, own, todo) && key in todo
    ensures key in dst.entries <==> key in own
    ensures key in own ==> NodesOf(dst.entries[key]) == own[key] == At(own, key)
    ensures forall k :: k in todo ==>
      (k in dst.entries <==> k in own) && (k in own ==> NodesOf(dst.entries[k]) == own[k])
    ensures key !in own ==> At(own, key) == {}
  {
    hide NodesOf;
  }

  lemma KeptAgain(dst: JsonMap, own: map<string, set<JsonMap>>, todo: set<string>)
    requires forall k :: k in todo ==>
      (k in dst.entries <==> k in own) && (k in own ==> NodesOf(dst.entries[k]) == own[k])
    ensures Kept(dst, own, todo)
  {
  }

  /** Entries below disjoint sets of nodes make a valid object. */
  lemma ValidFromEntries(d: JsonMap, target: Members, below: map<string, set<JsonMap>>)
    requires d in d.Repr && d.entries.Keys == target.Keys && target.Keys <= below.Keys
    requires forall k :: k in target ==> Standing(d.entries[k], target[k], below[k])
    requires Apart(d, below) && forall k :: k in below ==> below[k] <= d.Repr
    ensures d.Valid() && d.Contents() == target
  {
    forall k | k in d.entries && d.entries[k].MapValue?
      ensures var n := d.entries[k].node; n in d.Repr && n.Repr <= d.Repr && d !in n.Repr && n.Valid()
    {
      assert Standing(d.entries[k], target[k], below[k]);
    }
    assert d.Valid();
    forall k | k in target ensures d.Contents()[k] == target[k] {
      assert Standing(d.entries[k], target[k], below[k]);
    }
  }

  /** The nodes below each key. */
  ghost function NodeMap(d: JsonMap): (r: map<string, set<JsonMap>>)
    requires d.Valid()
    reads d, d.Repr
    ensures r.Keys == d.entries.Keys && forall k :: k in r ==> r[k] <= d.Repr - {d}
    ensures forall k, l :: k in r && l in r && k != l ==> r[k] !! r[l]
  {
    map k | k in d.entries :: NodesOf(d.entries[k])
  }

  ghost function At(nodes: map<string, set<JsonMap>>, k: string): set<JsonMap> {
    if k in nodes then nodes[k] else {}
  }

  lemma PairIsApart(d: set<JsonMap>, s: set<JsonMap>, a: set<JsonMap>, b: set<JsonMap>, a': set<JsonMap>,
                    b': set<JsonMap>)
    requires d !! s && a <= d && b <= d && a' <= s && b' <= s && a !! b && a' !! b'
    ensures a + a' !! b + b'
  {
  }

  lemma RegionsAreApart(dst: JsonMap, d: set<JsonMap>, s: set<JsonMap>, own: map<string, set<JsonMap>>,
                        added: map<string, set<JsonMap>>, below: map<string, set<JsonMap>>)
    requires dst in d && d !! s
    requires forall k :: k in own ==> own[k] <= d - {dst}
    requires forall k :: k in added ==> added[k] <= s
    requires forall k, l :: k in own && l in own && k != l ==> own[k] !! own[l]
    requires forall k, l :: k in added && l in added && k != l ==> added[k] !! added[l]
    requires below.Keys == own.Keys + added.Keys && forall k :: k in below ==> below[k] == At(own, k) + At(added, k)
    ensures Plan(dst, s, below, own) && Apart(dst, below) && forall k :: k in below ==> below[k] <= d + s
  {
    forall k, l | k in below && l in below && k != l ensures below[k] !! below[l] {
      PairIsApart(d, s, At(own, k), At(own, l), At(added, k), At(added, l));
    }
  }

  lemma RegionsServe(dst: JsonMap, src: JsonMap, own: map<string, set<JsonMap>>, added: map<string, set<JsonMap>>,
                     below: map<string, set<JsonMap>>)
    requires dst.Valid() && src.Valid() && own == NodeMap(dst) && added == NodeMap(src)
    requires below.Keys == own.Keys + added.Keys && forall k :: k in below ==> below[k] == At(own, k) + At(added, k)
    ensures Supplies(src, src.Contents(), below) && Stands(dst, dst.Contents(), below)
    ensures forall todo :: Kept(dst, own, todo)
  {
    hide Shows, Within, Standing;
    RootIsInside(dst);
    forall k | k in dst.entries ensures NodesOf(dst.entries[k]) <= below[k] {
      assert own[k] == NodesOf(dst.entries[k]);
    }
    forall k | k in src.entries ensures NodesOf(src.entries[k]) <= below[k] {
      assert added[k] == NodesOf(src.entries[k]);
    }
    EntriesAtStart(dst, below);
  }

  ghost method Regions(dst: JsonMap, src: JsonMap)
    returns (below: map<string, set<JsonMap>>, own: map<string, set<JsonMap>>)
    requires dst.Valid() && src.Valid() && dst.Repr !! src.Repr
    ensures Plan(dst, src.Repr, below, own) && Apart(dst, below) && Supplies(src, src.Contents(), below)
    ensures Stands(dst, dst.Contents(), below) && forall todo :: Kept(dst, own, todo)
    ensures forall k :: k in own ==> own[k] <= dst.Repr
    ensures forall k :: k in below ==> below[k] <= dst.Repr + src.Repr
  {
    hide *;
    RootIsInside(dst);
    RootIsInside(src);
    own := NodeMap(dst);
    var added := NodeMap(src);
    below := map k | k in own.Keys + added.Keys :: At(own, k) + At(added, k);
    RegionsAreApart(dst, dst.Repr, src.Repr, own, added, below);
    RegionsServe(dst, src, own, added, below);
  }

  /** The nodes grafted from the patch now belong to the destination too. */
  ghost method Attach(dst: JsonMap, grafted: set<JsonMap>, target: Members, below: map<string, set<JsonMap>>)
    requires dst in dst.Repr && Stands(dst, target, below) && Apart(dst, below)
    requires forall k :: k in below ==> below[k] <= dst.Repr + grafted
    modifies dst`Repr
    ensures dst.Valid() && dst.Repr == old(dst.Repr) + grafted && dst.Contents() == target
  {
    hide Shows;
    dst.Repr := dst.Repr + grafted;
    forall k | k in target ensures Standing(dst.entries[k], target[k], below[k]) {
      assert old(Standing(dst.entries[k], target[k], below[k]));
      assert dst.entries[k].MapValue? ==> dst.entries[k].node in below[k];
    }
    ValidFromEntries(dst, target, below);
  }

  /* ---- the members shown so far ---- */

  ghost predicate SameEntry(a: Members, b: Members, k: string) {
    (k in a <==> k in b) && (k in a ==> a[k] == b[k])
  }

  lemma SameMeans(a: Members, b: Members, k: string)
    requires SameEntry(a, b, k)
    ensures (k in a <==> k in b) && (k in a ==> a[k] == b[k])
  {
  }

  /** The first members with the second's entry under the key, or none. */
  ghost function WithEntry(a: Members, b: Members, key: string): (r: Members)
    ensures SameEntry(r, b, key) && forall k :: k != key ==> SameEntry(r, a, k)
    ensures (key in r <==> key in b) && (key in r ==> r[key] == b[key])
    ensures forall k :: k != key ==> (k in r <==> k in a) && (k in r ==> r[k] == a[k])
  {
    if key in b then a[key := b[key]] else a - {key}
  }

  lemma AllSame(was: Members, patch: Members, todo: set<string>)
    requires todo == patch.Keys
    ensures forall k :: SameEntry(was, was, k)
    ensures forall k :: k !in todo ==> SameEntry(was, if k in patch then Merged(was, patch) else was, k)
  {
    hide Merged;
  }

  lemma NextTarget(was: Members, patch: Members, target: Members, target': Members, key: string, todo: set<string>)
    requires key in patch && key !in todo
    requires forall k :: k in todo ==> SameEntry(target, was, k)
    requires forall k :: k !in todo && k != key ==> SameEntry(target, if k in patch then Merged(was, patch) else was, k)
    requires forall k :: k != key ==> SameEntry(target', target, k)
    requires SameEntry(target', Merged(was, patch), key)
    ensures forall k :: k in todo ==> SameEntry(target', was, k)
    ensures forall k :: k !in todo ==> SameEntry(target', if k in patch then Merged(was, patch) else was, k)
  {
    hide Merged;
    forall k | k in todo ensures SameEntry(target', was, k) {
      assert SameEntry(target, was, k) && SameEntry(target', target, k);
    }
    forall k | k !in todo ensures SameEntry(target', if k in patch then Merged(was, patch) else was, k) {
      if k != key {
        assert SameEntry(target', target, k);
        assert SameEntry(target, if k in patch then Merged(was, patch) else was, k);
      }
    }
  }

  lemma MergedFrom(was: Members, patch: Members, target: Members)
    requires forall k :: SameEntry(target, if k in patch then Merged(was, patch) else was, k)
    ensures target == Merged(was, patch)
  {
    hide Merged;
    forall k
      ensures (k in target <==> k in Merged(was, patch)) && (k in target ==> target[k] == Merged(was, patch)[k])
    {
      MergedEntry(was, patch, k);
      assert SameEntry(target, if k in patch then Merged(was, patch) else was, k);
    }
  }

  /* ---- the code ---- */

  /** One key of the patch. */
  method MergeKey(dst: JsonMap, src: JsonMap, key: string, ghost was: Members, ghost patch: Members)
    requires src.Valid() && key in src.entries && src.Contents() == patch
    requires key in dst.entries <==> key in was
    requires key in was ==> Standing(dst.entries[key], was[key], NodesOf(dst.entries[key]))
    requires dst !in src.Repr
    requires key in was ==> dst !in NodesOf(dst.entries[key]) && NodesOf(dst.entries[key]) !! src.Repr
    modifies {dst} + if key in dst.entries then NodesOf(dst.entries[key]) else {}
    ensures dst.Repr == old(dst.Repr)
    ensures forall k :: k != key ==> (k in dst.entries <==> k in old(dst.entries))
    ensures forall k :: k in dst.entries && k != key ==> k in old(dst.entries) && dst.entries[k] == old(dst.entries)[k]
    ensures key in dst.entries <==> key in Merged(was, patch)
    ensures key in dst.entries ==> Standing(dst.entries[key], Merged(was, patch)[key],
      (if key in was then old(NodesOf(dst.entries[key])) else {}) + NodesOf(src.entries[key]))
    decreases src.Repr, 0
  {
    hide Merged;
    var srcVal := src.entries[key];
    MergedEntry(was, patch, key);
    if srcVal.NullValue? {
      dst.entries := dst.entries - {key};
      return;
    }
    if srcVal.MapValue? && key in dst.entries && dst.entries[key].MapValue? {
      MergeMap(dst.entries[key].node, srcVal.node);
    } else {
      dst.entries := dst.entries[key := srcVal];
    }
  }

  /** One key of the patch, with what it leaves of the others. */
  method MergeStep(dst: JsonMap, src: JsonMap, key: string, ghost was: Members, ghost patch: Members,
                   ghost target: Members, ghost below: map<string, set<JsonMap>>,
                   ghost own: map<string, set<JsonMap>>, ghost todo: set<string>)
    returns (ghost target': Members)
    requires Supplies(src, patch, below) && key in src.entries && key !in todo
    requires Plan(dst, src.Repr, below, own) && Stands(dst, target, below) && Kept(dst, own, {key} + todo)
    requires SameEntry(target, was, key)
    modifies {dst} + if key in own then own[key] else {}
    ensures dst.Repr == old(dst.Repr) && Stands(dst, target', below) && Kept(dst, own, todo)
    ensures forall k :: k != key ==> SameEntry(target', target, k)
    ensures SameEntry(target', Merged(was, patch), key)
    decreases src.Repr, 1
  {
    hide *;
    SuppliesMeans(src, patch, below, key);
    OthersAreApart(dst, src.Repr, below, own, key);
    StandsMeans(dst, target, below);
    KeptMeans(dst, own, {key} + todo, key);
    SameMeans(target, was, key);
    MergeKey(dst, src, key, was, patch);
    target' := WithEntry(target, Merged(was, patch), key);
    if key in dst.entries {
      StandsInMore(dst.entries[key], target'[key], At(own, key) + NodesOf(src.entries[key]), below[key]);
    }
    forall k | k in target && k != key
      ensures Standing(dst.entries[k], target[k], below[k]) && NodesOf(dst.entries[k]) == old(NodesOf(dst.entries[k]))
    {
      var v := dst.entries[k];
      assert old(Standing(v, target[k], below[k]));
      assert v.MapValue? ==> v.node in below[k] && old(v.node.Repr) <= below[k];
    }
    StandsAgain(dst, target', below);
    KeptAgain(dst, own, todo);
  }

  method MergeMap(dst: JsonMap, src: JsonMap)
    requires dst.Valid() && src.Valid() && dst.Repr !! src.Repr
    modifies dst.Repr
    ensures dst.Valid() && dst.Repr == old(dst.Repr) + src.Repr
    ensures dst.Contents() == Merged(old(dst.Contents()), old(src.Contents()))
    decreases src.Repr, 2
  {
    hide *;
    RootIsInside(dst);
    RootIsInside(src);
    ghost var was, patch := dst.Contents(), src.Contents();
    ghost var below, own := Regions(dst, src);
    ghost var target := was;
    var todo := src.entries.Keys;
    AllSame(was, patch, todo);
    while todo != {}
      invariant todo <= src.entries.Keys && dst.Repr == old(dst.Repr) && src.Repr == old(src.Repr)
      invariant Supplies(src, patch, below) && Stands(dst, target, below) && Kept(dst, own, todo)
      invariant forall k :: k in todo ==> SameEntry(target, was, k)
      invariant forall k :: k !in todo ==> SameEntry(target, if k in patch then Merged(was, patch) else was, k)
      decreases todo
    {
      var key :| key in todo;
      assert {key} + (todo - {key}) == todo;
      todo := todo - {key};
      ghost var target' := MergeStep(dst, src, key, was, patch, target, below, own, todo);
      NextTarget(was, patch, target, target', key, todo);
      target := target';
    }
    MergedFrom(was, patch, target);
    Attach(dst, src.Repr, target, below);
  }
}
