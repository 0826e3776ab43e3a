/** The resolution pass shared by every copy of the engine: locate the maps
    holding a provider key, fetch a value for each, delete the key everywhere
    and deep-merge the fetched values back at their addresses. */
module Engine {
  import opened Results
  import opened Document

  /** Every tag sits under map keys only. */
  ghost predicate TagsMapOnly(d: Doc, key: string) {
    forall a :: a in Locate(d, key) ==> MapOnly(a)
  }

  /** No tag lies inside another tag's container. */
  ghost predicate NonNesting(d: Doc, key: string) {
    forall a, b :: a in Locate(d, key) && b in Locate(d, key) && a != b ==> !(a <= b)
  }

  /** The documents a pass rebuilds address by address: the root is not itself
      a tag, every tag is reached through map keys, and tags do not nest. */
  ghost predicate Resolvable(d: Doc, key: string) {
    !IsTag(d, key) && TagsMapOnly(d, key) && NonNesting(d, key)
  }

  /** Some address of `v` lies at or below `q`. */
  ghost predicate Covers(v: map<Address, Doc>, q: Address) {
    exists a :: a in v && q <= a
  }

  /** The `resolved` dict, for the subdocument `d` at address `p`, after the
      values `v` (keyed by absolute address) have been merged in: every entry
      of `d` with an address of `v` at or below it, holding the value itself
      at that address and nested dicts above it. */
  ghost function Partial(d: Doc, v: map<Address, Doc>, p: Address): map<string, Doc>
  {
    match d
    case Map(m) =>
      map k | k in m && Covers(v, p + [Key(k)]) ::
        if p + [Key(k)] in v then v[p + [Key(k)]] else Map(Partial(m[k], v, p + [Key(k)]))
    case _ => map[]
  }

  lemma MergeMapsEmpty(x: map<string, Doc>)
    ensures MergeMaps(map[], x) == x
    ensures MergeMaps(x, map[]) == x
  {
  }

  lemma MergeValueMaps(x: map<string, Doc>, y: map<string, Doc>)
    ensures MergeValue(Map(x), Map(y)) == Map(MergeMaps(x, y))
  {
  }

  /** Extending a prefix by one step keeps it a prefix. */
  lemma ExtendPrefix(p: Address, s: Step, a: Address)
    ensures p + [s] <= a ==> p <= a && |p| < |a| && a[|p|] == s
  {
    if p + [s] <= a {
      assert a[..|p|] == (p + [s])[..|p|];
    }
  }

  /** Nothing of `v` under `p`: the partial tree there is empty. */
  lemma Uncovered(d: Doc, v: map<Address, Doc>, p: Address)
    requires !Covers(v, p)
    ensures Partial(d, v, p) == map[]
  {
    if d.Map? {
      forall k | k in d.m ensures !Covers(v, p + [Key(k)]) {
        forall a | a in v ensures !(p + [Key(k)] <= a) {
          ExtendPrefix(p, Key(k), a);
        }
      }
    }
  }

  /** Adding an address outside `p` leaves the partial tree at `p` alone. */
  lemma {:induction false} Frame(d: Doc, v: map<Address, Doc>, p: Address, a: Address, x: Doc)
    requires !(p <= a)
    ensures Partial(d, v[a := x], p) == Partial(d, v, p)
  {
    if d.Map? {
      forall k | k in d.m
        ensures Covers(v[a := x], p + [Key(k)]) == Covers(v, p + [Key(k)])
        ensures Partial(d.m[k], v[a := x], p + [Key(k)]) == Partial(d.m[k], v, p + [Key(k)])
      {
        ExtendPrefix(p, Key(k), a);
        CoversFrame(v, p + [Key(k)], a, x);
        Frame(d.m[k], v, p + [Key(k)], a, x);
      }
    }
  }

  lemma CoversFrame(v: map<Address, Doc>, q: Address, a: Address, x: Doc)
    requires !(q <= a)
    ensures Covers(v[a := x], q) == Covers(v, q)
  {
    if Covers(v[a := x], q) {
      var b :| b in v[a := x] && q <= b;
      assert b in v;
    }
    if Covers(v, q) {
      var b :| b in v && q <= b;
      assert b in v[a := x];
    }
  }

  /** A prefix of a located address leads through maps. */
  lemma Step(d: Doc, r: Address)
    requires r != [] && r[0].Key? && Get(d, r).Some?
    ensures d.Map? && r[0].k in d.m && Get(d.m[r[0].k], r[1..]) == Get(d, r)
  {
  }

  /** The entries of the tree beside the one a new address runs through are unchanged. */
  lemma Sibling(d: Doc, v: map<Address, Doc>, p: Address, a: Address, x: Doc, j: string)
    requires d.Map? && j in d.m && !(p + [Key(j)] <= a)
    ensures (j in Partial(d, v, p)) == (j in Partial(d, v[a := x], p))
    ensures j in Partial(d, v, p) ==> Partial(d, v, p)[j] == Partial(d, v[a := x], p)[j]
  {
    CoversFrame(v, p + [Key(j)], a, x);
    Frame(d.m[j], v, p + [Key(j)], a, x);
  }

  /** The new address is the entry itself: nothing of the old tree covers it. */
  lemma AddLeaf(d: Doc, v: map<Address, Doc>, p: Address, a: Address, x: Doc)
    requires d.Map? && |a| == |p| + 1 && p < a && a[|p|].Key? && a[|p|].k in d.m
    requires forall b :: b in v ==> !(a <= b) && !(b <= a)
    ensures a[|p|].k !in Partial(d, v, p)
    ensures a[|p|].k in Partial(d, v[a := x], p) && Partial(d, v[a := x], p)[a[|p|].k] == x
  {
    var k := a[|p|].k;
    assert p + [Key(k)] == a;
    assert !Covers(v, a) by {
      forall b | b in v ensures !(a <= b) { }
    }
    assert a in v[a := x];
  }

  /** The new address lies deeper: the entry it runs through is a nested tree. */
  lemma AddDeep(d: Doc, v: map<Address, Doc>, p: Address, a: Address, x: Doc)
    requires d.Map? && |a| > |p| + 1 && p < a && a[|p|].Key? && a[|p|].k in d.m
    requires forall b :: b in v ==> !(a <= b) && !(b <= a)
    ensures var q := p + [a[|p|]];
      && q < a && q !in v
      && a[|p|].k in Partial(d, v[a := x], p)
      && Partial(d, v[a := x], p)[a[|p|].k] == Map(Partial(d.m[a[|p|].k], v[a := x], q))
      && (a[|p|].k in Partial(d, v, p) <==> Covers(v, q))
      && (a[|p|].k in Partial(d, v, p) ==> Partial(d, v, p)[a[|p|].k] == Map(Partial(d.m[a[|p|].k], v, q)))
  {
    var q := p + [a[|p|]];
    assert a[..|q|] == a[..|p|] + [a[|p|]];
    assert q <= a;
    assert q !in v by {
      assert q in v ==> q <= a;
    }
    assert a in v[a := x];
  }

  /** Two trees that differ only in entry `k`, where the merge of a
      single-entry tree produces the new entry. */
  lemma Assemble(L: map<string, Doc>, R: map<string, Doc>, U: map<string, Doc>, k: string, x: Doc)
    requires U == map[k := x]
    requires forall j :: j != k ==> (j in L <==> j in R)
    requires forall j :: j != k && j in L ==> L[j] == R[j]
    requires k in R && R[k] == (if k in L then MergeValue(L[k], x) else x)
    ensures MergeMaps(L, U) == R
  {
    var M := MergeMaps(L, U);
    assert M.Keys == R.Keys;
    forall j | j in M ensures M[j] == R[j] { }
  }

  /** One iteration of the accumulation loop: merging the unflattened value of
      a new address into the tree gives the tree with that address added. */
  lemma {:induction false} TreeAdd(d: Doc, v: map<Address, Doc>, p: Address, a: Address, x: Doc)
    requires p < a && MapOnly(a) && Get(d, a[|p|..]).Some?
    requires a !in v
    requires forall b :: b in v ==> !(a <= b) && !(b <= a)
    ensures MergeMaps(Partial(d, v, p), Unflatten(a[|p|..], x)) == Partial(d, v[a := x], p)
    decreases |a| - |p|
  {
    var rel := a[|p|..];
    Step(d, rel);
    var k := rel[0].k;
    if |a| == |p| + 1 {
      Siblings(d, v, p, a, x);
      AddLeaf(d, v, p, a, x);
      assert Unflatten(rel, x) == map[k := x];
      Assemble(Partial(d, v, p), Partial(d, v[a := x], p), Unflatten(rel, x), k, x);
    } else {
      var q := p + [Key(k)];
      assert a[..|q|] == a[..|p|] + [a[|p|]];
      assert rel[1..] == a[|q|..];
      Step(d.m[k], a[|q|..]);
      TreeAdd(d.m[k], v, q, a, x);
      Graft(d, v, p, a, x);
    }
  }

  /** The entries of the tree other than the one the new address runs
      through are the same before and after it is added. */
  lemma Siblings(d: Doc, v: map<Address, Doc>, p: Address, a: Address, x: Doc)
    requires d.Map? && p < a && a[|p|].Key?
    ensures var L, R := Partial(d, v, p), Partial(d, v[a := x], p);
      forall j :: j != a[|p|].k ==> (j in L) == (j in R) && (j in L ==> L[j] == R[j])
  {
    var L, R := Partial(d, v, p), Partial(d, v[a := x], p);
    forall j | j != a[|p|].k
      ensures (j in L) == (j in R) && (j in L ==> L[j] == R[j])
    {
      if j in d.m {
        ExtendPrefix(p, Key(j), a);
        Sibling(d, v, p, a, x, j);
      }
    }
  }

  /** The deep case of `TreeAdd`: the merge one level down, grafted into the
      entry the new address runs through, gives the merge at this level. */
  lemma Graft(d: Doc, v: map<Address, Doc>, p: Address, a: Address, x: Doc)
    requires d.Map? && p < a && |a| > |p| + 1 && MapOnly(a) && a[|p|].k in d.m
    requires a !in v
    requires forall b :: b in v ==> !(a <= b) && !(b <= a)
    requires var q := p + [a[|p|]];
      MergeMaps(Partial(d.m[a[|p|].k], v, q), Unflatten(a[|q|..], x)) == Partial(d.m[a[|p|].k], v[a := x], q)
    ensures MergeMaps(Partial(d, v, p), Unflatten(a[|p|..], x)) == Partial(d, v[a := x], p)
  {
    var rel := a[|p|..];
    var k := a[|p|].k;
    var u := Map(Unflatten(a[|p| + 1..], x));
    Siblings(d, v, p, a, x);
    GraftEntry(d, v, p, a, x);
    assert rel[1..] == a[|p| + 1..];
    assert Unflatten(rel, x) == map[k := u];
    Assemble(Partial(d, v, p), Partial(d, v[a := x], p), Unflatten(rel, x), k, u);
  }

  /** The entry the new address runs through, in the deep case: the merge one
      level down, or the unflattened value alone where nothing covered it. */
  lemma GraftEntry(d: Doc, v: map<Address, Doc>, p: Address, a: Address, x: Doc)
    requires d.Map? && p < a && |a| > |p| + 1 && MapOnly(a) && a[|p|].k in d.m
    requires forall b :: b in v ==> !(a <= b) && !(b <= a)
    requires var q := p + [a[|p|]];
      MergeMaps(Partial(d.m[a[|p|].k], v, q), Unflatten(a[|q|..], x)) == Partial(d.m[a[|p|].k], v[a := x], q)
    ensures var k, L, R := a[|p|].k, Partial(d, v, p), Partial(d, v[a := x], p);
      var u := Map(Unflatten(a[|p| + 1..], x));
      k in R && R[k] == (if k in L then MergeValue(L[k], u) else u)
  {
    var k := a[|p|].k;
    var q := p + [Key(k)];
    AddDeep(d, v, p, a, x);
    var rest := a[|q|..];
    if k in Partial(d, v, p) {
      MergeValueMaps(Partial(d.m[k], v, q), Unflatten(rest, x));
    } else {
      Uncovered(d.m[k], v, q);
      MergeMapsEmpty(Unflatten(rest, x));
    }
  }

  /** The document a pass produces from the fetched values `v`: the key pruned
      everywhere, then the accumulated tree deep-merged in. */
  ghost function Resolved(doc: Doc, key: string, v: map<Address, Doc>): Doc {
    MergeInto(Prune(doc, key), Partial(doc, v, []))
  }

  /** The reference meaning of a pass: every map holding `key` (at address
      `p`) becomes its remaining entries deep-merged with the value fetched
      for it, so a non-map value replaces the whole container; nothing else
      changes. */
  ghost function Rewrite(d: Doc, key: string, v: map<Address, Doc>, p: Address): Doc {
    match d
    case Map(m) =>
      if key in m && p in v then MergeValue(Map(m - {key}), v[p])
      else Map(map k | k in m :: Rewrite(m[k], key, v, p + [Key(k)]))
    case List(xs) => List(seq(|xs|, i requires 0 <= i < |xs| => Rewrite(xs[i], key, v, p + [Index(i)])))
    case Leaf(_) => d
  }

  /** The addresses of `v` at or below `p` are exactly the tags of `d`, the
      subdocument at `p`. */
  ghost predicate Matches(d: Doc, key: string, v: map<Address, Doc>, p: Address) {
    && (forall r :: r in Locate(d, key) ==> p + r in v)
    && (forall a :: a in v && p <= a ==> a[|p|..] in Locate(d, key))
  }

  /** The tags of an entry are the tags of its map shifted by one key. */
  lemma ChildTag(m: map<string, Doc>, k: string, key: string, r: Address)
    requires k in m
    ensures r in Locate(m[k], key) <==> [Key(k)] + r in Locate(Map(m), key)
  {
    assert ([Key(k)] + r)[1..] == r;
    assert Get(Map(m), [Key(k)] + r) == Get(m[k], r);
  }

  /** The tags of a list item are the tags of its list shifted by one index. */
  lemma ItemTag(xs: seq<Doc>, i: nat, key: string, r: Address)
    requires i < |xs|
    ensures r in Locate(xs[i], key) <==> [Index(i)] + r in Locate(List(xs), key)
  {
    assert ([Index(i)] + r)[1..] == r;
    assert Get(List(xs), [Index(i)] + r) == Get(xs[i], r);
  }

  /** Without tags the reference rewrite is the identity. */
  lemma {:induction false} RewriteNoTags(d: Doc, key: string, v: map<Address, Doc>, p: Address)
    requires Locate(d, key) == {}
    ensures Rewrite(d, key, v, p) == d
  {
    match d
    case Leaf(_) =>
    case Map(m) =>
      assert !IsTagAt(d, [], key);
      forall k | k in m ensures Rewrite(m[k], key, v, p + [Key(k)]) == m[k] {
        forall r: Address ensures r !in Locate(m[k], key) {
          ChildTag(m, k, key, r);
        }
        RewriteNoTags(m[k], key, v, p + [Key(k)]);
      }
    case List(xs) =>
      forall i | 0 <= i < |xs| ensures Rewrite(xs[i], key, v, p + [Index(i)]) == xs[i] {
        forall r: Address ensures r !in Locate(xs[i], key) {
          ItemTag(xs, i, key, r);
        }
        RewriteNoTags(xs[i], key, v, p + [Index(i)]);
      }
  }

  /** An address made of keys stays so without its first step. */
  lemma MapOnlyTail(s: Step, r: Address)
    requires MapOnly([s] + r)
    ensures MapOnly(r)
  {
    forall i | 0 <= i < |r| ensures r[i].Key? {
      assert r[i] == ([s] + r)[i + 1];
    }
  }

  /** The requirements on the tags of a map pass to each entry. */
  lemma ChildInherits(m: map<string, Doc>, k: string, key: string)
    requires k in m && TagsMapOnly(Map(m), key) && NonNesting(Map(m), key)
    ensures TagsMapOnly(m[k], key) && NonNesting(m[k], key)
  {
    forall r | r in Locate(m[k], key) ensures MapOnly(r) {
      ChildTag(m, k, key, r);
      MapOnlyTail(Key(k), r);
    }
    forall r, s | r in Locate(m[k], key) && s in Locate(m[k], key) && r != s ensures !(r <= s) {
      ChildTag(m, k, key, r);
      ChildTag(m, k, key, s);
      PrependPrefix(Key(k), r, s);
    }
  }

  lemma PrependPrefix(x: Step, r: Address, s: Address)
    ensures r <= s <==> [x] + r <= [x] + s
    ensures r != s <==> [x] + r != [x] + s
  {
    assert ([x] + r)[1..] == r;
    assert ([x] + s)[1..] == s;
    if [x] + r <= [x] + s {
      assert r == ([x] + r)[1..] && s[..|r|] == ([x] + s)[1..|r| + 1];
    }
  }

  /** The fetched values under an entry match the entry's tags. */
  lemma ChildMatches(m: map<string, Doc>, k: string, key: string, v: map<Address, Doc>, p: Address)
    requires k in m && Matches(Map(m), key, v, p)
    ensures Matches(m[k], key, v, p + [Key(k)])
  {
    var q := p + [Key(k)];
    forall r | r in Locate(m[k], key) ensures q + r in v {
      ChildTagFetched(m, k, key, v, p, r);
    }
    forall a | a in v && q <= a ensures a[|q|..] in Locate(m[k], key) {
      FetchedChildTag(m, k, key, v, p, a);
    }
  }

  lemma ChildTagFetched(m: map<string, Doc>, k: string, key: string, v: map<Address, Doc>, p: Address, r: Address)
    requires k in m && (forall r :: r in Locate(Map(m), key) ==> p + r in v)
    requires r in Locate(m[k], key)
    ensures p + [Key(k)] + r in v
  {
    ChildTag(m, k, key, r);
    assert p + [Key(k)] + r == p + ([Key(k)] + r);
  }

  lemma FetchedChildTag(m: map<string, Doc>, k: string, key: string, v: map<Address, Doc>, p: Address, a: Address)
    requires k in m && (forall a :: a in v && p <= a ==> a[|p|..] in Locate(Map(m), key))
    requires a in v && p + [Key(k)] <= a
    ensures a[|p| + 1..] in Locate(m[k], key)
  {
    ExtendPrefix(p, Key(k), a);
    assert a[|p|..] == [Key(k)] + a[|p| + 1..];
    ChildTag(m, k, key, a[|p| + 1..]);
  }

  /** A tag's container, pruned: its other entries hold no tags. */
  lemma PruneContainer(m: map<string, Doc>, k: string, key: string)
    requires k in m && NonNesting(Map(m), key) && [Key(k)] in Locate(Map(m), key)
    ensures Prune(m[k], key) == Map(m[k].m - {key})
  {
    var c := m[k].m;
    forall j | j in c && j != key ensures Prune(c[j], key) == c[j] {
      forall r: Address ensures r !in Locate(c[j], key) {
        ChildTag(c, j, key, r);
        ChildTag(m, k, key, [Key(j)] + r);
        assert [Key(k)] + ([Key(j)] + r) == [Key(k)] + [Key(j)] + r;
        assert [Key(k)] <= [Key(k)] + [Key(j)] + r;
      }
    }
  }

  /** One entry of a map that is not itself a tag: merging the tree's entry
      into the pruned entry gives the rewritten entry. */
  lemma {:induction false} EquivEntry(m: map<string, Doc>, key: string, v: map<Address, Doc>, p: Address, k: string)
    requires k in m && key !in m
    requires TagsMapOnly(Map(m), key) && NonNesting(Map(m), key) && Matches(Map(m), key, v, p)
    ensures var P := Partial(Map(m), v, p);
      (if k in P then MergeValue(Prune(m[k], key), P[k]) else Prune(m[k], key)) == Rewrite(m[k], key, v, p + [Key(k)])
    decreases Map(m), 0
  {
    var q := p + [Key(k)];
    var P := Partial(Map(m), v, p);
    ChildMatches(m, k, key, v, p);
    ChildTag(m, k, key, []);
    assert [Key(k)] + [] == [Key(k)];
    if [Key(k)] in Locate(Map(m), key) {
      assert q == p + [Key(k)] && q in v;
      assert q <= q;
      assert Covers(v, q);
      PruneContainer(m, k, key);
    } else if Covers(v, q) {
      var a :| a in v && q <= a;
      FetchedChildTag(m, k, key, v, p, a);
      var r := a[|q|..];
      assert r != [];
      ChildInherits(m, k, key);
      Step(m[k], r);
      assert q[|p|..] == [Key(k)];
      assert q !in v;
      Equiv(m[k], key, v, q);
      MergeValueMaps(Prune(m[k], key).m, Partial(m[k], v, q));
    } else {
      forall r | r in Locate(m[k], key) ensures Covers(v, q) {
        assert q <= q + r;
      }
      assert Locate(m[k], key) == {};
      RewriteNoTags(m[k], key, v, q);
    }
  }

  /** Entrywise equality of a merge with a target map. */
  lemma Combine(N: map<string, Doc>, P: map<string, Doc>, R: map<string, Doc>)
    requires P.Keys <= N.Keys && R.Keys == N.Keys
    requires forall k :: k in N ==> R[k] == (if k in P then MergeValue(N[k], P[k]) else N[k])
    ensures MergeMaps(N, P) == R
  {
    var M := MergeMaps(N, P);
    assert M.Keys == R.Keys;
    forall k | k in M ensures M[k] == R[k] { }
  }

  /** For a map that is not itself a tag, the pruned-then-merged document is
      the reference rewrite. */
  lemma {:induction false} Equiv(d: Doc, key: string, v: map<Address, Doc>, p: Address)
    requires d.Map? && key !in d.m
    requires TagsMapOnly(d, key) && NonNesting(d, key) && Matches(d, key, v, p)
    ensures Map(MergeMaps(Prune(d, key).m, Partial(d, v, p))) == Rewrite(d, key, v, p)
    decreases d, 1
  {
    var m := d.m;
    var P := Partial(d, v, p);
    var N := Prune(d, key).m;
    var R := map k | k in m :: Rewrite(m[k], key, v, p + [Key(k)]);
    assert Rewrite(d, key, v, p) == Map(R);
    assert N.Keys == m.Keys;
    assert P.Keys <= m.Keys;
    forall k | k in N ensures R[k] == (if k in P then MergeValue(N[k], P[k]) else N[k]) {
      EquivEntry(m, key, v, p, k);
    }
    Combine(N, P, R);
  }

  /** Outside maps there are no map-only tags. */
  lemma NoTagsOutsideMaps(d: Doc, key: string)
    requires !d.Map? && TagsMapOnly(d, key)
    ensures Locate(d, key) == {}
  {
    forall a: Address ensures IsTagAt(d, a, key) ==> !MapOnly(a) {
      if a != [] && a[0].Key? {
        assert Get(d, a) == None;
      }
    }
  }

  /** The pass's result is the reference rewrite: pruning the key and merging
      the accumulated tree is the same as replacing each tag container, at its
      own address, by its other entries merged with its fetched value. */
  lemma ResolvedIsRewrite(doc: Doc, key: string, v: map<Address, Doc>)
    requires Resolvable(doc, key) && v.Keys == Locate(doc, key)
    ensures Resolved(doc, key, v) == Rewrite(doc, key, v, [])
  {
    TopMatches(doc, key, v);
    if doc.Map? {
      var N := Prune(doc, key);
      var P := Partial(doc, v, []);
      Equiv(doc, key, v, []);
      if P == map[] {
        MergeMapsEmpty(N.m);
        assert Resolved(doc, key, v) == N;
      } else {
        assert Resolved(doc, key, v) == Map(MergeMaps(N.m, P));
      }
    } else {
      NoTagsOutsideMaps(doc, key);
      RewriteNoTags(doc, key, v, []);
    }
  }

  /** The fetched values of a whole pass match the document's tags from the root. */
  lemma TopMatches(doc: Doc, key: string, v: map<Address, Doc>)
    requires v.Keys == Locate(doc, key)
    ensures Matches(doc, key, v, [])
  {
    TopCovered(doc, key, v);
    TopInside(doc, key, v);
  }

  lemma TopCovered(doc: Doc, key: string, v: map<Address, Doc>)
    requires v.Keys == Locate(doc, key)
    ensures forall r :: r in Locate(doc, key) ==> [] + r in v
  {
    forall r | r in Locate(doc, key) ensures [] + r in v {
      assert [] + r == r;
    }
  }

  lemma TopInside(doc: Doc, key: string, v: map<Address, Doc>)
    requires v.Keys == Locate(doc, key)
    ensures forall a :: a in v && [] <= a ==> a[0..] in Locate(doc, key)
  {
    forall a | a in v && [] <= a ensures a[0..] in Locate(doc, key) {
      assert a[0..] == a;
    }
  }

  /** The container of the tag at `a` without the provider key. */
  ghost function Remaining(d: Doc, key: string, a: Address): Doc
    requires a in Locate(d, key)
  {
    Map(Get(d, a).value.m - {key})
  }

  /** A tag's address holds its container's other entries merged with its fetched value. */
  lemma {:induction false} RewriteAtTag(d: Doc, key: string, v: map<Address, Doc>, p: Address, r: Address)
    requires TagsMapOnly(d, key) && NonNesting(d, key) && Matches(d, key, v, p)
    requires r in Locate(d, key)
    ensures p + r in v
    ensures Get(Rewrite(d, key, v, p), r) == Some(MergeValue(Remaining(d, key, r), v[p + r]))
    decreases r
  {
    if r == [] {
      assert p + r == p;
    } else {
      assert [] !in Locate(d, key) by {
        assert [] <= r;
      }
      Step(d, r);
      var k := r[0].k;
      var q := p + [Key(k)];
      assert r == [Key(k)] + r[1..];
      ChildTag(d.m, k, key, r[1..]);
      ChildInherits(d.m, k, key);
      ChildMatches(d.m, k, key, v, p);
      RewriteAtTag(d.m[k], key, v, q, r[1..]);
      assert q + r[1..] == p + r;
    }
  }

  /** An address comparable with no tag keeps its node. */
  lemma {:induction false} RewriteElsewhere(d: Doc, key: string, v: map<Address, Doc>, p: Address, c: Address)
    requires forall r :: r in Locate(d, key) ==> !(r <= c) && !(c <= r)
    ensures Get(Rewrite(d, key, v, p), c) == Get(d, c)
    decreases c
  {
    if c == [] {
      forall r: Address ensures r !in Locate(d, key) {
        assert c <= r;
      }
      RewriteNoTags(d, key, v, p);
    } else {
      assert [] !in Locate(d, key) by {
        assert [] <= c;
      }
      match d
      case Leaf(_) =>
      case Map(m) =>
        if c[0].Key? && c[0].k in m {
          var k := c[0].k;
          assert c == [Key(k)] + c[1..];
          forall r | r in Locate(m[k], key) ensures !(r <= c[1..]) && !(c[1..] <= r) {
            ChildTag(m, k, key, r);
            PrependPrefix(Key(k), r, c[1..]);
            PrependPrefix(Key(k), c[1..], r);
          }
          RewriteElsewhere(m[k], key, v, p + [Key(k)], c[1..]);
        }
      case List(xs) =>
        if c[0].Index? && c[0].i < |xs| {
          var i := c[0].i;
          assert c == [Index(i)] + c[1..];
          forall r | r in Locate(xs[i], key) ensures !(r <= c[1..]) && !(c[1..] <= r) {
            ItemTag(xs, i, key, r);
            PrependPrefix(Index(i), r, c[1..]);
            PrependPrefix(Index(i), c[1..], r);
          }
          RewriteElsewhere(xs[i], key, v, p + [Index(i)], c[1..]);
        }
    }
  }

  /** No map at any depth holds `key`. */
  ghost predicate KeyFree(d: Doc, key: string) {
    Locate(d, key) == {}
  }

  lemma KeyFreeChild(m: map<string, Doc>, k: string, key: string)
    requires k in m && KeyFree(Map(m), key)
    ensures KeyFree(m[k], key)
  {
    forall r: Address ensures r !in Locate(m[k], key) {
      ChildTag(m, k, key, r);
    }
  }

  lemma KeyFreeItem(xs: seq<Doc>, i: nat, key: string)
    requires i < |xs| && KeyFree(List(xs), key)
    ensures KeyFree(xs[i], key)
  {
    forall r: Address ensures r !in Locate(xs[i], key) {
      ItemTag(xs, i, key, r);
    }
  }

  /** A map without `key` whose entries are key-free is key-free. */
  lemma KeyFreeMap(m: map<string, Doc>, key: string)
    requires key !in m && forall k :: k in m ==> KeyFree(m[k], key)
    ensures KeyFree(Map(m), key)
  {
    forall a: Address ensures a !in Locate(Map(m), key) {
      if a != [] && a[0].Key? && a[0].k in m {
        assert a == [Key(a[0].k)] + a[1..];
        ChildTag(m, a[0].k, key, a[1..]);
      }
    }
  }

  /** A list of key-free items is key-free. */
  lemma KeyFreeList(xs: seq<Doc>, key: string)
    requires forall i :: 0 <= i < |xs| ==> KeyFree(xs[i], key)
    ensures KeyFree(List(xs), key)
  {
    forall a: Address ensures a !in Locate(List(xs), key) {
      if a != [] && a[0].Index? && a[0].i < |xs| {
        assert a == [Index(a[0].i)] + a[1..];
        ItemTag(xs, a[0].i, key, a[1..]);
      }
    }
  }

  /** The ADDITIVE merge of two key-free documents is key-free. */
  lemma {:induction false} MergeKeyFree(x: Doc, y: Doc, key: string)
    requires KeyFree(x, key) && KeyFree(y, key)
    ensures KeyFree(MergeValue(x, y), key)
    decreases y
  {
    if x.Map? && y.Map? {
      assert !IsTagAt(x, [], key) && !IsTagAt(y, [], key);
      var r := MergeValue(x, y).m;
      forall k | k in r ensures KeyFree(r[k], key) {
        if k in y.m { KeyFreeChild(y.m, k, key); }
        if k in x.m { KeyFreeChild(x.m, k, key); }
        if k in x.m && k in y.m { MergeKeyFree(x.m[k], y.m[k], key); }
      }
      KeyFreeMap(r, key);
    } else if x.List? && y.List? {
      var zs := x.items + y.items;
      forall i | 0 <= i < |zs| ensures KeyFree(zs[i], key) {
        if i < |x.items| { KeyFreeItem(x.items, i, key); }
        else { assert zs[i] == y.items[i - |x.items|]; KeyFreeItem(y.items, i - |x.items|, key); }
      }
      KeyFreeList(zs, key);
    }
  }

  /** Every fetched value is key-free. */
  ghost predicate KeyFreeValues(v: map<Address, Doc>, key: string) {
    forall a :: a in v ==> KeyFree(v[a], key)
  }

  /** When no fetched value holds the key, the key is gone from the rewritten
      document: fetched values are merged in after deletion and never scanned again. */
  lemma {:induction false} RewriteKeyFree(d: Doc, key: string, v: map<Address, Doc>, p: Address)
    requires TagsMapOnly(d, key) && NonNesting(d, key) && Matches(d, key, v, p)
    requires KeyFreeValues(v, key)
    ensures KeyFree(Rewrite(d, key, v, p), key)
  {
    match d
    case Leaf(_) =>
      NoTagsOutsideMaps(d, key);
    case List(_) =>
      NoTagsOutsideMaps(d, key);
      RewriteNoTags(d, key, v, p);
    case Map(m) =>
      if key in m {
        assert [] in Locate(d, key);
        assert p + [] == p;
        var rest := m - {key};
        forall j | j in rest ensures KeyFree(rest[j], key) {
          forall r: Address ensures r !in Locate(m[j], key) {
            ChildTag(m, j, key, r);
            assert [] <= [Key(j)] + r;
          }
        }
        KeyFreeMap(rest, key);
        MergeKeyFree(Map(rest), v[p], key);
      } else {
        var r := map k | k in m :: Rewrite(m[k], key, v, p + [Key(k)]);
        forall k | k in m ensures KeyFree(r[k], key) {
          ChildInherits(m, k, key);
          ChildMatches(m, k, key, v, p);
          RewriteKeyFree(m[k], key, v, p + [Key(k)]);
        }
        KeyFreeMap(r, key);
      }
  }

  /** With no tag in the document, a pass leaves it as it is. */
  lemma ResolvedNoTags(doc: Doc, key: string)
    requires Locate(doc, key) == {}
    ensures Resolved(doc, key, map[]) == doc
  {
    Uncovered(doc, map[], []);
  }

  /** Each tag's address holds the value fetched for it, deep-merged into the
      container's other entries. */
  lemma ResolvedAtTag(doc: Doc, key: string, v: map<Address, Doc>, a: Address)
    requires Resolvable(doc, key) && v.Keys == Locate(doc, key) && a in v
    ensures Get(Resolved(doc, key, v), a) == Some(MergeValue(Remaining(doc, key, a), v[a]))
  {
    ResolvedIsRewrite(doc, key, v);
    RewriteAtTagTop(doc, key, v, a);
  }

  /** A fetched value that is not a map replaces its container outright,
      dropping the container's other entries. */
  lemma ResolvedReplaces(doc: Doc, key: string, v: map<Address, Doc>, a: Address)
    requires Resolvable(doc, key) && v.Keys == Locate(doc, key) && a in v && !v[a].Map?
    ensures Get(Resolved(doc, key, v), a) == Some(v[a])
  {
    ResolvedAtTag(doc, key, v, a);
    MergeNonMap(Remaining(doc, key, a), v[a]);
  }

  lemma RewriteAtTagTop(doc: Doc, key: string, v: map<Address, Doc>, a: Address)
    requires Resolvable(doc, key) && v.Keys == Locate(doc, key) && a in v
    ensures Get(Rewrite(doc, key, v, []), a) == Some(MergeValue(Remaining(doc, key, a), v[a]))
  {
    var e: Address := [];
    assert e + a == a;
    TopMatches(doc, key, v);
    RewriteAtTag(doc, key, v, e, a);
  }

  /** A value that is not a map replaces a map outright. */
  lemma MergeNonMap(x: Doc, y: Doc)
    requires x.Map? && !y.Map?
    ensures MergeValue(x, y) == y
  {
  }

  /** Addresses neither above nor inside a tag container keep their nodes. */
  lemma ResolvedElsewhere(doc: Doc, key: string, v: map<Address, Doc>, c: Address)
    requires Resolvable(doc, key) && v.Keys == Locate(doc, key)
    requires forall a :: a in v ==> !(a <= c) && !(c <= a)
    ensures Get(Resolved(doc, key, v), c) == Get(doc, c)
  {
    ResolvedIsRewrite(doc, key, v);
    RewriteElsewhere(doc, key, v, [], c);
  }

  /** When no fetched value holds the key, no map of the result holds it. */
  lemma ResolvedKeyFree(doc: Doc, key: string, v: map<Address, Doc>)
    requires Resolvable(doc, key) && v.Keys == Locate(doc, key) && KeyFreeValues(v, key)
    ensures KeyFree(Resolved(doc, key, v), key)
  {
    ResolvedIsRewrite(doc, key, v);
    TopMatches(doc, key, v);
    RewriteKeyFree(doc, key, v, []);
  }
}
