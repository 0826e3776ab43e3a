/** The configuration document: a tree of maps, lists and scalars, addressed by
    sequences of map keys and list indices, together with the three generic
    operations the resolution engine is built from: locating every map that
    holds a provider key (the `$..key.parent` query), deleting that key at every
    depth (nested_delete) and the ADDITIVE deep merge (mergedeep). */
module Document {
  import opened Results

  newtype byte = x: int | 0 <= x < 256

  /** Leaves of a YAML document. */
  datatype Scalar = Null | Bool(b: bool) | Int(i: int) | Text(s: string) | Bytes(bs: seq<byte>)

  /** A configuration document. Python dicts become `Map`, lists `List`. */
  datatype Doc = Leaf(v: Scalar) | Map(m: map<string, Doc>) | List(items: seq<Doc>)

  /** One step of an address: a map key or a list index. */
  datatype Step = Key(k: string) | Index(i: nat)

  type Address = seq<Step>

  /** Python truthiness of a document value (`if config['binary']`). */
  predicate Truthy(d: Doc) {
    match d
    case Leaf(Null) => false
    case Leaf(Bool(b)) => b
    case Leaf(Int(i)) => i != 0
    case Leaf(Text(s)) => s != ""
    case Leaf(Bytes(bs)) => bs != []
    case Map(m) => m != map[]
    case List(xs) => xs != []
  }

  /** `key in d` for a configuration map. */
  predicate IsTag(d: Doc, key: string) {
    d.Map? && key in d.m
  }

  /** `d[key]`: a KeyError when the key is absent, a TypeError when `d` is not a map. */
  function Lookup(d: Doc, key: string): (r: Result<Doc>)
    ensures r.Ok? <==> IsTag(d, key)
    ensures r.Ok? ==> r.value == d.m[key]
    ensures d.Map? && key !in d.m ==> r == Err(KeyNotFound(key))
  {
    if !d.Map? then Err(TypeMismatch)
    else if key in d.m then Ok(d.m[key])
    else Err(KeyNotFound(key))
  }

  /** The `'flag' in d and d['flag']` toggle used for `binary` and `base64`. */
  predicate Flag(d: Doc, flag: string) {
    IsTag(d, flag) && Truthy(d.m[flag])
  }

  /** `d[key]` when the value must be a string (a name, a path, a key). */
  function LookupText(d: Doc, key: string): (r: Result<string>)
    ensures r.Ok? <==> IsTag(d, key) && d.m[key].Leaf? && d.m[key].v.Text?
    ensures r.Ok? ==> r.value == d.m[key].v.s
  {
    var v :- Lookup(d, key);
    if v.Leaf? && v.v.Text? then Ok(v.v.s) else Err(TypeMismatch)
  }

  /** The node at address `a`, if the address exists. */
  function Get(d: Doc, a: Address): Option<Doc>
    decreases a
  {
    if a == [] then Some(d)
    else match a[0]
      case Key(k) => if d.Map? && k in d.m then Get(d.m[k], a[1..]) else None
      case Index(i) => if d.List? && i < |d.items| then Get(d.items[i], a[1..]) else None
  }

  /** There is a map holding `key` at address `a`. */
  predicate IsTagAt(d: Doc, a: Address, key: string) {
    Get(d, a).Some? && IsTag(Get(d, a).value, key)
  }

  /** An address made of map keys only. */
  predicate MapOnly(a: Address) {
    forall i :: 0 <= i < |a| ==> a[i].Key?
  }

  /** The addresses of every map holding `key`, at any depth, including the
      root and maps inside lists: the containers `$..key.parent` finds. */
  function Locate(d: Doc, key: string): (r: set<Address>)
    ensures forall a :: a in r <==> IsTagAt(d, a, key)
  {
    match d
    case Leaf(_) =>
      assert forall a :: !IsTagAt(d, a, key) by {
        forall a: Address ensures !IsTagAt(d, a, key) {
          if a != [] { assert Get(d, a) == None; }
        }
      }
      {}
    case Map(m) =>
      var here: set<Address> := if key in m then {[]} else {};
      var below := set k, a | k in m && a in Locate(m[k], key) :: [Key(k)] + a;
      assert forall a :: a in here + below <==> IsTagAt(d, a, key) by {
        forall a: Address ensures a in here + below <==> IsTagAt(d, a, key) {
          if a != [] && a[0].Key? && a[0].k in m {
            assert a == [Key(a[0].k)] + a[1..];
            assert Get(d, a) == Get(m[a[0].k], a[1..]);
          }
        }
      }
      here + below
    case List(xs) =>
      var below := set i, a | 0 <= i < |xs| && a in Locate(xs[i], key) :: [Index(i)] + a;
      assert forall a :: a in below <==> IsTagAt(d, a, key) by {
        forall a: Address ensures a in below <==> IsTagAt(d, a, key) {
          if a != [] && a[0].Index? && a[0].i < |xs| {
            assert a == [Index(a[0].i)] + a[1..];
            assert Get(d, a) == Get(xs[a[0].i], a[1..]);
          }
        }
      }
      below
  }

  /** nested_delete: `key` removed from every map at every depth. */
  function Prune(d: Doc, key: string): (r: Doc)
    ensures Locate(r, key) == {}
    ensures Locate(d, key) == {} ==> r == d
    ensures d.Map? <==> r.Map?
    ensures d.Map? ==> r.m.Keys == d.m.Keys - {key}
  {
    match d
    case Leaf(_) => d
    case Map(m) =>
      var r := Map(map k | k in m && k != key :: Prune(m[k], key));
      assert Locate(d, key) == {} ==> r == d by {
        if Locate(d, key) == {} {
          forall k | k in m ensures Locate(m[k], key) == {} {
            forall a: Address ensures !IsTagAt(m[k], a, key) {
              assert [Key(k)] + a !in Locate(d, key);
              assert Get(d, [Key(k)] + a) == Get(m[k], a);
            }
          }
          assert !IsTagAt(d, [], key);
        }
      }
      r
    case List(xs) =>
      var r := List(seq(|xs|, i requires 0 <= i < |xs| => Prune(xs[i], key)));
      assert Locate(d, key) == {} ==> r == d by {
        if Locate(d, key) == {} {
          forall i | 0 <= i < |xs| ensures Locate(xs[i], key) == {} {
            forall a: Address ensures !IsTagAt(xs[i], a, key) {
              assert [Index(i)] + a !in Locate(d, key);
              assert Get(d, [Index(i)] + a) == Get(xs[i], a);
            }
          }
        }
      }
      r
  }

  /** mergedeep's ADDITIVE strategy for one entry: maps are merged key by key,
      lists are concatenated, anything else is replaced by the source value. */
  function MergeValue(dst: Doc, src: Doc): Doc
    decreases src
  {
    if dst.Map? && src.Map? then
      Map(map k | k in dst.m.Keys + src.m.Keys ::
            if k in src.m then (if k in dst.m then MergeValue(dst.m[k], src.m[k]) else src.m[k])
            else dst.m[k])
    else if dst.List? && src.List? then List(dst.items + src.items)
    else src
  }

  /** `merge(dst, src, strategy=ADDITIVE)` on two dicts. */
  function MergeMaps(dst: map<string, Doc>, src: map<string, Doc>): (r: map<string, Doc>)
    ensures r.Keys == dst.Keys + src.Keys
    ensures forall k :: k in src && k !in dst ==> r[k] == src[k]
    ensures forall k :: k in dst && k !in src ==> r[k] == dst[k]
    ensures forall k :: k in dst && k in src ==> r[k] == MergeValue(dst[k], src[k])
  {
    MergeValue(Map(dst), Map(src)).m
  }

  /** The final `merge(pruned, resolved)`: the destination must be a dict unless
      there is nothing to merge (mergedeep writes into the destination). */
  function MergeInto(dst: Doc, src: map<string, Doc>): (r: Doc)
    requires dst.Map? || src == map[]
    ensures src == map[] ==> r == dst
  {
    if src == map[] then dst else Map(MergeMaps(dst.m, src))
  }

  /** `unflatten({full_path: v})` for a path of map keys: nested dicts leading to `v`. */
  function Unflatten(a: Address, v: Doc): (r: map<string, Doc>)
    requires a != [] && MapOnly(a)
    ensures Get(Map(r), a) == Some(v)
    ensures r.Keys == {a[0].k}
    decreases a
  {
    if |a| == 1 then map[a[0].k := v]
    else
      var rest := Unflatten(a[1..], v);
      assert Get(Map(map[a[0].k := Map(rest)]), a) == Get(Map(rest), a[1..]);
      map[a[0].k := Map(rest)]
  }
}
