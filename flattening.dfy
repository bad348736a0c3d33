/** `CSVExporter.flatten_json` of the Compacter: a nested record becomes a
    single-level dict whose keys are the dot-joined paths of its leaves. */
module Flattening {
  import opened Wrappers
  import opened Dicts
  import opened Json
  import Text

  // ---------------------------------------------------------------------
  // The flattener as the source runs it: a recursive walk that writes each
  // leaf into the shared output dict `out` under `name[:-1]`.
  // ---------------------------------------------------------------------

  /** `flatten(x, name)`, returning the output dict after the walk. */
  function FlattenInto(x: Json, name: string, out: Dict<Json>): Dict<Json>
    decreases x, 1, 0
  {
    match x
    case Obj(_) => FlattenFields(x, 0, name, out)
    case Arr(_) => FlattenItems(x, 0, name, out)
    case _ => Put(out, Text.DropLast(name), x)
  }

  /** The dict branch, from the key at position `i` on: `flatten(x[a], name + a + '.')`. */
  function FlattenFields(parent: Json, i: nat, name: string, out: Dict<Json>): Dict<Json>
    requires parent.Obj? && i <= |parent.fields|
    decreases parent, 0, |parent.fields| - i
  {
    if i == |parent.fields| then out
    else
      var field := parent.fields[i];
      FlattenFields(parent, i + 1, name, FlattenInto(field.1, name + field.0 + ".", out))
  }

  /** The list branch, from element `i` on: `flatten(a, name + str(i) + '.')`. */
  function FlattenItems(parent: Json, i: nat, name: string, out: Dict<Json>): Dict<Json>
    requires parent.Arr? && i <= |parent.items|
    decreases parent, 0, |parent.items| - i
  {
    if i == |parent.items| then out
    else FlattenItems(parent, i + 1, name, FlattenInto(parent.items[i], name + Text.NatStr(i) + ".", out))
  }

  /** `flatten_json(nested_json)`. */
  function Flatten(x: Json): Dict<Json> {
    FlattenInto(x, "", [])
  }

  // ---------------------------------------------------------------------
  // An independent description: the leaves of a record, each with its path
  // of key and index segments, in the order a depth-first walk meets them.
  // ---------------------------------------------------------------------

  datatype Leaf = Leaf(path: seq<string>, value: Json)

  function Leaves(x: Json): seq<Leaf>
    decreases x, 1, 0
  {
    match x
    case Obj(_) => LeavesOfFields(x, 0)
    case Arr(_) => LeavesOfItems(x, 0)
    case _ => [Leaf([], x)]
  }

  function LeavesOfFields(parent: Json, i: nat): seq<Leaf>
    requires parent.Obj? && i <= |parent.fields|
    decreases parent, 0, |parent.fields| - i
  {
    if i == |parent.fields| then []
    else Under(parent.fields[i].0, Leaves(parent.fields[i].1)) + LeavesOfFields(parent, i + 1)
  }

  function LeavesOfItems(parent: Json, i: nat): seq<Leaf>
    requires parent.Arr? && i <= |parent.items|
    decreases parent, 0, |parent.items| - i
  {
    if i == |parent.items| then []
    else Under(Text.NatStr(i), Leaves(parent.items[i])) + LeavesOfItems(parent, i + 1)
  }

  /** The same leaves, one level further down, under segment `seg`. */
  function Under(seg: string, ls: seq<Leaf>): (r: seq<Leaf>)
    ensures |r| == |ls|
    ensures forall j :: 0 <= j < |ls| ==> r[j] == Leaf([seg] + ls[j].path, ls[j].value)
  {
    seq(|ls|, j requires 0 <= j < |ls| => Leaf([seg] + ls[j].path, ls[j].value))
  }

  /** The segments of a path joined by '.'. */
  function Join(path: seq<string>): string {
    if path == [] then ""
    else if |path| == 1 then path[0]
    else path[0] + "." + Join(path[1..])
  }

  /** Every segment followed by '.', as the walk accumulates `name`. */
  function Dotted(path: seq<string>): string {
    if path == [] then "" else path[0] + "." + Dotted(path[1..])
  }

  /** The output pairs the leaves produce when the walk starts at `name`. */
  function Keyed(name: string, ls: seq<Leaf>): (r: seq<(string, Json)>)
    ensures |r| == |ls|
    ensures forall j :: 0 <= j < |ls| ==> r[j] == (Text.DropLast(name + Dotted(ls[j].path)), ls[j].value)
  {
    seq(|ls|, j requires 0 <= j < |ls| => (Text.DropLast(name + Dotted(ls[j].path)), ls[j].value))
  }

  /** The (key, value) pairs of the leaves, keys being the joined paths. */
  function LeafPairs(x: Json): seq<(string, Json)> {
    Keyed("", Leaves(x))
  }

  // ---------------------------------------------------------------------
  // The walk is the reference description.
  // ---------------------------------------------------------------------

  /** Dropping the trailing '.' of the accumulated name gives the joined path. */
  lemma {:induction false} DottedJoin(path: seq<string>)
    ensures Text.DropLast(Dotted(path)) == Join(path)
  {
    if |path| == 1 {
      assert Dotted(path) == path[0] + "." + "";
    } else if |path| > 1 {
      DottedJoin(path[1..]);
      var d := Dotted(path[1..]);
      assert d != [];
      assert Dotted(path) == (path[0] + ".") + d;
      assert Text.DropLast(Dotted(path)) == (path[0] + ".") + Text.DropLast(d);
    }
  }

  lemma KeyedAppend(name: string, a: seq<Leaf>, b: seq<Leaf>)
    ensures Keyed(name, a + b) == Keyed(name, a) + Keyed(name, b)
  {
  }

  lemma DottedCons(seg: string, p: seq<string>)
    ensures Dotted([seg] + p) == seg + "." + Dotted(p)
  {
    assert ([seg] + p)[1..] == p;
  }

  lemma KeyedUnder(name: string, seg: string, ls: seq<Leaf>)
    ensures Keyed(name, Under(seg, ls)) == Keyed(name + seg + ".", ls)
  {
    var a := Keyed(name, Under(seg, ls));
    var b := Keyed(name + seg + ".", ls);
    forall j | 0 <= j < |ls|
      ensures a[j] == b[j]
    {
      var p := ls[j].path;
      DottedCons(seg, p);
      assert a[j] == (Text.DropLast(name + Dotted([seg] + p)), ls[j].value);
      assert name + (seg + "." + Dotted(p)) == (name + seg + ".") + Dotted(p);
    }
    assert |a| == |b|;
  }

  /** Each step of the walk assigns the pairs of the leaves below it, in order. */
  lemma {:induction false} FlattenIntoLeaves(x: Json, name: string, out: Dict<Json>)
    ensures FlattenInto(x, name, out) == PutAll(out, Keyed(name, Leaves(x)))
    decreases x, 1, 0
  {
    match x
    case Obj(_) => FlattenFieldsLeaves(x, 0, name, out);
    case Arr(_) => FlattenItemsLeaves(x, 0, name, out);
    case _ =>
      assert Dotted([]) == "";
      assert name + "" == name;
      assert Keyed(name, Leaves(x)) == [(Text.DropLast(name), x)];
  }

  /** One child's leaves, assigned under its segment, then its siblings'. */
  lemma CombineStep(out: Dict<Json>, name: string, seg: string, below: seq<Leaf>, rest: seq<Leaf>)
    ensures PutAll(PutAll(out, Keyed(name + seg + ".", below)), Keyed(name, rest))
         == PutAll(out, Keyed(name, Under(seg, below) + rest))
  {
    KeyedAppend(name, Under(seg, below), rest);
    KeyedUnder(name, seg, below);
    PutAllAppend(out, Keyed(name, Under(seg, below)), Keyed(name, rest));
  }

  lemma {:induction false} FlattenFieldsLeaves(parent: Json, i: nat, name: string, out: Dict<Json>)
    requires parent.Obj? && i <= |parent.fields|
    ensures FlattenFields(parent, i, name, out) == PutAll(out, Keyed(name, LeavesOfFields(parent, i)))
    decreases parent, 0, |parent.fields| - i
  {
    if i < |parent.fields| {
      var field := parent.fields[i];
      var out1 := FlattenInto(field.1, name + field.0 + ".", out);
      FlattenIntoLeaves(field.1, name + field.0 + ".", out);
      FlattenFieldsLeaves(parent, i + 1, name, out1);
      CombineStep(out, name, field.0, Leaves(field.1), LeavesOfFields(parent, i + 1));
    } else {
      assert Keyed(name, []) == [];
    }
  }

  lemma {:induction false} FlattenItemsLeaves(parent: Json, i: nat, name: string, out: Dict<Json>)
    requires parent.Arr? && i <= |parent.items|
    ensures FlattenItems(parent, i, name, out) == PutAll(out, Keyed(name, LeavesOfItems(parent, i)))
    decreases parent, 0, |parent.items| - i
  {
    if i < |parent.items| {
      var v := parent.items[i];
      var seg := Text.NatStr(i);
      var out1 := FlattenInto(v, name + seg + ".", out);
      FlattenIntoLeaves(v, name + seg + ".", out);
      FlattenItemsLeaves(parent, i + 1, name, out1);
      CombineStep(out, name, seg, Leaves(v), LeavesOfItems(parent, i + 1));
    } else {
      assert Keyed(name, []) == [];
    }
  }

  /** `flatten_json` assigns the leaves' joined paths in visiting order. */
  lemma FlattenIsLeafAssignment(x: Json)
    ensures Flatten(x) == PutAll([], LeafPairs(x))
    ensures forall j :: 0 <= j < |Leaves(x)| ==> LeafPairs(x)[j] == (Join(Leaves(x)[j].path), Leaves(x)[j].value)
  {
    FlattenIntoLeaves(x, "", []);
    forall j | 0 <= j < |Leaves(x)|
      ensures LeafPairs(x)[j] == (Join(Leaves(x)[j].path), Leaves(x)[j].value)
    {
      assert "" + Dotted(Leaves(x)[j].path) == Dotted(Leaves(x)[j].path);
      DottedJoin(Leaves(x)[j].path);
    }
  }

  // ---------------------------------------------------------------------
  // Properties of the flattened record.
  // ---------------------------------------------------------------------

  /** Every output key is the joined path of some leaf, and every leaf's path is a key. */
  lemma FlattenKeys(x: Json, k: string)
    ensures k in Keys(Flatten(x)) <==> exists j :: 0 <= j < |Leaves(x)| && Join(Leaves(x)[j].path) == k
  {
    FlattenIsLeafAssignment(x);
    PutAllKeys([], LeafPairs(x), k);
    assert Keys<Json>([]) == [];
    if k in Keys(Flatten(x)) {
      KeyHasLeaf(x, k);
    }
    if exists j :: 0 <= j < |Leaves(x)| && Join(Leaves(x)[j].path) == k {
      var j :| 0 <= j < |Leaves(x)| && Join(Leaves(x)[j].path) == k;
      LeafHasKey(x, j);
    }
  }

  /** A key among the leaf pairs is the joined path of some leaf. */
  lemma KeyHasLeaf(x: Json, k: string)
    requires k in Keys(LeafPairs(x))
    ensures exists j :: 0 <= j < |Leaves(x)| && Join(Leaves(x)[j].path) == k
  {
    FlattenIsLeafAssignment(x);
    var pairs := LeafPairs(x);
    var j :| 0 <= j < |Keys(pairs)| && Keys(pairs)[j] == k;
    assert |pairs| == |Leaves(x)|;
    assert Keys(pairs)[j] == pairs[j].0;
    assert Join(Leaves(x)[j].path) == k;
  }

  /** The joined path of every leaf is among the leaf pairs' keys. */
  lemma LeafHasKey(x: Json, j: int)
    requires 0 <= j < |Leaves(x)|
    ensures Join(Leaves(x)[j].path) in Keys(LeafPairs(x))
  {
    FlattenIsLeafAssignment(x);
    var pairs := LeafPairs(x);
    assert |pairs| == |Leaves(x)|;
    assert Keys(pairs)[j] == pairs[j].0 == Join(Leaves(x)[j].path);
  }

  /** No more keys than leaves, no key twice; on a path collision the leaf
      visited later wins. */
  lemma FlattenSizeAndCollisions(x: Json, k: string)
    ensures |Flatten(x)| <= |Leaves(x)|
    ensures DistinctKeys(Flatten(x))
    ensures k in Keys(LeafPairs(x)) ==> Get(Flatten(x), k) == Some(LastValue(LeafPairs(x), k))
  {
    FlattenIsLeafAssignment(x);
    PutAllSize([], LeafPairs(x));
    PutAllGet([], LeafPairs(x), k);
  }

  predicate AllScalar(d: Dict<Json>) {
    forall i :: 0 <= i < |d| ==> IsScalar(d[i].1)
  }

  lemma {:induction false} PutScalar(d: Dict<Json>, k: string, v: Json)
    requires AllScalar(d) && IsScalar(v)
    ensures AllScalar(Put(d, k, v))
  {
    if d != [] && d[0].0 != k {
      PutScalar(d[1..], k, v);
      assert Put(d, k, v) == [d[0]] + Put(d[1..], k, v);
    }
  }

  lemma {:induction false} PutAllScalar(d: Dict<Json>, kvs: seq<(string, Json)>)
    requires AllScalar(d) && AllScalar(kvs)
    ensures AllScalar(PutAll(d, kvs))
    decreases |kvs|
  {
    if kvs != [] {
      PutScalar(d, kvs[0].0, kvs[0].1);
      PutAllScalar(Put(d, kvs[0].0, kvs[0].1), kvs[1..]);
    }
  }

  lemma {:induction false} LeavesScalar(x: Json)
    ensures forall j :: 0 <= j < |Leaves(x)| ==> IsScalar(Leaves(x)[j].value)
    decreases x, 1, 0
  {
    match x
    case Obj(_) => LeavesOfFieldsScalar(x, 0);
    case Arr(_) => LeavesOfItemsScalar(x, 0);
    case _ =>
  }

  lemma {:induction false} LeavesOfFieldsScalar(parent: Json, i: nat)
    requires parent.Obj? && i <= |parent.fields|
    ensures forall j :: 0 <= j < |LeavesOfFields(parent, i)| ==> IsScalar(LeavesOfFields(parent, i)[j].value)
    decreases parent, 0, |parent.fields| - i
  {
    if i < |parent.fields| {
      LeavesScalar(parent.fields[i].1);
      LeavesOfFieldsScalar(parent, i + 1);
    }
  }

  lemma {:induction false} LeavesOfItemsScalar(parent: Json, i: nat)
    requires parent.Arr? && i <= |parent.items|
    ensures forall j :: 0 <= j < |LeavesOfItems(parent, i)| ==> IsScalar(LeavesOfItems(parent, i)[j].value)
    decreases parent, 0, |parent.items| - i
  {
    if i < |parent.items| {
      LeavesScalar(parent.items[i]);
      LeavesOfItemsScalar(parent, i + 1);
    }
  }

  /** The output is one level deep: distinct keys, no dict or list values. */
  lemma FlattenIsFlat(x: Json)
    ensures DistinctKeys(Flatten(x)) && AllScalar(Flatten(x))
  {
    FlattenIsLeafAssignment(x);
    FlattenSizeAndCollisions(x, "");
    LeavesScalar(x);
    PutAllScalar([], LeafPairs(x));
  }

  /** A dict whose values are all scalars flattens to itself. */
  lemma FlatRecordUnchanged(fs: Dict<Json>)
    requires DistinctKeys(fs) && AllScalar(fs)
    ensures Flatten(Obj(fs)) == fs
  {
    assert fs[0..] == fs;
    FlatFieldsAppend(Obj(fs), 0, []);
  }

  lemma {:induction false} FlatFieldsAppend(parent: Json, i: nat, out: Dict<Json>)
    requires parent.Obj? && i <= |parent.fields| && AllScalar(parent.fields)
    requires DistinctKeys(out + parent.fields[i..])
    ensures FlattenFields(parent, i, "", out) == out + parent.fields[i..]
    decreases |parent.fields| - i
  {
    var fs := parent.fields;
    if i == |fs| {
      assert out + fs[i..] == out;
    } else {
      var (a, v) := fs[i];
      assert Text.DropLast("" + a + ".") == a;
      assert a !in Keys(out) by {
        forall j | 0 <= j < |out| ensures Keys(out)[j] != a {
          assert (out + fs[i..])[j] == out[j] && (out + fs[i..])[|out|] == fs[i];
        }
      }
      assert FlattenInto(v, "" + a + ".", out) == out + [(a, v)];
      assert (out + [(a, v)]) + fs[i + 1..] == out + fs[i..];
      FlatFieldsAppend(parent, i + 1, out + [(a, v)]);
    }
  }

  /** Flattening twice is flattening once. */
  lemma FlattenIdempotent(x: Json)
    ensures Flatten(Obj(Flatten(x))) == Flatten(x)
  {
    FlattenIsFlat(x);
    FlatRecordUnchanged(Flatten(x));
  }

  /** Empty dicts and lists, and more generally containers without leaves,
      add nothing to the output. */
  lemma NoLeavesNoKeys(x: Json, name: string, out: Dict<Json>)
    requires Leaves(x) == []
    ensures FlattenInto(x, name, out) == out
  {
    FlattenIntoLeaves(x, name, out);
  }

  lemma EmptyContainersHaveNoLeaves()
    ensures Leaves(Obj([])) == [] && Leaves(Arr([])) == []
  {
  }

  /** The elements of a list of scalars are stored under "0", "1", ... in order. */
  function Indexed(xs: seq<Json>): (r: Dict<Json>)
    ensures |r| == |xs|
    ensures forall i :: 0 <= i < |xs| ==> r[i] == (Text.NatStr(i), xs[i])
  {
    seq(|xs|, i requires 0 <= i < |xs| => (Text.NatStr(i), xs[i]))
  }

  lemma ScalarListPositions(xs: seq<Json>)
    requires forall i :: 0 <= i < |xs| ==> IsScalar(xs[i])
    ensures Flatten(Arr(xs)) == Indexed(xs)
  {
    assert Indexed(xs)[..0] == [];
    FlatItemsAppend(Arr(xs), 0);
    assert Indexed(xs)[..|xs|] == Indexed(xs);
  }

  lemma {:induction false} FlatItemsAppend(parent: Json, i: nat)
    requires parent.Arr? && i <= |parent.items|
    requires forall j :: 0 <= j < |parent.items| ==> IsScalar(parent.items[j])
    ensures FlattenItems(parent, i, "", Indexed(parent.items)[..i]) == Indexed(parent.items)
    decreases |parent.items| - i
  {
    var xs := parent.items;
    var ix := Indexed(xs);
    if i == |xs| {
      assert ix[..i] == ix;
    } else {
      var key := Text.NatStr(i);
      assert Text.DropLast("" + key + ".") == key;
      assert key !in Keys(ix[..i]) by {
        forall j | 0 <= j < i ensures Keys(ix[..i])[j] != key {
          if Text.NatStr(j) == key { Text.NatStrInjective(j, i); }
        }
      }
      assert FlattenInto(xs[i], "" + key + ".", ix[..i]) == ix[..i] + [(key, xs[i])];
      assert ix[..i] + [(key, xs[i])] == ix[..i + 1];
      FlatItemsAppend(parent, i + 1);
    }
  }
}
