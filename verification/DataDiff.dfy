/** The field diff of two versions of the case data, and when it can be trusted. */
module DataDiff {
  import opened Common
  import opened MergeData

  // ---- Dotted paths ---------------------------------------------------------------------------------------

  predicate CleanKey(k: string) {
    k != "" && '.' !in k
  }

  predicate CleanPath(path: Path) {
    forall k :: k in path ==> CleanKey(k)
  }

  predicate Clean(v: Value) {
    v.Obj? ==> forall k :: k in v.fields ==> CleanKey(k) && Clean(v.fields[k])
  }

  /** A path written with dots. */
  function Dotted(path: Path): string {
    if path == [] then ""
    else if |path| == 1 then path[0]
    else path[0] + "." + Dotted(path[1..])
  }

  lemma {:induction false} DottedStart(path: Path)
    requires CleanPath(path) && path != []
    ensures Dotted(path) != "" && IndexOf(Dotted(path), '.') == |path[0]|
    ensures |path[0]| <= |Dotted(path)| && Dotted(path)[..|path[0]|] == path[0]
    ensures |path| == 1 <==> |Dotted(path)| == |path[0]|
    ensures |path| > 1 ==> Dotted(path)[|path[0]| + 1..] == Dotted(path[1..])
  {
    assert path[0] in path;
    if |path| > 1 {
      assert Dotted(path) == path[0] + ("." + Dotted(path[1..]));
      IndexOfAfter(path[0], "." + Dotted(path[1..]), '.');
    } else {
      assert forall k :: 0 <= k < |path[0]| ==> path[0][k] in path[0];
    }
  }

  /** With nonempty dot-free keys, a dotted path names one path. */
  lemma {:induction false} DottedIsInjective(a: Path, b: Path)
    requires CleanPath(a) && CleanPath(b) && Dotted(a) == Dotted(b)
    ensures a == b
  {
    if a != [] {
      DottedStart(a);
    }
    if b != [] {
      DottedStart(b);
    }
    if a != [] && b != [] && |a| > 1 {
      DottedIsInjective(a[1..], b[1..]);
      assert a == [a[0]] + a[1..] && b == [b[0]] + b[1..];
    }
  }

  // ---- Names of leaves ------------------------------------------------------------------------------------

  /** The prefix below which the value of a key is flattened. */
  function Deeper(prefix: string, k: string): string {
    if prefix != "" then prefix + "." + k else k
  }

  /** The name `flattenMap` gives to a path below a prefix; an empty prefix leaves no dot behind. */
  function Name(prefix: string, path: Path): string
    decreases |path|
  {
    if path == [] then prefix else Name(Deeper(prefix, path[0]), path[1..])
  }

  /** Some leaf called `s` has the value `x`. */
  ghost predicate Holds(prefix: string, v: Value, s: string, x: Value) {
    exists p :: Leaf(v, p) == Some(x) && Name(prefix, p) == s
  }

  ghost predicate Named(prefix: string, v: Value, s: string) {
    exists p :: Leaf(v, p).Some? && Name(prefix, p) == s
  }

  /**
   * `out` extended by the leaves of `v`: every name of a leaf is there, with the value of one of the leaves of that
   * name, and nothing else has changed.
   */
  ghost predicate Flat(prefix: string, v: Value, out: map<string, Value>, r: map<string, Value>) {
    && (forall s :: Named(prefix, v, s) ==> s in r && Holds(prefix, v, s, r[s]))
    && (forall s :: !Named(prefix, v, s) ==> FoundIn(r, s) == FoundIn(out, s))
  }

  function FoundIn(m: map<string, Value>, s: string): Option<Value> {
    if s in m then Some(m[s]) else None
  }

  function Restrict(m: Fields, keys: set<string>): Fields {
    map k | k in m && k in keys :: m[k]
  }

  // ---- Flattening in some order ---------------------------------------------------------------------------

  /** The order in which Go's runtime happens to visit a value: the keys of each object, one after the other. */
  datatype Order = Here | Visits(entries: seq<Entry>)

  datatype Entry = Entry(key: string, below: Order)

  ghost function KeysOf(entries: seq<Entry>): set<string> {
    set i | 0 <= i < |entries| :: entries[i].key
  }

  /** These visits name different keys of the object, and each goes on below its key. */
  ghost predicate FitsPart(entries: seq<Entry>, fields: Fields)
    decreases entries
  {
    && (forall i, j :: 0 <= i < j < |entries| ==> entries[i].key != entries[j].key)
    && (forall i :: 0 <= i < |entries| ==>
          entries[i].key in fields && Fits(entries[i].below, fields[entries[i].key]))
  }

  /** The order visits every key of every object of the value exactly once. */
  ghost predicate Fits(order: Order, v: Value)
    decreases order
  {
    match order
    case Here => !v.Obj?
    case Visits(entries) => v.Obj? && FitsPart(entries, v.fields) && KeysOf(entries) == v.fields.Keys
  }

  /** What flattening in this order writes: a later leaf overwrites an earlier one of the same name. */
  function Flattened(order: Order, prefix: string, v: Value, out: map<string, Value>): map<string, Value>
    decreases order
  {
    match order
    case Here => out[prefix := v]
    case Visits(entries) => FlattenedEntries(entries, prefix, FieldsOf(v), out)
  }

  function FlattenedEntries(
    entries: seq<Entry>, prefix: string, fields: Fields, out: map<string, Value>): map<string, Value>
    decreases entries
  {
    if entries == [] then out
    else
      var n := |entries| - 1;
      var k := entries[n].key;
      Flattened(
        entries[n].below, Deeper(prefix, k), Get(fields, k), FlattenedEntries(entries[..n], prefix, fields, out))
  }

  /** `flattenMap`: whatever the keys are called, and in whichever order they are visited. */
  method FlattenMap(prefix: string, value: Value, out: map<string, Value>, order: Order) returns (r: map<string, Value>)
    requires Fits(order, value)
    ensures r == Flattened(order, prefix, value, out)
    ensures Flat(prefix, value, out, r)
    decreases order, 1
  {
    FlattenedIsFlat(order, prefix, value, out);
    if value.Obj? {
      r := FlattenFields(prefix, value.fields, out, order.entries);
    } else {
      r := out[prefix := value];
    }
  }

  /** The loop over an object's keys. */
  method FlattenFields(prefix: string, fields: Fields, out: map<string, Value>, entries: seq<Entry>)
    returns (r: map<string, Value>)
    requires FitsPart(entries, fields)
    ensures r == FlattenedEntries(entries, prefix, fields, out)
    decreases entries, 0
  {
    r := out;
    for i := 0 to |entries|
      invariant r == FlattenedEntries(entries[..i], prefix, fields, out)
    {
      assert entries[..i + 1][..i] == entries[..i];
      var k := entries[i].key;
      var next := if prefix != "" then prefix + "." + k else k;
      r := FlattenMap(next, fields[k], r, entries[i].below);
    }
    assert entries[..|entries|] == entries;
  }

  lemma {:induction false} FlattenedIsFlat(order: Order, prefix: string, v: Value, out: map<string, Value>)
    requires Fits(order, v)
    ensures Flat(prefix, v, out, Flattened(order, prefix, v, out))
    decreases order
  {
    match order
    case Here => LeafIsFlat(prefix, v, out);
    case Visits(entries) =>
      FlattenedEntriesAreFlat(entries, prefix, v.fields, out);
      assert Restrict(v.fields, KeysOf(entries)) == v.fields;
  }

  lemma {:induction false} FlattenedEntriesAreFlat(
    entries: seq<Entry>, prefix: string, fields: Fields, out: map<string, Value>)
    requires FitsPart(entries, fields)
    ensures Flat(prefix, Obj(Restrict(fields, KeysOf(entries))), out, FlattenedEntries(entries, prefix, fields, out))
    decreases entries
  {
    if entries == [] {
      NothingIsFlat(prefix, fields, out);
      assert KeysOf(entries) == {};
    } else {
      var n := |entries| - 1;
      var k, before := entries[n].key, FlattenedEntries(entries[..n], prefix, fields, out);
      FitsButLast(entries, fields);
      FlattenedEntriesAreFlat(entries[..n], prefix, fields, out);
      FlattenedIsFlat(entries[n].below, Deeper(prefix, k), fields[k], before);
      FlatGrows(prefix, fields, KeysOf(entries[..n]), k, out, before, FlattenedEntries(entries, prefix, fields, out));
    }
  }

  lemma {:induction false} FitsButLast(entries: seq<Entry>, fields: Fields)
    requires entries != [] && FitsPart(entries, fields)
    ensures var n := |entries| - 1;
            && FitsPart(entries[..n], fields) && entries[n].key in fields
            && Fits(entries[n].below, fields[entries[n].key])
            && KeysOf(entries) == KeysOf(entries[..n]) + {entries[n].key} && entries[n].key !in KeysOf(entries[..n])
  {
    var before := entries[..|entries| - 1];
    assert forall i :: 0 <= i < |before| ==> before[i] == entries[i];
    LastKey(entries);
  }

  lemma {:induction false} LastKey(entries: seq<Entry>)
    requires entries != [] && forall i, j :: 0 <= i < j < |entries| ==> entries[i].key != entries[j].key
    ensures var n := |entries| - 1;
            KeysOf(entries) == KeysOf(entries[..n]) + {entries[n].key} && entries[n].key !in KeysOf(entries[..n])
  {
    var n := |entries| - 1;
    forall k | k in KeysOf(entries)
      ensures k in KeysOf(entries[..n]) + {entries[n].key}
    {
      var i :| 0 <= i < |entries| && entries[i].key == k;
      assert i < n ==> entries[..n][i].key == k;
    }
    forall k | k in KeysOf(entries[..n])
      ensures k in KeysOf(entries) && k != entries[n].key
    {
      var i :| 0 <= i < n && entries[..n][i].key == k;
      assert entries[i].key == k;
    }
    assert entries[n].key in KeysOf(entries);
  }

  lemma NothingIsFlat(prefix: string, fields: Fields, out: map<string, Value>)
    ensures Flat(prefix, Obj(Restrict(fields, {})), out, out)
  {
    var v := Obj(Restrict(fields, {}));
    assert forall p :: Leaf(v, p) == None;
  }

  lemma LeafIsFlat(prefix: string, v: Value, out: map<string, Value>)
    requires !v.Obj?
    ensures Flat(prefix, v, out, out[prefix := v])
  {
    assert Leaf(v, []) == Some(v) && Name(prefix, []) == prefix;
    assert forall p :: Leaf(v, p).Some? ==> p == [];
    assert Holds(prefix, v, prefix, v);
  }

  /** One more key flattened. */
  lemma {:induction false} FlatGrows(
    prefix: string, fields: Fields, done: set<string>, k: string,
    out: map<string, Value>, before: map<string, Value>, r: map<string, Value>)
    requires k in fields && k !in done
    requires Flat(prefix, Obj(Restrict(fields, done)), out, before)
    requires Flat(Deeper(prefix, k), fields[k], before, r)
    ensures Flat(prefix, Obj(Restrict(fields, done + {k})), out, r)
  {
    var v, w := Obj(Restrict(fields, done)), Obj(Restrict(fields, done + {k}));
    forall s
      ensures Named(prefix, w, s) <==> Named(prefix, v, s) || Named(Deeper(prefix, k), fields[k], s)
    {
      NamesGrow(prefix, fields, done, k, s);
    }
    forall s, x
      ensures Holds(prefix, v, s, x) || Holds(Deeper(prefix, k), fields[k], s, x) ==> Holds(prefix, w, s, x)
    {
      ValuesGrow(prefix, fields, done, k, s, x);
    }
    assert forall s :: s in before && s in r && r[s] == before[s] ==> FoundIn(r, s) == FoundIn(before, s);
  }

  lemma {:induction false} ValuesGrow(prefix: string, fields: Fields, done: set<string>, k: string, s: string, x: Value)
    requires k in fields && k !in done
    ensures Holds(prefix, Obj(Restrict(fields, done)), s, x) || Holds(Deeper(prefix, k), fields[k], s, x) ==>
              Holds(prefix, Obj(Restrict(fields, done + {k})), s, x)
  {
    var v, w := Obj(Restrict(fields, done)), Obj(Restrict(fields, done + {k}));
    if Holds(prefix, v, s, x) {
      var p :| Leaf(v, p) == Some(x) && Name(prefix, p) == s;
      assert Leaf(w, p) == Leaf(v, p);
    }
    if Holds(Deeper(prefix, k), fields[k], s, x) {
      var p :| Leaf(fields[k], p) == Some(x) && Name(Deeper(prefix, k), p) == s;
      assert ([k] + p)[1..] == p;
      assert Leaf(w, [k] + p) == Leaf(fields[k], p) && Name(prefix, [k] + p) == s;
    }
  }

  lemma {:induction false} NamesGrow(prefix: string, fields: Fields, done: set<string>, k: string, s: string)
    requires k in fields && k !in done
    ensures Named(prefix, Obj(Restrict(fields, done + {k})), s) <==>
            Named(prefix, Obj(Restrict(fields, done)), s) || Named(Deeper(prefix, k), fields[k], s)
  {
    var v, w := Obj(Restrict(fields, done)), Obj(Restrict(fields, done + {k}));
    if Named(prefix, w, s) {
      var p :| Leaf(w, p).Some? && Name(prefix, p) == s;
      if p[0] == k {
        assert Leaf(fields[k], p[1..]) == Leaf(w, p) && Name(Deeper(prefix, k), p[1..]) == s;
      } else {
        assert Leaf(v, p) == Leaf(w, p);
      }
    }
    if Named(prefix, v, s) {
      var p :| Leaf(v, p).Some? && Name(prefix, p) == s;
      ValuesGrow(prefix, fields, done, k, s, Leaf(v, p).value);
    }
    if Named(Deeper(prefix, k), fields[k], s) {
      var p :| Leaf(fields[k], p).Some? && Name(Deeper(prefix, k), p) == s;
      ValuesGrow(prefix, fields, done, k, s, Leaf(fields[k], p).value);
    }
  }

  // ---- Orders that favour a leaf --------------------------------------------------------------------------

  /** Some order of a value; every value has one. */
  ghost function AnyOrder(v: Value): Order
    decreases v, 1
  {
    if v.Obj? then Visits(AnyEntries(v, v.fields.Keys)) else Here
  }

  /** Visits to these keys of an object, in some order. */
  ghost function AnyEntries(v: Value, keys: set<string>): seq<Entry>
    requires v.Obj? && keys <= v.fields.Keys
    decreases v, 0, |keys|
  {
    if keys == {} then []
    else
      var k :| k in keys;
      AnyEntries(v, keys - {k}) + [Entry(k, AnyOrder(v.fields[k]))]
  }

  /** An order in which the leaf at the path comes last wherever there is a choice. */
  ghost function Favouring(v: Value, path: Path): Order
    requires Leaf(v, path).Some?
    decreases |path|
  {
    if path == [] then Here
    else
      var k := path[0];
      Visits(AnyEntries(v, v.fields.Keys - {k}) + [Entry(k, Favouring(v.fields[k], path[1..]))])
  }

  lemma {:induction false} OneMoreEntry(entries: seq<Entry>, fields: Fields, k: string, below: Order)
    requires FitsPart(entries, fields) && k in fields && k !in KeysOf(entries) && Fits(below, fields[k])
    ensures FitsPart(entries + [Entry(k, below)], fields)
    ensures KeysOf(entries + [Entry(k, below)]) == KeysOf(entries) + {k}
  {
    var all := entries + [Entry(k, below)];
    forall i | 0 <= i < |entries|
      ensures all[i] == entries[i] && entries[i].key in KeysOf(entries)
    {
    }
    LastKey(all) by {
      assert forall i, j :: 0 <= i < j < |all| ==> all[i].key != all[j].key;
    }
    assert all[..|entries|] == entries;
  }

  lemma {:induction false} AnyOrderFits(v: Value)
    ensures Fits(AnyOrder(v), v)
    decreases v, 1
  {
    if v.Obj? {
      AnyEntriesFit(v, v.fields.Keys);
    }
  }

  lemma {:induction false} AnyEntriesFit(v: Value, keys: set<string>)
    requires v.Obj? && keys <= v.fields.Keys
    ensures FitsPart(AnyEntries(v, keys), v.fields) && KeysOf(AnyEntries(v, keys)) == keys
    decreases v, 0, |keys|
  {
    if keys != {} {
      var entries := AnyEntries(v, keys);
      var n := |entries| - 1;
      var k := entries[n].key;
      assert entries == AnyEntries(v, keys - {k}) + [Entry(k, AnyOrder(v.fields[k]))];
      AnyEntriesFit(v, keys - {k});
      AnyOrderFits(v.fields[k]);
      OneMoreEntry(AnyEntries(v, keys - {k}), v.fields, k, AnyOrder(v.fields[k]));
    }
  }

  lemma {:induction false} FavouringFits(v: Value, path: Path)
    requires Leaf(v, path).Some?
    ensures Fits(Favouring(v, path), v)
    decreases |path|
  {
    if path != [] {
      var k := path[0];
      AnyEntriesFit(v, v.fields.Keys - {k});
      FavouringFits(v.fields[k], path[1..]);
      OneMoreEntry(AnyEntries(v, v.fields.Keys - {k}), v.fields, k, Favouring(v.fields[k], path[1..]));
    }
  }

  /** A leaf whose keys come last wins its name. */
  lemma {:induction false} FavouredLeafWins(v: Value, path: Path, prefix: string, out: map<string, Value>)
    requires Leaf(v, path).Some?
    ensures FoundIn(Flattened(Favouring(v, path), prefix, v, out), Name(prefix, path)) == Leaf(v, path)
    decreases |path|
  {
    if path != [] {
      var k := path[0];
      var entries := Favouring(v, path).entries;
      var before := FlattenedEntries(entries[..|entries| - 1], prefix, v.fields, out);
      FavouredLeafWins(v.fields[k], path[1..], Deeper(prefix, k), before);
    }
  }

  // ---- Diffs ----------------------------------------------------------------------------------------------

  /** A changed field; an absent side is nil. */
  datatype FieldDiff = FieldDiff(before: Value, after: Value)

  function OrNull(v: Option<Value>): Value {
    if v.None? then Null else v.value
  }

  /** The names found with different values, or on one side only. */
  function Changes(lb: map<string, Value>, la: map<string, Value>, names: set<string>): map<string, FieldDiff> {
    map s | s in names && FoundIn(lb, s) != FoundIn(la, s) :: FieldDiff(OrNull(FoundIn(lb, s)), OrNull(FoundIn(la, s)))
  }

  /** What the code computes from two flattenings; the change of a leaf named "" is dropped. */
  function DiffOf(lb: map<string, Value>, la: map<string, Value>): map<string, FieldDiff> {
    Changes(lb, la, lb.Keys + la.Keys) - {""}
  }

  /** The flattening of a version of the data. */
  function LeavesOf(order: Order, v: Value): map<string, Value> {
    Flattened(order, "", v, map[])
  }

  /** A side of a diff: the value of a leaf of that name, or null when there is none. */
  ghost predicate Shows(v: Value, s: string, x: Value) {
    Holds("", v, s, x) || (!Named("", v, s) && x == Null)
  }

  /** The diff of the two versions, flattened in whichever orders Go's maps are visited. */
  method ComputeFieldDiff(before: Fields, after: Fields, ob: Order, oa: Order) returns (diff: map<string, FieldDiff>)
    requires Fits(ob, Obj(before)) && Fits(oa, Obj(after))
    ensures diff == DiffOf(LeavesOf(ob, Obj(before)), LeavesOf(oa, Obj(after)))
    ensures Clean(Obj(before)) && Clean(Obj(after)) ==> DescribesChange(Obj(before), Obj(after), diff)
    ensures forall s :: s in diff ==>
              s != "" && Shows(Obj(before), s, diff[s].before) && Shows(Obj(after), s, diff[s].after)
  {
    var lb := FlattenMap("", Obj(before), map[], ob);
    var la := FlattenMap("", Obj(after), map[], oa);
    diff := DiffLeaves(lb, la);
    forall s | s in diff
      ensures Shows(Obj(before), s, diff[s].before) && Shows(Obj(after), s, diff[s].after)
    {
      FoundIsHeld(Obj(before), lb, s);
      FoundIsHeld(Obj(after), la, s);
    }
    if Clean(Obj(before)) && Clean(Obj(after)) {
      ChangesDescribe(Obj(before), Obj(after), lb, la);
    }
  }

  /** The loop over all names of either side. */
  method DiffLeaves(lb: map<string, Value>, la: map<string, Value>) returns (diff: map<string, FieldDiff>)
    ensures diff == DiffOf(lb, la)
  {
    var all := lb.Keys + la.Keys;
    diff := map[];
    var paths := all;
    while paths != {}
      invariant paths <= all
      invariant diff == Changes(lb, la, all - paths)
    {
      var path :| path in paths;
      if path !in lb {
        diff := diff[path := FieldDiff(Null, la[path])];
      } else if path !in la {
        diff := diff[path := FieldDiff(lb[path], Null)];
      } else if lb[path] != la[path] {
        diff := diff[path := FieldDiff(lb[path], la[path])];
      }
      paths := paths - {path};
    }
    assert all - paths == all;
    diff := diff - {""};
  }

  // ---- When the diff is right -----------------------------------------------------------------------------

  /** Some leaf called `s` changed, appeared or vanished. */
  ghost predicate ChangedAt(before: Value, after: Value, s: string) {
    exists p :: Name("", p) == s && Leaf(before, p) != Leaf(after, p)
  }

  /** All leaves called `s` have one value. */
  ghost predicate OneValue(v: Value, s: string) {
    forall x, y :: Holds("", v, s, x) && Holds("", v, s, y) ==> x == y
  }

  /** No leaf called `s` before has the value of one called `s` after. */
  ghost predicate Apart(before: Value, after: Value, s: string) {
    forall x :: !(Holds("", before, s, x) && Holds("", after, s, x))
  }

  /** A changed name keeps no value it had before, and an unchanged one has a single value. */
  ghost predicate Unequivocal(before: Value, after: Value, s: string) {
    if ChangedAt(before, after, s) then Apart(before, after, s) else OneValue(before, s)
  }

  /** In whichever orders the maps are visited, the diff lists the name exactly when a leaf of that name changed. */
  ghost predicate RightAt(before: Value, after: Value, s: string) {
    forall ob, oa :: Fits(ob, before) && Fits(oa, after) ==> RightWith(before, after, s, ob, oa)
  }

  ghost predicate RightWith(before: Value, after: Value, s: string, ob: Order, oa: Order) {
    s in DiffOf(LeavesOf(ob, before), LeavesOf(oa, after)) <==> ChangedAt(before, after, s)
  }

  /** Every value of a leaf called `s` is found in some order of the visits. */
  lemma {:induction false} AnyLeafMayBeFound(v: Value, s: string, x: Value) returns (order: Order)
    requires Holds("", v, s, x)
    ensures Fits(order, v) && FoundIn(LeavesOf(order, v), s) == Some(x)
  {
    var p :| Leaf(v, p) == Some(x) && Name("", p) == s;
    order := Favouring(v, p);
    FavouringFits(v, p);
    FavouredLeafWins(v, p, "", map[]);
  }

  lemma {:induction false} FoundIsHeld(v: Value, m: map<string, Value>, s: string)
    requires Flat("", v, map[], m)
    ensures s in m <==> Named("", v, s)
    ensures s in m ==> Holds("", v, s, m[s])
  {
    assert !Named("", v, s) ==> FoundIn(m, s) == FoundIn(map[], s);
  }

  lemma {:induction false} UnchangedHold(before: Value, after: Value, s: string, x: Value)
    requires !ChangedAt(before, after, s)
    ensures Holds("", before, s, x) <==> Holds("", after, s, x)
  {
    if Holds("", before, s, x) {
      var p :| Leaf(before, p) == Some(x) && Name("", p) == s;
      assert Leaf(after, p) == Some(x);
    }
    if Holds("", after, s, x) {
      var p :| Leaf(after, p) == Some(x) && Name("", p) == s;
      assert Leaf(before, p) == Some(x);
    }
  }

  lemma {:induction false} ChangedIsNamed(before: Value, after: Value, s: string)
    requires ChangedAt(before, after, s)
    ensures Named("", before, s) || Named("", after, s)
  {
    var p :| Name("", p) == s && Leaf(before, p) != Leaf(after, p);
    assert Leaf(before, p).Some? || Leaf(after, p).Some?;
  }

  lemma {:induction false} UnchangedAreNamed(before: Value, after: Value, s: string)
    requires !ChangedAt(before, after, s)
    ensures Named("", before, s) <==> Named("", after, s)
  {
    if Named("", before, s) {
      var p :| Leaf(before, p).Some? && Name("", p) == s;
      assert Leaf(after, p) == Leaf(before, p);
    }
    if Named("", after, s) {
      var p :| Leaf(after, p).Some? && Name("", p) == s;
      assert Leaf(before, p) == Leaf(after, p);
    }
  }

  /**
   * When the diff can be trusted about a name, for all data: a change is reported for certain exactly when no leaf
   * of that name keeps a value that was there before, and no change exactly when all leaves of that name agree.
   */
  lemma {:induction false} DiffIsRightExactly(before: Value, after: Value, s: string)
    requires s != ""
    ensures RightAt(before, after, s) <==> Unequivocal(before, after, s)
  {
    if Unequivocal(before, after, s) {
      forall ob, oa | Fits(ob, before) && Fits(oa, after)
        ensures RightWith(before, after, s, ob, oa)
      {
        FlattenedIsFlat(ob, "", before, map[]);
        FlattenedIsFlat(oa, "", after, map[]);
        RightUnder(before, after, LeavesOf(ob, before), LeavesOf(oa, after), s);
      }
    } else if ChangedAt(before, after, s) {
      var x :| Holds("", before, s, x) && Holds("", after, s, x);
      ChangeMayBeHidden(before, after, s, x);
    } else {
      var x, y :| Holds("", before, s, x) && Holds("", before, s, y) && x != y;
      var ob, oa := ChangeMayBeFaked(before, after, s, x, y);
    }
  }

  lemma {:induction false} RightUnder(
    before: Value, after: Value, lb: map<string, Value>, la: map<string, Value>, s: string)
    requires Flat("", before, map[], lb) && Flat("", after, map[], la) && s != ""
    requires Unequivocal(before, after, s)
    ensures s in DiffOf(lb, la) <==> ChangedAt(before, after, s)
  {
    FoundIsHeld(before, lb, s);
    FoundIsHeld(after, la, s);
    if ChangedAt(before, after, s) {
      ChangedIsNamed(before, after, s);
    } else {
      UnchangedAreNamed(before, after, s);
      if s in la {
        UnchangedHold(before, after, s, la[s]);
      }
    }
  }

  /** A leaf that keeps a value under the same name can hide the change of another one. */
  lemma {:induction false} ChangeMayBeHidden(before: Value, after: Value, s: string, x: Value)
    requires ChangedAt(before, after, s) && Holds("", before, s, x) && Holds("", after, s, x)
    ensures !RightAt(before, after, s)
  {
    var ob := AnyLeafMayBeFound(before, s, x);
    var oa := AnyLeafMayBeFound(after, s, x);
    assert !RightWith(before, after, s, ob, oa);
  }

  /** Two leaves of one name can be taken for a change. */
  lemma {:induction false} ChangeMayBeFaked(before: Value, after: Value, s: string, x: Value, y: Value)
    returns (ob: Order, oa: Order)
    requires s != "" && !ChangedAt(before, after, s)
    requires Holds("", before, s, x) && Holds("", before, s, y) && x != y
    ensures Fits(ob, before) && Fits(oa, after) && s in DiffOf(LeavesOf(ob, before), LeavesOf(oa, after))
    ensures !RightAt(before, after, s)
  {
    UnchangedHold(before, after, s, y);
    ob := AnyLeafMayBeFound(before, s, x);
    oa := AnyLeafMayBeFound(after, s, y);
    assert !RightWith(before, after, s, ob, oa) by {
      ListedWhenFoundDifferent(LeavesOf(ob, before), LeavesOf(oa, after), s);
    }
  }

  lemma {:induction false} ListedWhenFoundDifferent(lb: map<string, Value>, la: map<string, Value>, s: string)
    requires s in lb && s in la && s != ""
    ensures s in DiffOf(lb, la) <==> lb[s] != la[s]
  {
  }

  /** A dotted key beside a nested one: two visits of the same data can be reported as a change. */
  lemma {:induction false} DottedKeyFakesChange(x: Value, y: Value) returns (ob: Order, oa: Order)
    requires !x.Obj? && !y.Obj? && x != y
    ensures var v := Obj(map["a.b" := x, "a" := Obj(map["b" := y])]);
            && Fits(ob, v) && Fits(oa, v)
            && "a.b" in DiffOf(LeavesOf(ob, v), LeavesOf(oa, v)) && !ChangedAt(v, v, "a.b")
  {
    var v := Obj(map["a.b" := x, "a" := Obj(map["b" := y])]);
    assert Leaf(v, ["a.b"]) == Some(x) by {
      assert ["a.b"][1..] == [];
    }
    assert Leaf(v, ["a", "b"]) == Some(y) by {
      assert ["a", "b"][1..] == ["b"] && ["b"][1..] == [];
      assert FieldsOf(v)["a"] == Obj(map["b" := y]);
      assert Leaf(Obj(map["b" := y]), ["b"]) == Leaf(y, []);
    }
    assert Name("", ["a.b"]) == "a.b" by {
      assert ["a.b"][1..] == [];
    }
    assert Name("", ["a", "b"]) == "a.b" by {
      assert ["a", "b"][1..] == ["b"] && ["b"][1..] == [];
      assert Name("a", ["b"]) == Name("a.b", []);
    }
    assert Holds("", v, "a.b", x) && Holds("", v, "a.b", y);
    ob, oa := ChangeMayBeFaked(v, v, "a.b", x, y);
  }

  // ---- Clean data -----------------------------------------------------------------------------------------

  /** What a diff of data with nonempty dot-free keys says about the two versions. */
  ghost predicate DescribesChange(before: Value, after: Value, diff: map<string, FieldDiff>) {
    && (forall p :: CleanPath(p) ==> (Dotted(p) in diff <==> Leaf(before, p) != Leaf(after, p)))
    && (forall p :: CleanPath(p) && Dotted(p) in diff ==>
          diff[Dotted(p)] == FieldDiff(OrNull(Leaf(before, p)), OrNull(Leaf(after, p))))
    && (forall s :: s in diff ==> exists p :: CleanPath(p) && s == Dotted(p))
  }

  lemma {:induction false} NameIsDotted(prefix: string, path: Path)
    requires CleanPath(path) && path != []
    ensures Name(prefix, path) == if prefix == "" then Dotted(path) else prefix + "." + Dotted(path)
    decreases |path|
  {
    assert path[0] in path;
    if |path| > 1 {
      assert forall k :: k in path[1..] ==> k in path;
      NameIsDotted(Deeper(prefix, path[0]), path[1..]);
    } else {
      assert path[1..] == [];
    }
  }

  lemma {:induction false} CleanLeafIsCleanPath(v: Value, p: Path)
    requires Clean(v) && Leaf(v, p).Some?
    ensures CleanPath(p)
    decreases |p|
  {
    if p != [] {
      CleanLeafIsCleanPath(FieldsOf(v)[p[0]], p[1..]);
      assert p == [p[0]] + p[1..];
    }
  }

  /** In clean data, looking a dotted path up in the flattened leaves is looking the leaf up. */
  lemma {:induction false} FlatLooksUp(v: Value, m: map<string, Value>, p: Path)
    requires Flat("", v, map[], m) && v.Obj? && Clean(v) && CleanPath(p)
    ensures FoundIn(m, Dotted(p)) == Leaf(v, p)
  {
    CleanName(p);
    FoundIsHeld(v, m, Dotted(p));
    if Dotted(p) in m {
      var q :| Leaf(v, q) == Some(m[Dotted(p)]) && Name("", q) == Dotted(p);
      CleanLeafIsCleanPath(v, q);
      CleanName(q);
      DottedIsInjective(p, q);
    }
  }

  lemma {:induction false} CleanName(p: Path)
    requires CleanPath(p)
    ensures Name("", p) == Dotted(p)
  {
    if p != [] {
      NameIsDotted("", p);
    }
  }

  lemma {:induction false} ChangesDescribe(
    before: Value, after: Value, lb: map<string, Value>, la: map<string, Value>)
    requires before.Obj? && after.Obj? && Clean(before) && Clean(after)
    requires Flat("", before, map[], lb) && Flat("", after, map[], la)
    ensures DescribesChange(before, after, DiffOf(lb, la))
  {
    var diff := DiffOf(lb, la);
    forall p | CleanPath(p)
      ensures Dotted(p) in diff <==> Leaf(before, p) != Leaf(after, p)
      ensures Dotted(p) in diff ==> diff[Dotted(p)] == FieldDiff(OrNull(Leaf(before, p)), OrNull(Leaf(after, p)))
    {
      FlatLooksUp(before, lb, p);
      FlatLooksUp(after, la, p);
      if p != [] {
        DottedStart(p);
      }
    }
    forall s | s in diff
      ensures exists p :: CleanPath(p) && s == Dotted(p)
    {
      NamesAreDotted(before, lb, s);
      NamesAreDotted(after, la, s);
    }
  }

  lemma {:induction false} NamesAreDotted(v: Value, m: map<string, Value>, s: string)
    requires Flat("", v, map[], m) && Clean(v)
    ensures s in m ==> exists p :: CleanPath(p) && s == Dotted(p)
  {
    FoundIsHeld(v, m, s);
    if s in m {
      var q :| Leaf(v, q).Some? && Name("", q) == s;
      CleanLeafIsCleanPath(v, q);
      CleanName(q);
    }
  }

  /** Rewriting the leaves of `before` that the diff names yields the leaves of `after`, null standing for absent. */
  lemma {:induction false} DiffLeadsToAfter(before: Value, after: Value, diff: map<string, FieldDiff>, p: Path)
    requires DescribesChange(before, after, diff) && CleanPath(p)
    ensures OrNull(Leaf(after, p)) ==
            if Dotted(p) in diff then diff[Dotted(p)].after else OrNull(Leaf(before, p))
    ensures OrNull(Leaf(before, p)) ==
            if Dotted(p) in diff then diff[Dotted(p)].before else OrNull(Leaf(after, p))
  {
    assert Dotted(p) in diff <==> Leaf(before, p) != Leaf(after, p);
  }
}
