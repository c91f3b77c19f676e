/**
 Layered configuration: recursive merge of tables, leaf paths and the provenance of every leaf.
 Paths are key sequences; anything that is not a table is an opaque scalar.
 */
module ConfigLayers {
  import opened Common

  datatype Value = Scalar(text: string) | Table(entries: map<string, Value>)

  type Path = seq<string>

  // ----- Merge -----

  /** Overlay keys win; where both sides hold a table the tables are merged. */
  function Combine(base: Value, overlay: Value): Value
    decreases overlay
  {
    if base.Table? && overlay.Table? then
      Table(map k | k in base.entries.Keys + overlay.entries.Keys ::
        if k !in overlay.entries then base.entries[k]
        else if k !in base.entries then overlay.entries[k]
        else Combine(base.entries[k], overlay.entries[k]))
    else overlay
  }

  function Merged(base: map<string, Value>, overlay: map<string, Value>, k: string): Value
    requires k in base || k in overlay
  {
    if k !in overlay then base[k] else if k !in base then overlay[k] else Combine(base[k], overlay[k])
  }

  method DeepMerge(base: map<string, Value>, overlay: map<string, Value>) returns (merged: map<string, Value>)
    ensures Table(merged) == Combine(Table(base), Table(overlay))
    decreases Table(overlay)
  {
    merged := base;
    var keys := overlay.Keys;
    while keys != {}
      invariant keys <= overlay.Keys
      invariant merged.Keys == base.Keys + (overlay.Keys - keys)
      invariant forall k :: k in merged ==> merged[k] == (if k in keys then base[k] else Merged(base, overlay, k))
      decreases keys
    {
      var key :| key in keys;
      var value := overlay[key];
      if key in base && base[key].Table? && value.Table? {
        assert Table(overlay).entries[key] == value;
        var inner := DeepMerge(base[key].entries, value.entries);
        merged := merged[key := Table(inner)];
      } else {
        merged := merged[key := value];
      }
      keys := keys - {key};
    }
    assert merged == Combine(Table(base), Table(overlay)).entries;
  }

  // ----- Leaves -----

  predicate IsBranch(v: Value) {
    v.Table? && v.entries != map[]
  }

  /** A leaf is a scalar or an empty table under the path. */
  predicate IsLeaf(v: Value, p: Path)
    decreases |p|
  {
    p != [] && v.Table? && p[0] in v.entries &&
    if IsBranch(v.entries[p[0]]) then IsLeaf(v.entries[p[0]], p[1..]) else |p| == 1
  }

  function ValueAt(v: Value, p: Path): Option<Value>
    decreases |p|
  {
    if p == [] then Some(v)
    else if v.Table? && p[0] in v.entries then ValueAt(v.entries[p[0]], p[1..])
    else None
  }

  /** A path is a leaf exactly when it leads somewhere, namely to a scalar or to an empty table. */
  lemma {:induction false} LeafLeadsToEnd(v: Value, p: Path)
    requires v.Table?
    ensures IsLeaf(v, p)
       <==> p != [] && ValueAt(v, p).Some? && (ValueAt(v, p).value.Scalar? || ValueAt(v, p).value == Table(map[]))
    decreases |p|
  {
    if p != [] && p[0] in v.entries {
      var next := v.entries[p[0]];
      if next.Table? {
        if p[1..] != [] {
          LeafLeadsToEnd(next, p[1..]);
        }
        assert |p| == 1 <==> p[1..] == [];
      } else {
        assert |p| == 1 <==> p[1..] == [];
      }
    }
  }

  function Prefixed(k: string, ps: set<Path>): set<Path> {
    set p | p in ps :: [k] + p
  }

  /** The paths under one key. */
  ghost predicate LeafUnder(data: map<string, Value>, keys: set<string>, p: Path) {
    IsLeaf(Table(data), p) && p[0] in keys
  }

  method LeafPaths(data: map<string, Value>) returns (paths: set<Path>)
    ensures forall p :: p in paths <==> IsLeaf(Table(data), p)
    decreases Table(data)
  {
    paths := {};
    var keys := data.Keys;
    while keys != {}
      invariant keys <= data.Keys
      invariant forall p :: p in paths <==> LeafUnder(data, data.Keys - keys, p)
      decreases keys
    {
      var key :| key in keys;
      var value := data[key];
      assert Table(data).entries[key] == value;
      ghost var before := paths;
      if IsBranch(value) {
        var inner := LeafPaths(value.entries);
        paths := paths + Prefixed(key, inner);
        forall p ensures p in Prefixed(key, inner) <==> IsLeaf(Table(data), p) && p[0] == key {
          if IsLeaf(Table(data), p) && p[0] == key {
            assert p == [key] + p[1..];
          }
          if p in Prefixed(key, inner) {
            var q :| q in inner && p == [key] + q;
            assert p[1..] == q;
          }
        }
      } else {
        paths := paths + {[key]};
        forall p ensures p == [key] <==> IsLeaf(Table(data), p) && p[0] == key {}
      }
      keys := keys - {key};
    }
  }

  // ----- Provenance -----

  /** A leaf of a merge comes from the overlay if it is a leaf there, and otherwise from the base. */
  lemma {:induction false} MergedLeaf(base: Value, overlay: Value, p: Path)
    requires base.Table? && overlay.Table? && IsLeaf(Combine(base, overlay), p)
    ensures IsLeaf(overlay, p) ==> ValueAt(Combine(base, overlay), p) == ValueAt(overlay, p)
    ensures !IsLeaf(overlay, p) ==> IsLeaf(base, p) && ValueAt(Combine(base, overlay), p) == ValueAt(base, p)
    decreases |p|
  {
    var k := p[0];
    var merged := Combine(base, overlay).entries[k];
    if k !in overlay.entries {
      assert merged == base.entries[k];
    } else if k !in base.entries || !base.entries[k].Table? || !overlay.entries[k].Table? {
      if k in base.entries {
        assert Combine(base.entries[k], overlay.entries[k]) == overlay.entries[k];
      }
      assert merged == overlay.entries[k];
    } else {
      var below, above := base.entries[k], overlay.entries[k];
      assert merged == Combine(below, above);
      assert merged.entries.Keys == below.entries.Keys + above.entries.Keys;
      if IsBranch(merged) {
        assert IsLeaf(merged, p[1..]);
        MergedLeaf(below, above, p[1..]);
        if IsLeaf(above, p[1..]) {
          assert p[1] in above.entries && IsBranch(above);
        } else {
          assert p[1] in below.entries && IsBranch(below);
        }
      } else {
        assert above.entries.Keys == {};
        assert above.entries == map[];
        assert merged.entries == above.entries;
      }
    }
  }

  ghost predicate AllTables(layers: seq<Value>) {
    forall i :: 0 <= i < |layers| ==> layers[i].Table?
  }

  /** The layers merged in order of rising priority. */
  function MergeAll(layers: seq<Value>): Value
    requires layers != []
  {
    if |layers| == 1 then layers[0] else Combine(MergeAll(layers[..|layers| - 1]), layers[|layers| - 1])
  }

  lemma {:induction false} MergeAllIsTable(layers: seq<Value>)
    requires layers != [] && AllTables(layers)
    ensures MergeAll(layers).Table?
  {
    if |layers| > 1 {
      MergeAllIsTable(layers[..|layers| - 1]);
    }
  }

  /** The highest layer that contains the path as a leaf. */
  ghost predicate ComesFrom(layers: seq<Value>, p: Path, i: nat) {
    i < |layers| && IsLeaf(layers[i], p) && forall j :: i < j < |layers| ==> !IsLeaf(layers[j], p)
  }

  lemma SourceUnique(layers: seq<Value>, p: Path, i: nat, j: nat)
    requires ComesFrom(layers, p, i) && ComesFrom(layers, p, j)
    ensures i == j
  {
  }

  /** Whatever shapes the layers have: every leaf of the merged configuration has the value of the
      highest layer that contains that leaf. */
  lemma {:induction false} Provenance(layers: seq<Value>, p: Path) returns (i: nat)
    requires layers != [] && AllTables(layers) && IsLeaf(MergeAll(layers), p)
    ensures ComesFrom(layers, p, i) && ValueAt(MergeAll(layers), p) == ValueAt(layers[i], p)
  {
    var n := |layers| - 1;
    if n == 0 {
      i := 0;
    } else {
      MergeAllIsTable(layers[..n]);
      MergedLeaf(MergeAll(layers[..n]), layers[n], p);
      if IsLeaf(layers[n], p) {
        i := n;
      } else {
        i := Provenance(layers[..n], p);
        assert ComesFrom(layers, p, i);
      }
    }
  }

  ghost predicate Tracks(sources: map<Path, nat>, layers: seq<Value>) {
    && (forall p :: p in sources ==> ComesFrom(layers, p, sources[p]))
    && (forall p, i :: 0 <= i < |layers| && IsLeaf(layers[i], p) ==> p in sources)
  }

  function AsTables(layers: seq<map<string, Value>>): (vs: seq<Value>)
    ensures |vs| == |layers| && forall i :: 0 <= i < |layers| ==> vs[i] == Table(layers[i])
  {
    seq(|layers|, i requires 0 <= i < |layers| => Table(layers[i]))
  }

  lemma MergeAllNext(layers: seq<Value>, i: nat)
    requires 0 < i < |layers|
    ensures MergeAll(layers[..i + 1]) == Combine(MergeAll(layers[..i]), layers[i])
  {
    assert layers[..i + 1][..i] == layers[..i];
  }

  /** The bookkeeping of one layer: its leaves now point at it, all others keep their source. */
  ghost predicate Overwrites(updated: map<Path, nat>, sources: map<Path, nat>, overlay: Value, source: nat) {
    && (forall p :: p in updated <==> p in sources || IsLeaf(overlay, p))
    && (forall p :: p in updated ==> updated[p] == if IsLeaf(overlay, p) then source else sources[p])
  }

  lemma TracksNext(sources: map<Path, nat>, updated: map<Path, nat>, layers: seq<Value>, i: nat)
    requires i < |layers| && Tracks(sources, layers[..i]) && Overwrites(updated, sources, layers[i], i)
    ensures Tracks(updated, layers[..i + 1])
  {
    var upto := layers[..i + 1];
    forall p | p in updated ensures ComesFrom(upto, p, updated[p]) {
      if !IsLeaf(layers[i], p) {
        assert ComesFrom(layers[..i], p, sources[p]);
        forall j | updated[p] < j < |upto| ensures !IsLeaf(upto[j], p) {
          if j < i {
            assert layers[..i][j] == upto[j];
          }
        }
      }
    }
    forall p, j | 0 <= j < |upto| && IsLeaf(upto[j], p) ensures p in updated {
      if j < i {
        assert layers[..i][j] == upto[j];
      }
    }
  }

  method Overlay(data: map<string, Value>, sources: map<Path, nat>, overlay: map<string, Value>, source: nat)
    returns (merged: map<string, Value>, updated: map<Path, nat>)
    ensures Table(merged) == Combine(Table(data), Table(overlay))
    ensures Overwrites(updated, sources, Table(overlay), source)
  {
    merged := DeepMerge(data, overlay);
    var paths := LeafPaths(overlay);
    updated := sources + map p | p in paths :: source;
  }

  ghost predicate Loaded(data: Value, sources: map<Path, nat>, layers: seq<Value>, i: nat) {
    0 < i <= |layers| && data == MergeAll(layers[..i]) && Tracks(sources, layers[..i])
  }

  lemma LayerLoaded(data: Value, sources: map<Path, nat>, layers: seq<Value>, i: nat,
                    merged: Value, updated: map<Path, nat>)
    requires i < |layers| && Loaded(data, sources, layers, i)
    requires merged == Combine(data, layers[i]) && Overwrites(updated, sources, layers[i], i)
    ensures Loaded(merged, updated, layers, i + 1)
  {
    MergeAllNext(layers, i);
    TracksNext(sources, updated, layers, i);
  }

  /** Loads the layers one by one, overwriting the recorded source of every leaf of each overlay. */
  method LoadEffective(layers: seq<map<string, Value>>) returns (data: map<string, Value>, sources: map<Path, nat>)
    requires layers != []
    ensures Table(data) == MergeAll(AsTables(layers)) && Tracks(sources, AsTables(layers))
  {
    ghost var vs := AsTables(layers);
    data := layers[0];
    var paths := LeafPaths(data);
    sources := map p | p in paths :: 0;
    TracksNext(map[], sources, vs, 0);
    var i := 1;
    while i < |layers|
      invariant 1 <= i <= |layers|
      invariant Loaded(Table(data), sources, vs, i)
    {
      var merged, updated := Overlay(data, sources, layers[i], i);
      LayerLoaded(Table(data), sources, vs, i, Table(merged), updated);
      data, sources := merged, updated;
      i := i + 1;
    }
    assert vs[..i] == vs;
  }

  /** In the loaded configuration every leaf is attributed to the highest layer that contains it and
      carries that layer's value. */
  lemma AttributionIsRight(layers: seq<Value>, sources: map<Path, nat>, p: Path)
    requires layers != [] && AllTables(layers) && Tracks(sources, layers) && IsLeaf(MergeAll(layers), p)
    ensures p in sources && ComesFrom(layers, p, sources[p])
    ensures ValueAt(MergeAll(layers), p) == ValueAt(layers[sources[p]], p)
  {
    var i := Provenance(layers, p);
    SourceUnique(layers, p, i, sources[p]);
  }

  // ----- Laws of merging -----

  /** Every key of a is also in c, and so on wherever both hold tables. */
  predicate Covered(a: Value, c: Value)
    decreases c
  {
    a.Table? && c.Table? ==>
      a.entries.Keys <= c.entries.Keys && forall k :: k in a.entries ==> Covered(a.entries[k], c.entries[k])
  }

  /** Merging under c changes nothing exactly when c covers what is below. */
  lemma {:induction false} CoveredIff(a: Value, c: Value)
    ensures Combine(a, c) == c <==> Covered(a, c)
    decreases c
  {
    if a.Table? && c.Table? {
      var m := Combine(a, c).entries;
      forall k | k in a.entries && k in c.entries
        ensures m[k] == c.entries[k] <==> Covered(a.entries[k], c.entries[k])
      {
        CoveredIff(a.entries[k], c.entries[k]);
      }
      if Covered(a, c) {
        assert m == c.entries;
      }
      if Combine(a, c) == c {
        assert m == c.entries;
        assert a.entries.Keys <= m.Keys;
      }
    }
  }

  lemma {:induction false} CoveredSelf(b: Value)
    ensures Covered(b, b)
    decreases b
  {
    if b.Table? {
      forall k | k in b.entries ensures Covered(b.entries[k], b.entries[k]) {
        CoveredSelf(b.entries[k]);
      }
    }
  }

  /** The empty layer is neutral on both sides. */
  lemma EmptyIsNeutral(a: Value)
    requires a.Table?
    ensures Combine(a, Table(map[])) == a == Combine(Table(map[]), a)
  {
    assert Combine(a, Table(map[])).entries == a.entries;
    assert Combine(Table(map[]), a).entries == a.entries;
  }

  /** Applying the same overlay twice is the same as applying it once. */
  lemma {:induction false} MergeIdempotent(a: Value, b: Value)
    ensures Combine(Combine(a, b), b) == Combine(a, b)
    decreases b
  {
    if a.Table? && b.Table? {
      var once := Combine(a, b);
      var twice := Combine(once, b);
      forall k | k in once.entries ensures twice.entries[k] == once.entries[k] {
        if k in b.entries {
          if k in a.entries {
            MergeIdempotent(a.entries[k], b.entries[k]);
          } else {
            CoveredSelf(b.entries[k]);
            CoveredIff(b.entries[k], b.entries[k]);
          }
        }
      }
      assert twice.entries == once.entries;
    } else if b.Table? {
      CoveredSelf(b);
      CoveredIff(b, b);
    }
  }

  /** No scalar of b hides a table of a that a table of c re-opens without covering it. */
  predicate ShapesRegroup(a: Value, b: Value, c: Value)
    decreases c
  {
    c.Table? ==>
      (b.Scalar? ==> Covered(a, c)) &&
      (a.Table? && b.Table? ==>
        forall k :: k in a.entries && k in b.entries && k in c.entries ==>
          ShapesRegroup(a.entries[k], b.entries[k], c.entries[k]))
  }

  /** Layers may be regrouped without changing the result if and only if their shapes allow it. */
  lemma {:induction false} MergeAssociativeIff(a: Value, b: Value, c: Value)
    ensures Combine(Combine(a, b), c) == Combine(a, Combine(b, c)) <==> ShapesRegroup(a, b, c)
    decreases c
  {
    if c.Table? {
      if b.Scalar? {
        CoveredIff(a, c);
      } else if a.Table? {
        var l, r := Combine(Combine(a, b), c).entries, Combine(a, Combine(b, c)).entries;
        assert l.Keys == r.Keys;
        forall k | k in l
          ensures l[k] == r[k] <==>
            (k in a.entries && k in b.entries && k in c.entries ==>
              ShapesRegroup(a.entries[k], b.entries[k], c.entries[k]))
        {
          if k in a.entries && k in b.entries && k in c.entries {
            MergeAssociativeIff(a.entries[k], b.entries[k], c.entries[k]);
          }
        }
        assert l == r <==> forall k :: k in l ==> l[k] == r[k];
      }
    }
  }

  /** A lower table hidden by a scalar and re-opened above: regrouping brings the hidden key back. */
  lemma RegroupingCanDiffer()
    ensures var a, b, c := Table(map["k" := Table(map["x" := Scalar("1")])]), Table(map["k" := Scalar("5")]),
                           Table(map["k" := Table(map["y" := Scalar("2")])]);
      Combine(Combine(a, b), c) != Combine(a, Combine(b, c))
  {
    var a, b, c := Table(map["k" := Table(map["x" := Scalar("1")])]), Table(map["k" := Scalar("5")]),
                   Table(map["k" := Table(map["y" := Scalar("2")])]);
    MergeAssociativeIff(a, b, c);
    assert "x" in a.entries["k"].entries && "x" !in c.entries["k"].entries;
    assert !Covered(a.entries["k"], c.entries["k"]);
  }
}
