/**
 * The inner join of the geometry layer with the attribute table on the
 * geocode column `CVEGEO`: for each feature, in layer order, one output
 * row per attribute row carrying the same geocode, in table order, with
 * the feature's polygon added under `geometry`.
 */
module Join {
  import opened Frames

  /** A feature of a geometry layer: its geocode and its polygon. */
  datatype Feature = Feature(cvegeo: string, shape: Shape)

  /** An attribute row joins a feature when its `CVEGEO` is the feature's geocode. */
  predicate Match(f: Feature, r: Row)
  {
    "CVEGEO" in r && r["CVEGEO"] == Text(f.cvegeo)
  }

  /** The output row of a matched pair. */
  function Joined(f: Feature, r: Row): Row
  {
    r["geometry" := Geom(f.shape)]
  }

  /** The output rows of one feature: its matches, in table order. */
  function Matches(f: Feature, rs: seq<Row>): (out: seq<Row>)
    ensures |out| <= |rs|
    ensures forall x: Row :: x in out ==> exists r :: r in rs && Match(f, r) && x == Joined(f, r)
    ensures forall r :: r in rs && Match(f, r) ==> Joined(f, r) in out
  {
    if rs == [] then []
    else
      var rest := Matches(f, rs[1..]);
      assert forall r :: r in rs[1..] ==> r in rs;
      assert forall r :: r in rs ==> r == rs[0] || r in rs[1..];
      if Match(f, rs[0]) then [Joined(f, rs[0])] + rest else rest
  }

  /**
   * The inner merge on `CVEGEO`: every output row is a
   * matched pair, and every matched pair gives an output row.
   */
  function InnerJoin(shp: seq<Feature>, rs: seq<Row>): (out: seq<Row>)
    ensures forall x: Row :: x in out ==> exists f, r :: f in shp && r in rs && Match(f, r) && x == Joined(f, r)
    ensures forall f, r :: f in shp && r in rs && Match(f, r) ==> Joined(f, r) in out
  {
    if shp == [] then []
    else
      var rest := InnerJoin(shp[1..], rs);
      assert forall f :: f in shp[1..] ==> f in shp;
      assert forall f :: f in shp ==> f == shp[0] || f in shp[1..];
      Matches(shp[0], rs) + rest
  }

  /** Every row of the join has the table's columns plus `geometry`. */
  lemma JoinColumns(shp: seq<Feature>, rs: seq<Row>, cols: set<string>)
    requires forall i :: 0 <= i < |rs| ==> rs[i].Keys == cols
    ensures forall i :: 0 <= i < |InnerJoin(shp, rs)| ==> InnerJoin(shp, rs)[i].Keys == cols + {"geometry"}
  {
    var out := InnerJoin(shp, rs);
    forall i | 0 <= i < |out| ensures out[i].Keys == cols + {"geometry"} {
      assert out[i] in out;
      var f, r :| f in shp && r in rs && Match(f, r) && out[i] == Joined(f, r);
      var j :| 0 <= j < |rs| && rs[j] == r;
    }
  }

  /** A row of the join is a feature joined with the row at some position of the table. */
  lemma JoinedRowIndex(shp: seq<Feature>, rs: seq<Row>, x: Row)
    requires x in InnerJoin(shp, rs)
    ensures exists f, k :: f in shp && 0 <= k < |rs| && Match(f, rs[k]) && x == Joined(f, rs[k])
  {
    var f, r :| f in shp && r in rs && Match(f, r) && x == Joined(f, r);
    var k :| 0 <= k < |rs| && rs[k] == r;
  }

  /** The geocodes of a geometry layer. */
  function FeatureKeys(shp: seq<Feature>): set<string>
  {
    set f | f in shp :: f.cvegeo
  }

  /** The textual geocodes of a table. */
  function RowKeys(rs: seq<Row>): set<string>
  {
    set r: Row | r in rs && "CVEGEO" in r && r["CVEGEO"].Text? :: r["CVEGEO"].text
  }

  /**
   * The geocodes of the join are exactly those present on both sides: every
   * output geocode occurs in both inputs, and a row of either side whose
   * geocode has no partner on the other side contributes nothing.
   */
  lemma JoinKeys(shp: seq<Feature>, rs: seq<Row>)
    ensures RowKeys(InnerJoin(shp, rs)) == FeatureKeys(shp) * RowKeys(rs)
  {
    JoinKeysOnBothSides(shp, rs);
    JoinKeysAllMatched(shp, rs);
  }

  /** Every geocode of the join occurs on both sides. */
  lemma JoinKeysOnBothSides(shp: seq<Feature>, rs: seq<Row>)
    ensures RowKeys(InnerJoin(shp, rs)) <= FeatureKeys(shp) * RowKeys(rs)
  {
    var out := InnerJoin(shp, rs);
    forall k | k in RowKeys(out) ensures k in FeatureKeys(shp) * RowKeys(rs) {
      var x: Row :| x in out && "CVEGEO" in x && x["CVEGEO"].Text? && x["CVEGEO"].text == k;
      var f, r :| f in shp && r in rs && Match(f, r) && x == Joined(f, r);
      assert x["CVEGEO"] == r["CVEGEO"];
    }
  }

  /** Every geocode found on both sides occurs in the join. */
  lemma JoinKeysAllMatched(shp: seq<Feature>, rs: seq<Row>)
    ensures FeatureKeys(shp) * RowKeys(rs) <= RowKeys(InnerJoin(shp, rs))
  {
    var out := InnerJoin(shp, rs);
    forall k | k in FeatureKeys(shp) * RowKeys(rs) ensures k in RowKeys(out) {
      var f :| f in shp && f.cvegeo == k;
      var r: Row :| r in rs && "CVEGEO" in r && r["CVEGEO"].Text? && r["CVEGEO"].text == k;
      assert Match(f, r);
      assert Joined(f, r) in out;
      assert Joined(f, r)["CVEGEO"] == Text(k);
    }
  }

  /** A table whose geocodes are pairwise distinct. */
  predicate UniqueRowKeys(rs: seq<Row>)
  {
    forall i, j :: 0 <= i < j < |rs| && "CVEGEO" in rs[i] && "CVEGEO" in rs[j] ==> rs[i]["CVEGEO"] != rs[j]["CVEGEO"]
  }

  /** A layer whose geocodes are pairwise distinct. */
  predicate UniqueFeatureKeys(shp: seq<Feature>)
  {
    forall i, j :: 0 <= i < j < |shp| ==> shp[i].cvegeo != shp[j].cvegeo
  }

  /** With distinct geocodes in the table, a feature has at most one match. */
  lemma {:induction false} MatchesAtMostOne(f: Feature, rs: seq<Row>)
    requires UniqueRowKeys(rs)
    ensures |Matches(f, rs)| <= 1
    decreases |rs|
  {
    if rs != [] {
      var tail := rs[1..];
      assert UniqueRowKeys(tail) by {
        forall i, j | 0 <= i < j < |tail| && "CVEGEO" in tail[i] && "CVEGEO" in tail[j]
          ensures tail[i]["CVEGEO"] != tail[j]["CVEGEO"]
        {
          assert tail[i] == rs[i + 1] && tail[j] == rs[j + 1];
        }
      }
      if Match(f, rs[0]) {
        if Matches(f, tail) != [] {
          assert Matches(f, tail)[0] in Matches(f, tail);
          assert false;
        }
      } else {
        MatchesAtMostOne(f, tail);
      }
    }
  }

  /** Every row of the join of one feature carries that feature's geocode. */
  lemma MatchesKey(f: Feature, rs: seq<Row>)
    ensures forall x: Row :: x in Matches(f, rs) ==> "CVEGEO" in x && x["CVEGEO"] == Text(f.cvegeo)
  {
    forall x: Row | x in Matches(f, rs) ensures "CVEGEO" in x && x["CVEGEO"] == Text(f.cvegeo) {
      var r :| r in rs && Match(f, r) && x == Joined(f, r);
    }
  }

  /** The geocodes of a sequence of rows that all carry a textual geocode. */
  function KeySeq(out: seq<Row>): (ks: seq<string>)
    requires forall x: Row :: x in out ==> "CVEGEO" in x && x["CVEGEO"].Text?
    ensures |ks| == |out|
    ensures forall i :: 0 <= i < |out| ==> ks[i] == out[i]["CVEGEO"].text
  {
    if out == [] then [] else [out[0]["CVEGEO"].text] + KeySeq(out[1..])
  }

  predicate Distinct(ks: seq<string>)
  {
    forall i, j :: 0 <= i < j < |ks| ==> ks[i] != ks[j]
  }

  /** Every row of the join carries, as text, a geocode of the layer. */
  lemma JoinRowsKeyed(shp: seq<Feature>, rs: seq<Row>)
    ensures forall x: Row :: x in InnerJoin(shp, rs) ==> "CVEGEO" in x && x["CVEGEO"].Text? && x["CVEGEO"].text in FeatureKeys(shp)
  {
    forall x: Row | x in InnerJoin(shp, rs) ensures "CVEGEO" in x && x["CVEGEO"].Text? && x["CVEGEO"].text in FeatureKeys(shp) {
      var f, r :| f in shp && r in rs && Match(f, r) && x == Joined(f, r);
    }
  }

  /** With distinct geocodes on both sides, the rows of the join carry distinct geocodes. */
  lemma {:induction false} JoinKeysDistinct(shp: seq<Feature>, rs: seq<Row>)
    requires UniqueFeatureKeys(shp) && UniqueRowKeys(rs)
    ensures forall x: Row :: x in InnerJoin(shp, rs) ==> "CVEGEO" in x && x["CVEGEO"].Text? && x["CVEGEO"].text in FeatureKeys(shp)
    ensures Distinct(KeySeq(InnerJoin(shp, rs)))
    decreases |shp|
  {
    JoinRowsKeyed(shp, rs);
    if shp != [] {
      var tail := shp[1..];
      assert UniqueFeatureKeys(tail) by {
        forall i, j | 0 <= i < j < |tail| ensures tail[i].cvegeo != tail[j].cvegeo {
          assert tail[i] == shp[i + 1] && tail[j] == shp[j + 1];
        }
      }
      JoinKeysDistinct(tail, rs);
      MatchesAtMostOne(shp[0], rs);
      MatchesKey(shp[0], rs);
      var head := Matches(shp[0], rs);
      var rest := InnerJoin(tail, rs);
      var out := InnerJoin(shp, rs);
      assert out == head + rest;
      assert shp[0].cvegeo !in FeatureKeys(tail) by {
        forall j | 0 <= j < |tail| ensures tail[j].cvegeo != shp[0].cvegeo {
          assert tail[j] == shp[j + 1];
        }
      }
      HeadRestDistinct(shp[0].cvegeo, head, rest, FeatureKeys(tail));
    }
  }

  /** Appending a one-row join with a new geocode to a join with distinct geocodes. */
  lemma HeadRestDistinct(key: string, head: seq<Row>, rest: seq<Row>, keys: set<string>)
    requires |head| <= 1
    requires forall x: Row :: x in head ==> "CVEGEO" in x && x["CVEGEO"] == Text(key)
    requires forall x: Row :: x in rest ==> "CVEGEO" in x && x["CVEGEO"].Text? && x["CVEGEO"].text in keys
    requires key !in keys
    requires Distinct(KeySeq(rest))
    ensures Distinct(KeySeq(head + rest))
  {
    var out := head + rest;
    var ks := KeySeq(out);
    var kr := KeySeq(rest);
    forall i, j | 0 <= i < j < |ks| ensures ks[i] != ks[j] {
      assert out[j] == rest[j - |head|];
      assert rest[j - |head|] in rest;
      if i < |head| {
        assert out[i] in head;
      } else {
        assert out[i] == rest[i - |head|];
        assert kr[i - |head|] != kr[j - |head|];
      }
    }
  }

  /** A sequence of distinct values has as many elements as its set. */
  lemma {:induction false} DistinctCard(ks: seq<string>)
    requires Distinct(ks)
    ensures |set k | k in ks| == |ks|
    decreases |ks|
  {
    if ks != [] {
      var tail := ks[1..];
      assert Distinct(tail) by {
        forall i, j | 0 <= i < j < |tail| ensures tail[i] != tail[j] {
          assert tail[i] == ks[i + 1] && tail[j] == ks[j + 1];
        }
      }
      DistinctCard(tail);
      assert ks[0] !in tail by {
        forall j | 0 <= j < |tail| ensures tail[j] != ks[0] {
          assert tail[j] == ks[j + 1];
        }
      }
      assert (set k | k in ks) == (set k | k in tail) + {ks[0]};
    }
  }

  /** A table has no more distinct geocodes than rows. */
  lemma {:induction false} RowKeysCard(rs: seq<Row>)
    ensures |RowKeys(rs)| <= |rs|
    decreases |rs|
  {
    if rs != [] {
      RowKeysCard(rs[1..]);
      var r := rs[0];
      if "CVEGEO" in r && r["CVEGEO"].Text? {
        assert RowKeys(rs) == RowKeys(rs[1..]) + {r["CVEGEO"].text};
      } else {
        assert RowKeys(rs) == RowKeys(rs[1..]);
      }
    }
  }

  /** A subset is no larger than its superset. */
  lemma {:induction false} SubsetCard(a: set<string>, b: set<string>)
    requires a <= b
    ensures |a| <= |b|
    decreases |a|
  {
    if a != {} {
      var k :| k in a;
      SubsetCard(a - {k}, b - {k});
    }
  }

  /**
   * With distinct geocodes on both sides, the join has no more rows than
   * the smaller of its two inputs.
   */
  lemma JoinSizeUnique(shp: seq<Feature>, rs: seq<Row>)
    requires UniqueFeatureKeys(shp) && UniqueRowKeys(rs)
    ensures |InnerJoin(shp, rs)| <= |shp|
    ensures |InnerJoin(shp, rs)| <= |rs|
  {
    JoinAtMostLayer(shp, rs);
    var out := InnerJoin(shp, rs);
    JoinKeysDistinct(shp, rs);
    var ks := KeySeq(out);
    DistinctCard(ks);
    forall k | k in ks ensures k in RowKeys(rs) {
      var i :| 0 <= i < |ks| && ks[i] == k;
      assert out[i] in out;
      var f, r :| f in shp && r in rs && Match(f, r) && out[i] == Joined(f, r);
      assert out[i]["CVEGEO"] == r["CVEGEO"];
    }
    SubsetCard((set k | k in ks), RowKeys(rs));
    RowKeysCard(rs);
  }

  /** With distinct geocodes in the table, the join has at most one row per feature. */
  lemma {:induction false} JoinAtMostLayer(shp: seq<Feature>, rs: seq<Row>)
    requires UniqueRowKeys(rs)
    ensures |InnerJoin(shp, rs)| <= |shp|
    decreases |shp|
  {
    if shp != [] {
      MatchesAtMostOne(shp[0], rs);
      JoinAtMostLayer(shp[1..], rs);
    }
  }
}
