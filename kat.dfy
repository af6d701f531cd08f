/** The cadastral-district layer (kat.py): the parcel layer is read back, its rows are grouped
    by gemarkung, each group's parcels are merged into one boundary, and every part of that
    boundary is written twice: once as the Gemarkung and once as its single Flur. */
module Kataster {
  import opened Nas

  /** One row of the parcel layer as geopandas reads it back: the gemarkung and gemeinde
      names and the parcel key, which is missing where the parcel had none. The row's
      geometry is only ever handed to the merge, so the model leaves it to that parameter. */
  datatype ParcelRow = ParcelRow(gemarkung: string, gemeinde: string, flstkennz: Option<string>)

  // ---------------------------------------------------------------------------------------
  // The order in which groupby visits the groups: the distinct keys, sorted as Python
  // compares strings (code point by code point, a proper prefix first).

  predicate StrLess(a: string, b: string)
    decreases |a|
  {
    if |a| == 0 then |b| > 0
    else if |b| == 0 then false
    else if a[0] != b[0] then a[0] < b[0]
    else StrLess(a[1..], b[1..])
  }

  lemma {:induction false} StrLessIrreflexive(a: string)
    ensures !StrLess(a, a)
    decreases |a|
  {
    if |a| > 0 {
      StrLessIrreflexive(a[1..]);
    }
  }

  lemma {:induction false} StrLessTotal(a: string, b: string)
    ensures a == b || StrLess(a, b) || StrLess(b, a)
    decreases |a|
  {
    if |a| > 0 && |b| > 0 && a[0] == b[0] {
      StrLessTotal(a[1..], b[1..]);
      if a[1..] == b[1..] {
        assert a == [a[0]] + a[1..] && b == [b[0]] + b[1..];
      }
    }
  }

  lemma {:induction false} StrLessTransitive(a: string, b: string, c: string)
    requires StrLess(a, b) && StrLess(b, c)
    ensures StrLess(a, c)
    decreases |a|
  {
    if |a| > 0 && a[0] == b[0] && b[0] == c[0] {
      StrLessTransitive(a[1..], b[1..], c[1..]);
    }
  }

  predicate StrictlySorted(keys: seq<string>) {
    forall i, j :: 0 <= i < j < |keys| ==> StrLess(keys[i], keys[j])
  }

  /** Adding one key to a sorted list of distinct keys. */
  function InsertKey(keys: seq<string>, k: string): (r: seq<string>)
    ensures forall x :: x in r <==> x in keys || x == k
  {
    if |keys| == 0 then [k]
    else if StrLess(k, keys[0]) then [k] + keys
    else if k == keys[0] then keys
    else [keys[0]] + InsertKey(keys[1..], k)
  }

  lemma {:induction false} InsertKeySorted(keys: seq<string>, k: string)
    requires StrictlySorted(keys)
    ensures StrictlySorted(InsertKey(keys, k))
  {
    if |keys| == 0 || StrLess(k, keys[0]) {
      if |keys| > 0 {
        forall j | 0 < j < |keys|
          ensures StrLess(k, keys[j])
        {
          StrLessTransitive(k, keys[0], keys[j]);
        }
      }
    } else if k != keys[0] {
      var tail := keys[1..];
      InsertKeySorted(tail, k);
      StrLessTotal(k, keys[0]);
      var r := InsertKey(keys, k);
      assert r == [keys[0]] + InsertKey(tail, k);
      forall j | 0 < j < |r|
        ensures StrLess(keys[0], r[j])
      {
        assert r[j] in InsertKey(tail, k);
        if r[j] != k {
          var m :| 0 <= m < |tail| && tail[m] == r[j];
          assert keys[m + 1] == r[j];
        }
      }
    }
  }

  /** The keys `groupby('gemarkung')` visits: every gemarkung of the rows, once each, sorted. */
  function Gemarkungen(rows: seq<ParcelRow>): (keys: seq<string>)
    ensures forall x :: x in keys <==> exists i :: 0 <= i < |rows| && rows[i].gemarkung == x
  {
    if |rows| == 0 then []
    else
      var n := |rows| - 1;
      var keys := Gemarkungen(rows[..n]);
      assert forall i :: 0 <= i < n ==> rows[..n][i] == rows[i];
      InsertKey(keys, rows[n].gemarkung)
  }

  lemma {:induction false} GemarkungenSorted(rows: seq<ParcelRow>)
    ensures StrictlySorted(Gemarkungen(rows))
  {
    if |rows| > 0 {
      var n := |rows| - 1;
      GemarkungenSorted(rows[..n]);
      InsertKeySorted(Gemarkungen(rows[..n]), rows[n].gemarkung);
    }
  }

  /** The rows of one group, in their order in the layer. */
  function GroupOf(rows: seq<ParcelRow>, key: string): (group: seq<ParcelRow>)
    ensures |group| <= |rows|
    ensures forall r :: r in group <==> r in rows && r.gemarkung == key
  {
    if |rows| == 0 then []
    else if rows[0].gemarkung == key then [rows[0]] + GroupOf(rows[1..], key)
    else GroupOf(rows[1..], key)
  }

  /** `group.iloc[0]` is the first row of the layer that carries the group's key. */
  lemma {:induction false} GroupStartsAtFirstRow(rows: seq<ParcelRow>, key: string, i: nat)
    requires i < |rows| && rows[i].gemarkung == key
    requires forall j :: 0 <= j < i ==> rows[j].gemarkung != key
    ensures |GroupOf(rows, key)| > 0 && GroupOf(rows, key)[0] == rows[i]
  {
    if i > 0 {
      GroupStartsAtFirstRow(rows[1..], key, i - 1);
    }
  }

  // ---------------------------------------------------------------------------------------
  // The key: `flstkennz.split('___')[0]`

  /** The delimiter `___` starts at position `i` of `s`. */
  predicate DelimiterAt(s: string, i: int) {
    0 <= i && i + 3 <= |s| && s[i] == '_' && s[i + 1] == '_' && s[i + 2] == '_'
  }

  /** The part of a parcel key before its first `___`, or all of it. */
  function Schluessel(flstkennz: string): (r: string)
    ensures |r| <= |flstkennz| && r == flstkennz[..|r|]
  {
    if |flstkennz| < 3 then flstkennz
    else if DelimiterAt(flstkennz, 0) then ""
    else [flstkennz[0]] + Schluessel(flstkennz[1..])
  }

  /** Either no delimiter occurs and the key is the whole string, or the key ends where the
      first delimiter begins. */
  lemma {:induction false} SchluesselBeforeFirstDelimiter(s: string)
    ensures forall i :: 0 <= i < |Schluessel(s)| ==> !DelimiterAt(s, i)
    ensures |Schluessel(s)| == |s| || DelimiterAt(s, |Schluessel(s)|)
  {
    if |s| >= 3 && !DelimiterAt(s, 0) {
      var t := s[1..];
      SchluesselBeforeFirstDelimiter(t);
      forall i | 1 <= i < |Schluessel(s)|
        ensures !DelimiterAt(s, i)
      {
        assert !DelimiterAt(t, i - 1);
      }
      if |Schluessel(t)| < |t| {
        assert DelimiterAt(t, |Schluessel(t)|);
      }
    }
  }

  /** A parcel key written as district, delimiter and parcel part gives back the district. */
  lemma {:induction false} SchluesselOfKey(district: string, rest: string)
    requires '_' !in district
    ensures Schluessel(district + "___" + rest) == district
  {
    var s := district + "___" + rest;
    if |district| == 0 {
      assert DelimiterAt(s, 0);
    } else {
      assert s[1..] == district[1..] + "___" + rest;
      assert !DelimiterAt(s, 0) by { assert s[0] == district[0]; }
      SchluesselOfKey(district[1..], rest);
      assert [district[0]] + district[1..] == district;
    }
  }

  // ---------------------------------------------------------------------------------------
  // The groupby loop (kat.py:22-38)

  /** `gemarkung_data[gemarkung]` */
  datatype GroupData = GroupData(gemeinde: string, schluessel: string)

  /** The two dictionaries the loop fills. Both get the same keys in the same order, so one
      sequence holds the insertion order that `.items()` follows. */
  datatype Grouped = Grouped(order: seq<string>, boundaries: map<string, Geometry>, data: map<string, GroupData>)

  /** The sample a group contributes: gemeinde and key of its first row. `iloc[0]` of an
      empty group raises IndexError (groupby never forms one); splitting a missing parcel key
      raises AttributeError. */
  function SampleData(group: seq<ParcelRow>): (r: Result<GroupData>)
    ensures r.Err? <==> |group| == 0 || group[0].flstkennz.None?
    ensures r.Err? ==> r.error == (if |group| == 0 then IndexError else AttributeError)
    ensures r.Ok? ==> r.value.gemeinde == group[0].gemeinde && r.value.schluessel <= group[0].flstkennz.value
  {
    if |group| == 0 then Err(IndexError)
    else
      match group[0].flstkennz
      case None => Err(AttributeError)
      case Some(s) => Ok(GroupData(group[0].gemeinde, Schluessel(s)))
  }

  /** A merged geometry that is neither a polygon nor a multipolygon skips its group. */
  predicate Skipped(merged: Geometry) {
    merged.OtherGeom?
  }

  /** The dictionaries after the groups of `keys`; the first failing sample aborts the script. */
  function GroupingOf(rows: seq<ParcelRow>, keys: seq<string>, merge: seq<ParcelRow> -> Geometry): Result<Grouped> {
    if |keys| == 0 then Ok(Grouped([], map[], map[]))
    else
      var n := |keys| - 1;
      var key := keys[n];
      var group := GroupOf(rows, key);
      match GroupingOf(rows, keys[..n], merge)
      case Err(e) => Err(e)
      case Ok(g) =>
        if Skipped(merge(group)) then Ok(g)
        else
          match SampleData(group)
          case Err(e) => Err(e)
          case Ok(d) => Ok(Grouped(g.order + [key], g.boundaries[key := merge(group)], g.data[key := d]))
  }

  /** Every key in the order has a boundary and a sample. */
  predicate Complete(g: Grouped) {
    forall k :: k in g.order ==> k in g.boundaries && k in g.data
  }

  /** A finished grouping holds exactly the groups of `keys` that were not skipped. */
  lemma {:induction false} GroupingMembers(rows: seq<ParcelRow>, keys: seq<string>, merge: seq<ParcelRow> -> Geometry)
    requires GroupingOf(rows, keys, merge).Ok?
    ensures forall k :: k in GroupingOf(rows, keys, merge).value.order <==> k in keys && !Skipped(merge(GroupOf(rows, k)))
  {
    if |keys| > 0 {
      var n := |keys| - 1;
      assert keys == keys[..n] + [keys[n]];
      GroupingMembers(rows, keys[..n], merge);
    }
  }

  /** ... and keeps them in the order of the keys, each once. */
  lemma {:induction false} GroupingSorted(rows: seq<ParcelRow>, keys: seq<string>, merge: seq<ParcelRow> -> Geometry)
    requires StrictlySorted(keys)
    requires GroupingOf(rows, keys, merge).Ok?
    ensures StrictlySorted(GroupingOf(rows, keys, merge).value.order)
  {
    if |keys| > 0 {
      var n := |keys| - 1;
      var key := keys[n];
      assert keys == keys[..n] + [key];
      GroupingSorted(rows, keys[..n], merge);
      GroupingMembers(rows, keys[..n], merge);
      var g := GroupingOf(rows, keys[..n], merge).value;
      forall i | 0 <= i < |g.order|
        ensures StrLess(g.order[i], key)
      {
        assert g.order[i] in g.order;
        assert g.order[i] in keys[..n];
        var m :| 0 <= m < n && keys[..n][m] == g.order[i];
        assert keys[m] == g.order[i];
      }
    }
  }

  /** Each group in a finished grouping has its merged boundary and the sample of its first row. */
  lemma {:induction false} GroupingValues(rows: seq<ParcelRow>, keys: seq<string>, merge: seq<ParcelRow> -> Geometry)
    requires GroupingOf(rows, keys, merge).Ok?
    ensures Complete(GroupingOf(rows, keys, merge).value)
    ensures forall k :: k in GroupingOf(rows, keys, merge).value.order ==>
      |GroupOf(rows, k)| > 0
      && GroupingOf(rows, keys, merge).value.boundaries[k] == merge(GroupOf(rows, k))
      && Ok(GroupingOf(rows, keys, merge).value.data[k]) == SampleData(GroupOf(rows, k))
  {
    if |keys| > 0 {
      GroupingValues(rows, keys[..|keys| - 1], merge);
    }
  }

  /** Every key groupby produces has at least one row. */
  lemma GemarkungenGroups(rows: seq<ParcelRow>, k: string)
    requires k in Gemarkungen(rows)
    ensures |GroupOf(rows, k)| > 0
  {
    var i :| 0 <= i < |rows| && rows[i].gemarkung == k;
    assert rows[i] in GroupOf(rows, k);
  }

  /** The script fails iff some Gemarkung whose merged geometry is not skipped has a first row
      without a parcel key (kat.py:34-37). */
  lemma KatasterAborts(rows: seq<ParcelRow>, merge: seq<ParcelRow> -> Geometry)
    ensures KatasterOf(rows, merge).Err? <==>
      exists k :: k in Gemarkungen(rows) && !Skipped(merge(GroupOf(rows, k)))
                  && |GroupOf(rows, k)| > 0 && GroupOf(rows, k)[0].flstkennz.None?
  {
    forall k | k in Gemarkungen(rows)
      ensures |GroupOf(rows, k)| > 0
    {
      GemarkungenGroups(rows, k);
    }
    GroupingAborts(rows, Gemarkungen(rows), merge);
  }

  /** Once aborted, the grouping stays aborted with the same exception. */
  lemma {:induction false} GroupingErrSticks(rows: seq<ParcelRow>, keys: seq<string>, n: nat, merge: seq<ParcelRow> -> Geometry)
    requires n <= |keys| && GroupingOf(rows, keys[..n], merge).Err?
    ensures GroupingOf(rows, keys, merge) == GroupingOf(rows, keys[..n], merge)
    decreases |keys|
  {
    if n < |keys| {
      var m := |keys| - 1;
      assert keys[..m][..n] == keys[..n];
      GroupingErrSticks(rows, keys[..m], n, merge);
    } else {
      assert keys[..n] == keys;
    }
  }

  /** The grouping aborts iff some group that is not skipped has no parcel key in its first row. */
  lemma {:induction false} GroupingAborts(rows: seq<ParcelRow>, keys: seq<string>, merge: seq<ParcelRow> -> Geometry)
    requires forall k :: k in keys ==> |GroupOf(rows, k)| > 0
    ensures GroupingOf(rows, keys, merge).Err? <==>
      exists k :: k in keys && !Skipped(merge(GroupOf(rows, k))) && GroupOf(rows, k)[0].flstkennz.None?
  {
    if |keys| > 0 {
      var n := |keys| - 1;
      var prefix := keys[..n];
      assert keys == prefix + [keys[n]];
      assert forall k :: k in prefix ==> k in keys;
      GroupingAborts(rows, prefix, merge);
      if exists k :: k in keys && !Skipped(merge(GroupOf(rows, k))) && GroupOf(rows, k)[0].flstkennz.None? {
        var k :| k in keys && !Skipped(merge(GroupOf(rows, k))) && GroupOf(rows, k)[0].flstkennz.None?;
        if k != keys[n] {
          assert k in prefix;
        }
      }
    }
  }

  /** The groupby loop: visit the groups in key order, skip a group whose merge is neither a
      polygon nor a multipolygon, and remember the boundary and the first row's sample. */
  method GroupParcels(rows: seq<ParcelRow>, merge: seq<ParcelRow> -> Geometry) returns (r: Result<Grouped>)
    ensures r == GroupingOf(rows, Gemarkungen(rows), merge)
  {
    var keys := Gemarkungen(rows);
    var order: seq<string> := [];
    var boundaries: map<string, Geometry> := map[];
    var data: map<string, GroupData> := map[];
    for t := 0 to |keys|
      invariant GroupingOf(rows, keys[..t], merge) == Ok(Grouped(order, boundaries, data))
    {
      assert keys[..t + 1][..t] == keys[..t];
      var gemarkung := keys[t];
      var group := GroupOf(rows, gemarkung);
      var merged := merge(group);
      if Skipped(merged) {
        continue;
      }
      boundaries := boundaries[gemarkung := merged];
      if |group| == 0 || group[0].flstkennz.None? {
        GroupingErrSticks(rows, keys, t + 1, merge);
        return Err(if |group| == 0 then IndexError else AttributeError);
      }
      var sample := group[0];
      data := data[gemarkung := GroupData(sample.gemeinde, Schluessel(sample.flstkennz.value))];
      order := order + [gemarkung];
    }
    assert keys[..|keys|] == keys;
    return Ok(Grouped(order, boundaries, data));
  }

  // ---------------------------------------------------------------------------------------
  // The record-emission loop (kat.py:52-71)

  /** One row of the output layer: oid_1, art, name, schluessel, gemeinde. */
  datatype KatRecord = KatRecord(oid: string, art: string, name: string, schluessel: string, gemeinde: string)

  /** The outlines written with `w.poly` and the rows written with `w.record`, in order. */
  datatype KatLayer = KatLayer(shapes: seq<Outline>, records: seq<KatRecord>)

  function Append(a: KatLayer, b: KatLayer): KatLayer {
    KatLayer(a.shapes + b.shapes, a.records + b.records)
  }

  /** The row a part gets as the Gemarkung itself. */
  function GemarkungRecord(gemarkung: string, d: GroupData): (r: KatRecord)
    ensures r.art == "Gemarkung" && r.name == gemarkung
    ensures r.schluessel == d.schluessel && r.oid == "DE" + r.schluessel && r.gemeinde == d.gemeinde
  {
    KatRecord("DE" + d.schluessel, "Gemarkung", gemarkung, d.schluessel, d.gemeinde)
  }

  /** The row a part gets as the Gemarkung's single Flur. */
  function FlurRecord(d: GroupData): (r: KatRecord)
    ensures r.art == "Gemarkungsteil / Flur" && r.name == "Flur"
    ensures r.schluessel == d.schluessel + "00" && r.oid == "DE" + r.schluessel + "0" && r.gemeinde == d.gemeinde
  {
    KatRecord("DE" + d.schluessel + "000", "Gemarkungsteil / Flur", "Flur", d.schluessel + "00", d.gemeinde)
  }

  function Repeat<T>(x: T, k: nat): (r: seq<T>)
    ensures |r| == k && forall i :: 0 <= i < k ==> r[i] == x
  {
    seq(k, _ => x)
  }

  /** One batch: every part of the boundary with the same row. */
  function Batch(boundary: Geometry, rec: KatRecord): (b: KatLayer)
    ensures b.shapes == Exteriors(boundary) && |b.records| == |b.shapes|
    ensures forall i :: 0 <= i < |b.records| ==> b.records[i] == rec
  {
    var parts := Exteriors(boundary);
    KatLayer(parts, Repeat(rec, |parts|))
  }

  /** What one group writes: a boundary of k parts is written as k Gemarkung rows and then k
      Flur rows, 2k in all (2 for a polygon), and the Flur batch repeats the outlines of the
      Gemarkung batch in the same order. */
  function GroupLayer(gemarkung: string, boundary: Geometry, d: GroupData): (layer: KatLayer)
    ensures |layer.records| == |layer.shapes| == 2 * |Exteriors(boundary)|
    ensures boundary.PolygonGeom? ==> |layer.records| == 2
    ensures forall i :: 0 <= i < |Exteriors(boundary)| ==>
      layer.records[i] == GemarkungRecord(gemarkung, d) && layer.shapes[i] == Exteriors(boundary)[i]
    ensures forall j :: |Exteriors(boundary)| <= j < 2 * |Exteriors(boundary)| ==>
      layer.records[j] == FlurRecord(d) && layer.shapes[j] == Exteriors(boundary)[j - |Exteriors(boundary)|]
  {
    Append(Batch(boundary, GemarkungRecord(gemarkung, d)), Batch(boundary, FlurRecord(d)))
  }

  /** What the groups of `order` write, one after the other. */
  function LayerOf(g: Grouped, order: seq<string>): KatLayer
    requires forall k :: k in order ==> k in g.boundaries && k in g.data
  {
    if |order| == 0 then KatLayer([], [])
    else
      var n := |order| - 1;
      var k := order[n];
      Append(LayerOf(g, order[..n]), GroupLayer(k, g.boundaries[k], g.data[k]))
  }

  /** The whole script: the groups in key order, or the exception of the first bad sample. */
  function KatasterOf(rows: seq<ParcelRow>, merge: seq<ParcelRow> -> Geometry): Result<KatLayer> {
    match GroupingOf(rows, Gemarkungen(rows), merge)
    case Err(e) => Err(e)
    case Ok(g) =>
      GroupingValues(rows, Gemarkungen(rows), merge);
      Ok(LayerOf(g, g.order))
  }

  /** The records of one batch, written one part at a time (kat.py:55-62 and 64-71). */
  method WriteBatch(boundary: Geometry, rec: KatRecord, layer0: KatLayer) returns (layer: KatLayer)
    ensures layer == Append(layer0, Batch(boundary, rec))
  {
    layer := layer0;
    match boundary {
      case PolygonGeom(exterior) =>
        layer := KatLayer(layer.shapes + [exterior], layer.records + [rec]);
      case MultiPolygonGeom(exteriors) =>
        for p := 0 to |exteriors|
          invariant layer == Append(layer0, KatLayer(exteriors[..p], Repeat(rec, p)))
        {
          assert exteriors[..p + 1] == exteriors[..p] + [exteriors[p]];
          assert Repeat(rec, p + 1) == Repeat(rec, p) + [rec];
          layer := KatLayer(layer.shapes + [exteriors[p]], layer.records + [rec]);
        }
        assert exteriors[..|exteriors|] == exteriors;
      case OtherGeom =>
    }
  }

  lemma LayerOfNext(g: Grouped, order: seq<string>, t: nat)
    requires t < |order| && forall k :: k in order ==> k in g.boundaries && k in g.data
    ensures LayerOf(g, order[..t + 1]) ==
      Append(Append(LayerOf(g, order[..t]), Batch(g.boundaries[order[t]], GemarkungRecord(order[t], g.data[order[t]]))),
             Batch(g.boundaries[order[t]], FlurRecord(g.data[order[t]])))
  {
    assert order[..t + 1][..t] == order[..t];
  }

  /** The emission loop over `gemarkung_boundaries.items()`. */
  method EmitKataster(g: Grouped) returns (layer: KatLayer)
    requires Complete(g)
    ensures layer == LayerOf(g, g.order)
  {
    layer := KatLayer([], []);
    for t := 0 to |g.order|
      invariant layer == LayerOf(g, g.order[..t])
    {
      layer := EmitGroup(g, t, layer);
    }
    assert g.order[..|g.order|] == g.order;
  }

  /** The body of the emission loop: the Gemarkung batch, then the Flur batch of one group. */
  method EmitGroup(g: Grouped, t: nat, layer0: KatLayer) returns (layer: KatLayer)
    requires Complete(g) && t < |g.order|
    requires layer0 == LayerOf(g, g.order[..t])
    ensures layer == LayerOf(g, g.order[..t + 1])
  {
    LayerOfNext(g, g.order, t);
    var gemarkung := g.order[t];
    var boundary := g.boundaries[gemarkung];
    var d := g.data[gemarkung];
    layer := WriteBatch(boundary, GemarkungRecord(gemarkung, d), layer0);
    layer := WriteBatch(boundary, FlurRecord(d), layer);
  }

  /** kat.py:14-71 after the layer has been read: group, merge, sample, emit. */
  method Kataster(rows: seq<ParcelRow>, merge: seq<ParcelRow> -> Geometry) returns (r: Result<KatLayer>)
    ensures r == KatasterOf(rows, merge)
  {
    var grouped := GroupParcels(rows, merge);
    if grouped.Err? {
      return Err(grouped.error);
    }
    GroupingValues(rows, Gemarkungen(rows), merge);
    var layer := EmitKataster(grouped.value);
    return Ok(layer);
  }

  /** The number of boundary parts of the groups of `order`. */
  function PartCount(g: Grouped, order: seq<string>): nat
    requires forall k :: k in order ==> k in g.boundaries
  {
    if |order| == 0 then 0
    else PartCount(g, order[..|order| - 1]) + |Exteriors(g.boundaries[order[|order| - 1]])|
  }

  /** Two rows and two outlines per part, and as many outlines as rows. */
  lemma {:induction false} LayerOfCounts(g: Grouped, order: seq<string>)
    requires forall k :: k in order ==> k in g.boundaries && k in g.data
    ensures |LayerOf(g, order).records| == |LayerOf(g, order).shapes| == 2 * PartCount(g, order)
  {
    if |order| > 0 {
      var n := |order| - 1;
      assert forall k :: k in order[..n] ==> k in order;
      LayerOfCounts(g, order[..n]);
    }
  }

  /** Every row is the Gemarkung row or the Flur row of one of the groups of `order`. */
  lemma {:induction false} LayerOfRecords(g: Grouped, order: seq<string>)
    requires forall k :: k in order ==> k in g.boundaries && k in g.data
    ensures forall rec :: rec in LayerOf(g, order).records ==>
      exists k :: k in order && (rec == GemarkungRecord(k, g.data[k]) || rec == FlurRecord(g.data[k]))
  {
    if |order| > 0 {
      var n := |order| - 1;
      var prefix := order[..n];
      assert forall k :: k in prefix ==> k in order;
      LayerOfRecords(g, prefix);
      var last := order[n];
      var more := GroupLayer(last, g.boundaries[last], g.data[last]).records;
      forall rec | rec in LayerOf(g, order).records
        ensures exists k :: k in order && (rec == GemarkungRecord(k, g.data[k]) || rec == FlurRecord(g.data[k]))
      {
        if rec !in LayerOf(g, prefix).records {
          assert rec in more;
          var i :| 0 <= i < |more| && more[i] == rec;
          assert i < |Exteriors(g.boundaries[last])| ==> rec == GemarkungRecord(last, g.data[last]);
        }
      }
    }
  }

  /** The groups are written in key order, and they are exactly the gemarkungen whose merge
      is a polygon or a multipolygon. */
  lemma GroupsInKeyOrder(rows: seq<ParcelRow>, merge: seq<ParcelRow> -> Geometry)
    requires KatasterOf(rows, merge).Ok?
    ensures var g := GroupingOf(rows, Gemarkungen(rows), merge).value;
      && StrictlySorted(g.order)
      && (forall k :: k in g.order <==> (exists i :: 0 <= i < |rows| && rows[i].gemarkung == k) && !Skipped(merge(GroupOf(rows, k))))
  {
    GemarkungenSorted(rows);
    GroupingSorted(rows, Gemarkungen(rows), merge);
    GroupingMembers(rows, Gemarkungen(rows), merge);
  }

  /** A skipped gemarkung, like one no row carries, gets no Gemarkung row. */
  lemma SkippedWritesNothing(rows: seq<ParcelRow>, merge: seq<ParcelRow> -> Geometry, key: string)
    requires KatasterOf(rows, merge).Ok?
    requires Skipped(merge(GroupOf(rows, key)))
    ensures forall rec :: rec in KatasterOf(rows, merge).value.records && rec.art == "Gemarkung" ==> rec.name != key
  {
    var g := GroupingOf(rows, Gemarkungen(rows), merge).value;
    GroupingValues(rows, Gemarkungen(rows), merge);
    GroupingMembers(rows, Gemarkungen(rows), merge);
    LayerOfRecords(g, g.order);
    forall rec | rec in KatasterOf(rows, merge).value.records && rec.art == "Gemarkung"
      ensures rec.name != key
    {
      var k :| k in g.order && (rec == GemarkungRecord(k, g.data[k]) || rec == FlurRecord(g.data[k]));
      assert rec != FlurRecord(g.data[k]) by {
        assert FlurRecord(g.data[k]).art != "Gemarkung" by {
          assert |FlurRecord(g.data[k]).art| != |"Gemarkung"|;
        }
      }
    }
  }

  /** A group that is written takes its gemeinde and key from its first row. */
  lemma SampleFromFirstRow(rows: seq<ParcelRow>, merge: seq<ParcelRow> -> Geometry, i: nat)
    requires KatasterOf(rows, merge).Ok?
    requires i < |rows| && forall j :: 0 <= j < i ==> rows[j].gemarkung != rows[i].gemarkung
    requires !Skipped(merge(GroupOf(rows, rows[i].gemarkung)))
    ensures var g := GroupingOf(rows, Gemarkungen(rows), merge).value;
      && rows[i].gemarkung in g.order
      && rows[i].gemarkung in g.data
      && rows[i].flstkennz.Some?
      && g.data[rows[i].gemarkung] == GroupData(rows[i].gemeinde, Schluessel(rows[i].flstkennz.value))
  {
    var key := rows[i].gemarkung;
    GroupingMembers(rows, Gemarkungen(rows), merge);
    GroupingValues(rows, Gemarkungen(rows), merge);
    GroupStartsAtFirstRow(rows, key, i);
  }
}
