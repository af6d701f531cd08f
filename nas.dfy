/** Shared vocabulary of the NAS (ALKIS exchange format) converter scripts: optional values
    read from the XML tree, the Python exceptions the scripts raise, the "<null>" sentinel,
    the dictionaries the scripts fill in loops, and the opaque geometry handed back by shapely. */
module Nas {

  /** A value that an XPath `find` may not produce. */
  datatype Option<+T> = None | Some(value: T) {
    /** `x if x is not None else default` */
    function GetOr(default: T): T {
      match this
      case Some(v) => v
      case None => default
    }
  }

  /** The Python exceptions the scripts can raise on the paths modelled here. */
  datatype Error =
    | ValueError          // float() of a non-numeric coordinate token
    | IndexError          // coordinates[i + 1] past the end of an odd-length list
    | AttributeError      // `.text` of a `find` that found nothing; `.split` of None
    | UnboundLocalError   // a local read before any assignment
    | TypeError           // a merged geometry that is neither Polygon nor MultiPolygon

  datatype Result<+T> = Ok(value: T) | Err(error: Error)

  /** The sentinel every script writes for a missing attribute. */
  const Null: string := "<null>"

  /** Python truthiness of an optional element text: present and non-empty. */
  predicate Truthy(v: Option<string>) {
    v.Some? && v.value != ""
  }

  /** `d.get(k, default)` */
  function Get<K, V>(d: map<K, V>, k: K, default: V): V {
    if k in d then d[k] else default
  }

  /** An administrative reference element (AX_Bundesland, AX_Regierungsbezirk, AX_KreisRegion,
      AX_Gemeinde, AX_Gemarkung): the texts of its first `schluesselGesamt` and `bezeichnung`. */
  datatype AdminUnit = AdminUnit(schluesselGesamt: Option<string>, bezeichnung: Option<string>)

  /** An AX_LagebezeichnungMitHausnummer or AX_LagebezeichnungOhneHausnummer element:
      its gml:id attribute and the texts of its first `unverschluesselt` and `hausnummer`. */
  datatype Lagebezeichnung = Lagebezeichnung(
    gmlId: Option<string>, unverschluesselt: Option<string>, hausnummer: Option<string>)

  /** A 2-D point (x, y) in ETRS89 / UTM zone 32N. */
  type Point = (real, real)

  /** The coordinates of one exterior ring, as written to a shapefile. */
  type Outline = seq<Point>

  /** What shapely hands back from Polygon(...), buffer(0) or unary_union, reduced to the
      distinction the scripts make: one polygon, several, or anything else. */
  datatype Geometry =
    | PolygonGeom(exterior: Outline)
    | MultiPolygonGeom(exteriors: seq<Outline>)
    | OtherGeom

  /** The exterior outlines of a polygon or multipolygon, one per part. */
  function Exteriors(g: Geometry): seq<Outline>
  {
    match g
    case PolygonGeom(o) => [o]
    case MultiPolygonGeom(os) => os
    case OtherGeom => []
  }

  /** The dictionary a loop builds when, for each element in order, it either writes
      `d[k] = v` (a `Some((k, v))`) or leaves `d` alone (a `None`). */
  function Tabulate<K(==), V>(writes: seq<Option<(K, V)>>): map<K, V>
  {
    if |writes| == 0 then map[]
    else
      var d := Tabulate(writes[..|writes| - 1]);
      match writes[|writes| - 1]
      case None => d
      case Some(kv) => d[kv.0 := kv.1]
  }

  /** One more element: the dictionary so far, with that element's write applied. */
  lemma TabulateSnoc<K, V>(writes: seq<Option<(K, V)>>, w: Option<(K, V)>)
    ensures Tabulate(writes + [w]) == if w.Some? then Tabulate(writes)[w.value.0 := w.value.1] else Tabulate(writes)
  {
    assert (writes + [w])[..|writes|] == writes;
  }

  /** Element `i` of `writes` writes key `k`. */
  predicate Writes<K(==), V>(writes: seq<Option<(K, V)>>, i: int, k: K) {
    0 <= i < |writes| && writes[i].Some? && writes[i].value.0 == k
  }

  /** The last write wins: a key is in the dictionary iff some element writes it, and then
      its value is the one written by the last element that writes that key. */
  lemma {:induction false} TabulateLastWins<K, V>(writes: seq<Option<(K, V)>>, k: K)
    ensures k in Tabulate(writes) <==> exists i :: Writes(writes, i, k)
    ensures k in Tabulate(writes) ==>
      exists i :: Writes(writes, i, k) && writes[i].value.1 == Tabulate(writes)[k]
                  && forall j :: i < j < |writes| ==> !Writes(writes, j, k)
  {
    if |writes| == 0 {
      return;
    }
    var n := |writes| - 1;
    var prefix := writes[..n];
    TabulateLastWins(prefix, k);
    forall i | 0 <= i < n
      ensures Writes(prefix, i, k) <==> Writes(writes, i, k)
    {
      assert prefix[i] == writes[i];
    }
    if Writes(writes, n, k) {
      assert writes[n].value.1 == Tabulate(writes)[k];
    } else {
      assert Tabulate(writes).Keys == Tabulate(prefix).Keys || writes[n].Some?;
      if exists i :: Writes(writes, i, k) {
        var i :| Writes(writes, i, k);
        assert i < n && Writes(prefix, i, k);
      }
    }
  }

  /** Writes made after a prefix decide the keys they write: in `prefix + writes`, a key that
      `writes` sets ends with the value `writes` gives it. */
  lemma {:induction false} TabulateConcat<K, V>(prefix: seq<Option<(K, V)>>, writes: seq<Option<(K, V)>>, k: K)
    ensures k in Tabulate(writes) ==> k in Tabulate(prefix + writes) && Tabulate(prefix + writes)[k] == Tabulate(writes)[k]
  {
    if |writes| > 0 {
      var n := |writes| - 1;
      TabulateConcat(prefix, writes[..n], k);
      assert (prefix + writes)[..|prefix| + n] == prefix + writes[..n];
      assert (prefix + writes)[|prefix| + n] == writes[n];
    }
  }

  /** `pool.starmap(f, items)`, run one item after another: the results of `f` on every item,
      in item order; when some item raises, the whole call raises. This sequential model stops
      at the first failing item and reports its exception; the worker pool may surface the
      exception of another failing item. */
  method StarMap<A, B>(items: seq<A>, f: A -> Result<B>) returns (r: Result<seq<B>>)
    ensures r.Ok? <==> forall i :: 0 <= i < |items| ==> f(items[i]).Ok?
    ensures r.Ok? ==> |r.value| == |items|
    ensures r.Ok? ==> forall i :: 0 <= i < |items| ==> f(items[i]) == Ok(r.value[i])
    ensures r.Err? ==> exists i :: 0 <= i < |items| && f(items[i]) == Err(r.error)
                                   && forall j :: 0 <= j < i ==> f(items[j]).Ok?
  {
    var results: seq<B> := [];
    for i := 0 to |items|
      invariant |results| == i
      invariant forall j :: 0 <= j < i ==> f(items[j]) == Ok(results[j])
    {
      var result := f(items[i]);
      if result.Err? {
        return Err(result.error);
      }
      results := results + [result.value];
    }
    return Ok(results);
  }

  /** `href.split(":")[-1]`: the part of a cross-reference after its last colon. */
  function HrefSuffix(href: string): (r: string)
    ensures |r| <= |href| && r == href[|href| - |r|..]
    ensures ':' !in r
    ensures |r| < |href| ==> href[|href| - |r| - 1] == ':'
  {
    if |href| == 0 then ""
    else if href[|href| - 1] == ':' then ""
    else HrefSuffix(href[..|href| - 1]) + [href[|href| - 1]]
  }

  /** An NAS cross-reference `urn:adv:oid:<id>` resolves to the gml:id it names. */
  lemma HrefSuffixOfReference(scheme: string, id: string)
    requires ':' !in id
    ensures HrefSuffix(scheme + ":" + id) == id
  {
    var href := scheme + ":" + id;
    var r := HrefSuffix(href);
    assert href[|href| - |id| - 1] == ':';
    assert forall k :: 0 <= k < |id| ==> href[|href| - |id| + k] == id[k] != ':';
    assert |r| == |id|;
    assert href[|href| - |id|..] == id;
  }

  /** Python's slice `s[:n]`, which is all of `s` when `s` is shorter than `n`. */
  function Take(s: string, n: nat): (r: string)
    ensures |r| == if |s| < n then |s| else n
    ensures r == s[..|r|]
  {
    if |s| <= n then s else s[..n]
  }

  /** Python's slice `s[n:]`, which is empty when `s` is shorter than `n`. */
  function Drop(s: string, n: nat): (r: string)
    ensures |r| == if |s| < n then 0 else |s| - n
    ensures |s| >= n ==> r == s[n..]
  {
    if |s| <= n then "" else s[n..]
  }
}
