/** The administrative-unit layer (ver.py): the outline of all parcels together, plus one
    attribute record per administrative reference element. The elements are visited tag by
    tag in a fixed order; the loop remembers the latest name seen under each tag and names a
    unit's parent from it, and it writes only the first AX_Gemeinde and the first AX_KreisRegion. */
module Verwaltung {
  import opened Nas

  datatype AdminTag = Gemeinde | Bundesland | Regierungsbezirk | KreisRegion

  /** `tags`: the order in which the loop visits the four element kinds. */
  const Tags: seq<AdminTag> := [Gemeinde, Bundesland, Regierungsbezirk, KreisRegion]

  function TagIndex(tag: AdminTag): (i: nat)
    ensures i < |Tags| && Tags[i] == tag
  {
    match tag
    case Gemeinde => 0
    case Bundesland => 1
    case Regierungsbezirk => 2
    case KreisRegion => 3
  }

  /** `tag_names`: the `art` written for each tag. */
  function Art(tag: AdminTag): string {
    match tag
    case Gemeinde => "Gemeinde"
    case Bundesland => "Bundesland"
    case Regierungsbezirk => "Regierungsbezirk"
    case KreisRegion => "Kreis / kreisfreie Stadt"
  }

  /** The elements `root.findall` returns for each tag, in document order. */
  datatype AdminElements = AdminElements(
    gemeinden: seq<AdminUnit>,
    bundeslaender: seq<AdminUnit>,
    regierungsbezirke: seq<AdminUnit>,
    kreisRegionen: seq<AdminUnit>)
  {
    function Of(tag: AdminTag): seq<AdminUnit> {
      match tag
      case Gemeinde => gemeinden
      case Bundesland => bundeslaender
      case Regierungsbezirk => regierungsbezirke
      case KreisRegion => kreisRegionen
    }
  }

  /** `data[tag]`: the name and key of the latest element visited under a tag. */
  datatype Remembered = Remembered(name: string, schluessel: string)

  /** One row of the output layer: art, name, schluessel, uebaname, ueobjekt. */
  datatype AdminRecord = AdminRecord(art: string, name: string, schluessel: string, uebaname: string, ueobjekt: string)

  function NameOf(u: AdminUnit): string { u.bezeichnung.GetOr(Null) }

  function KeyOf(u: AdminUnit): string { u.schluesselGesamt.GetOr(Null) }

  function Memo(u: AdminUnit): Remembered { Remembered(NameOf(u), KeyOf(u)) }

  /** `data.get(tag, {}).get('name', '<null>')` */
  function RememberedName(data: map<AdminTag, Remembered>, tag: AdminTag): string {
    if tag in data then data[tag].name else Null
  }

  /** `uebaname`: the name remembered under the parent tag; a Bundesland has no parent. */
  function Uebaname(data: map<AdminTag, Remembered>, tag: AdminTag): (r: string)
    ensures tag == Bundesland ==> r == Null
    ensures tag == Gemeinde ==> r == RememberedName(data, KreisRegion)
    ensures tag == Regierungsbezirk ==> r == RememberedName(data, Bundesland)
    ensures tag == KreisRegion ==> r == RememberedName(data, Regierungsbezirk)
    ensures r == Null || exists p :: p != tag && p in data && data[p].name == r
  {
    match tag
    case Gemeinde => RememberedName(data, KreisRegion)
    case Bundesland => Null
    case Regierungsbezirk => RememberedName(data, Bundesland)
    case KreisRegion => RememberedName(data, Regierungsbezirk)
  }

  /** `ueobjekt`: "DE" and the first five (Gemeinde) or three (KreisRegion) characters of the key. */
  function Ueobjekt(tag: AdminTag, schluessel: string): (r: string)
    ensures tag == Bundesland || tag == Regierungsbezirk ==> r == Null
    ensures tag == Gemeinde ==>
      |r| == 2 + (if |schluessel| < 5 then |schluessel| else 5) && r == "DE" + schluessel[..|r| - 2]
    ensures tag == KreisRegion ==>
      |r| == 2 + (if |schluessel| < 3 then |schluessel| else 3) && r == "DE" + schluessel[..|r| - 2]
  {
    match tag
    case Gemeinde => "DE" + Take(schluessel, 5)
    case Bundesland => Null
    case Regierungsbezirk => Null
    case KreisRegion => "DE" + Take(schluessel, 3)
  }

  // ---------------------------------------------------------------------------------------
  // What the loop writes, stated per tag

  /** The name of the last element of a list, or "<null>" for an empty one. */
  function LastName(units: seq<AdminUnit>): string {
    if |units| == 0 then Null else NameOf(units[|units| - 1])
  }

  /** ver.py:88-136: the record of one element, given its parent's name. */
  function RecordOf(tag: AdminTag, u: AdminUnit, uebaname: string): (r: AdminRecord)
    ensures r.art == Art(tag) && r.uebaname == uebaname
    ensures r.name == u.bezeichnung.GetOr(Null) && r.schluessel == u.schluesselGesamt.GetOr(Null)
    ensures r.ueobjekt == Ueobjekt(tag, r.schluessel)
  {
    AdminRecord(Art(tag), NameOf(u), KeyOf(u), uebaname, Ueobjekt(tag, KeyOf(u)))
  }

  /** The parent name a record of `tag` carries once the loop has visited all elements: a
      Gemeinde is written before any KreisRegion is visited and a Bundesland has none; a
      Regierungsbezirk and a KreisRegion are written after every element of the tag before them. */
  function ParentName(e: AdminElements, tag: AdminTag): string {
    match tag
    case Gemeinde => Null
    case Bundesland => Null
    case Regierungsbezirk => LastName(e.bundeslaender)
    case KreisRegion => LastName(e.regierungsbezirke)
  }

  /** Only the first AX_Gemeinde and the first AX_KreisRegion are written. */
  predicate FirstOnly(tag: AdminTag) {
    tag == Gemeinde || tag == KreisRegion
  }

  /** The records written for the elements `units` of one tag. */
  function TagRecords(e: AdminElements, tag: AdminTag, units: seq<AdminUnit>): seq<AdminRecord> {
    if FirstOnly(tag) then
      (if |units| == 0 then [] else [RecordOf(tag, units[0], ParentName(e, tag))])
    else
      seq(|units|, i requires 0 <= i < |units| => RecordOf(tag, units[i], ParentName(e, tag)))
  }

  /** All records of the layer, in the order they are written. */
  function AdminRecords(e: AdminElements): seq<AdminRecord> {
    TagRecords(e, Gemeinde, e.gemeinden)
    + TagRecords(e, Bundesland, e.bundeslaender)
    + TagRecords(e, Regierungsbezirk, e.regierungsbezirke)
    + TagRecords(e, KreisRegion, e.kreisRegionen)
  }

  /** The records written for the first `t` tags. */
  function RecordsBefore(e: AdminElements, t: nat): seq<AdminRecord>
    requires t <= |Tags|
  {
    if t == 0 then [] else RecordsBefore(e, t - 1) + TagRecords(e, Tags[t - 1], e.Of(Tags[t - 1]))
  }

  /** `data` after the loop: for every tag with elements, the last of them. */
  function FinalData(e: AdminElements): map<AdminTag, Remembered> {
    map tag | tag in {Gemeinde, Bundesland, Regierungsbezirk, KreisRegion} && |e.Of(tag)| > 0
      :: Memo(e.Of(tag)[|e.Of(tag)| - 1])
  }

  // ---------------------------------------------------------------------------------------
  // The loop

  /** Invariant of `data` once the elements of the first `t` tags have been visited: it holds
      the last element of every such tag that has any. */
  predicate DataAfter(e: AdminElements, data: map<AdminTag, Remembered>, t: nat) {
    && (forall k :: k in data <==> TagIndex(k) < t && |e.Of(k)| > 0)
    && (forall k :: k in data ==> data[k] == Memo(e.Of(k)[|e.Of(k)| - 1]))
  }

  /** ver.py:83-136: visit the elements tag by tag, update `data` for every element, skip
      every Gemeinde and KreisRegion after the first, write a record for the rest. */
  method EmitAdminRecords(e: AdminElements) returns (records: seq<AdminRecord>, data: map<AdminTag, Remembered>)
    ensures records == AdminRecords(e)
    ensures data == FinalData(e)
  {
    records, data := [], map[];
    var firstGemeindeAdded, firstKreisAdded := false, false;
    for t := 0 to |Tags|
      invariant records == RecordsBefore(e, t)
      invariant DataAfter(e, data, t)
      invariant firstGemeindeAdded <==> Gemeinde in data
      invariant firstKreisAdded <==> KreisRegion in data
    {
      records, data, firstGemeindeAdded, firstKreisAdded :=
        VisitTag(e, t, records, data, firstGemeindeAdded, firstKreisAdded);
    }
    assert data == FinalData(e);
    RecordsBeforeAll(e);
  }

  /** Invariant of `data` while the elements of `Tags[t]` are visited, `i` of them so far:
      the last element of every earlier tag that has any, and the latest visited element of
      `Tags[t]`. */
  predicate DataDuring(e: AdminElements, data: map<AdminTag, Remembered>, t: nat, i: nat)
    requires t < |Tags|
  {
    && (forall k :: k in data <==> (TagIndex(k) < t && |e.Of(k)| > 0) || (k == Tags[t] && i > 0))
    && (forall k :: k in data && k != Tags[t] ==> data[k] == Memo(e.Of(k)[|e.Of(k)| - 1]))
    && (i > 0 ==> i <= |e.Of(Tags[t])| && Tags[t] in data && data[Tags[t]] == Memo(e.Of(Tags[t])[i - 1]))
  }

  /** The inner loop of ver.py:87-136 over the elements of `Tags[t]`. */
  method VisitTag(e: AdminElements, t: nat, records0: seq<AdminRecord>, data0: map<AdminTag, Remembered>,
                  firstGemeinde0: bool, firstKreis0: bool)
    returns (records: seq<AdminRecord>, data: map<AdminTag, Remembered>, firstGemeindeAdded: bool, firstKreisAdded: bool)
    requires t < |Tags| && DataAfter(e, data0, t)
    requires firstGemeinde0 <==> Gemeinde in data0
    requires firstKreis0 <==> KreisRegion in data0
    ensures records == records0 + TagRecords(e, Tags[t], e.Of(Tags[t]))
    ensures DataAfter(e, data, t + 1)
    ensures firstGemeindeAdded <==> Gemeinde in data
    ensures firstKreisAdded <==> KreisRegion in data
  {
    records, data, firstGemeindeAdded, firstKreisAdded := records0, data0, firstGemeinde0, firstKreis0;
    var tag := Tags[t];
    var elements := e.Of(tag);
    DataDuringStart(e, data, t);
    assert TagRecords(e, tag, elements[..0]) == [];
    for i := 0 to |elements|
      invariant records == records0 + TagRecords(e, tag, elements[..i])
      invariant DataDuring(e, data, t, i)
      invariant firstGemeindeAdded <==> Gemeinde in data
      invariant firstKreisAdded <==> KreisRegion in data
    {
      TagRecordsStep(e, tag, elements, i);
      records, data, firstGemeindeAdded, firstKreisAdded :=
        VisitElement(e, t, i, records, data, firstGemeindeAdded, firstKreisAdded);
    }
    assert elements[..|elements|] == elements;
    DataDuringDone(e, data, t);
  }

  /** The body of the inner loop for element `i` of `Tags[t]`: remember it, and write its
      record unless it is a second Gemeinde or KreisRegion. */
  method VisitElement(e: AdminElements, t: nat, i: nat, records0: seq<AdminRecord>, data0: map<AdminTag, Remembered>,
                      firstGemeinde0: bool, firstKreis0: bool)
    returns (records: seq<AdminRecord>, data: map<AdminTag, Remembered>, firstGemeindeAdded: bool, firstKreisAdded: bool)
    requires t < |Tags| && i < |e.Of(Tags[t])| && DataDuring(e, data0, t, i)
    requires firstGemeinde0 <==> Gemeinde in data0
    requires firstKreis0 <==> KreisRegion in data0
    ensures records == records0 + (if FirstOnly(Tags[t]) && i > 0 then [] else [RecordOf(Tags[t], e.Of(Tags[t])[i], ParentName(e, Tags[t]))])
    ensures DataDuring(e, data, t, i + 1)
    ensures firstGemeindeAdded <==> Gemeinde in data
    ensures firstKreisAdded <==> KreisRegion in data
  {
    records, data, firstGemeindeAdded, firstKreisAdded := records0, data0, firstGemeinde0, firstKreis0;
    var tag := Tags[t];
    var element := e.Of(tag)[i];
    var tagName := Art(tag);
    var name := if element.bezeichnung.Some? then element.bezeichnung.value else Null;
    var schluessel := if element.schluesselGesamt.Some? then element.schluesselGesamt.value else Null;
    var uebaname := Uebaname(data, tag);
    var ueobjekt := Ueobjekt(tag, schluessel);
    ParentFromData(e, data, t);
    assert Remembered(name, schluessel) == Memo(element);
    data := data[tag := Remembered(name, schluessel)];
    DataDuringStep(e, data0, t, i);
    if (tag == Gemeinde && firstGemeindeAdded) || (tag == KreisRegion && firstKreisAdded) {
      return;
    }
    if tag == Gemeinde {
      firstGemeindeAdded := true;
    } else if tag == KreisRegion {
      firstKreisAdded := true;
    }
    records := records + [AdminRecord(tagName, name, schluessel, uebaname, ueobjekt)];
  }

  /** Remembering element `i` of `Tags[t]` keeps the invariant for the next element. */
  lemma DataDuringStep(e: AdminElements, data: map<AdminTag, Remembered>, t: nat, i: nat)
    requires t < |Tags| && i < |e.Of(Tags[t])| && DataDuring(e, data, t, i)
    ensures DataDuring(e, data[Tags[t] := Memo(e.Of(Tags[t])[i])], t, i + 1)
  {
  }

  /** Before the first element of `Tags[t]`, `data` is as after the first `t` tags. */
  lemma DataDuringStart(e: AdminElements, data: map<AdminTag, Remembered>, t: nat)
    requires t < |Tags| && DataAfter(e, data, t)
    ensures DataDuring(e, data, t, 0)
  {
  }

  /** After the last element of `Tags[t]`, `data` is as after all of the first `t + 1` tags. */
  lemma DataDuringDone(e: AdminElements, data: map<AdminTag, Remembered>, t: nat)
    requires t < |Tags| && DataDuring(e, data, t, |e.Of(Tags[t])|)
    ensures DataAfter(e, data, t + 1)
  {
    forall k
      ensures TagIndex(k) < t + 1 <==> TagIndex(k) < t || k == Tags[t]
    {
      assert Tags[TagIndex(k)] == k;
    }
  }

  lemma RecordsBeforeAll(e: AdminElements)
    ensures RecordsBefore(e, |Tags|) == AdminRecords(e)
  {
    assert RecordsBefore(e, 1) == TagRecords(e, Gemeinde, e.gemeinden);
    assert RecordsBefore(e, 2) == RecordsBefore(e, 1) + TagRecords(e, Bundesland, e.bundeslaender);
    assert RecordsBefore(e, 3) == RecordsBefore(e, 2) + TagRecords(e, Regierungsbezirk, e.regierungsbezirke);
    assert RecordsBefore(e, 4) == RecordsBefore(e, 3) + TagRecords(e, KreisRegion, e.kreisRegionen);
  }

  /** While the elements of `Tags[t]` are visited, `data` holds the last element of every
      earlier tag, so the parent name read from it is the closed-form one. */
  lemma ParentFromData(e: AdminElements, data: map<AdminTag, Remembered>, t: nat)
    requires t < |Tags|
    requires forall k :: k != Tags[t] ==> (k in data <==> TagIndex(k) < t && |e.Of(k)| > 0)
    requires forall k :: k in data && k != Tags[t] ==> data[k] == Memo(e.Of(k)[|e.Of(k)| - 1])
    ensures Uebaname(data, Tags[t]) == ParentName(e, Tags[t])
  {
    assert TagIndex(KreisRegion) == 3 && TagIndex(Bundesland) == 1 && TagIndex(Regierungsbezirk) == 2;
  }

  /** One more element of a tag adds one record, except after the first element of a
      first-only tag. */
  lemma TagRecordsStep(e: AdminElements, tag: AdminTag, units: seq<AdminUnit>, i: nat)
    requires i < |units|
    ensures TagRecords(e, tag, units[..i + 1]) ==
      TagRecords(e, tag, units[..i]) + (if FirstOnly(tag) && i > 0 then [] else [RecordOf(tag, units[i], ParentName(e, tag))])
  {
    assert units[..i + 1][..i] == units[..i];
  }

  // ---------------------------------------------------------------------------------------
  // What the layer holds

  /** The number of records with a given `art`. */
  function CountArt(records: seq<AdminRecord>, art: string): (n: nat)
    ensures n <= |records|
    ensures n == 0 <==> forall r :: r in records ==> r.art != art
  {
    if |records| == 0 then 0
    else CountArt(records[..|records| - 1], art) + (if records[|records| - 1].art == art then 1 else 0)
  }

  lemma {:induction false} CountArtConcat(a: seq<AdminRecord>, b: seq<AdminRecord>, art: string)
    ensures CountArt(a + b, art) == CountArt(a, art) + CountArt(b, art)
  {
    if |b| > 0 {
      assert (a + b)[..|a + b| - 1] == a + b[..|b| - 1];
      CountArtConcat(a, b[..|b| - 1], art);
    } else {
      assert a + b == a;
    }
  }

  lemma {:induction false} CountArtUniform(records: seq<AdminRecord>, art: string)
    requires forall r :: r in records ==> r.art == art
    ensures CountArt(records, art) == |records|
  {
    if |records| > 0 {
      CountArtUniform(records[..|records| - 1], art);
    }
  }

  /** Every record of a tag carries that tag's art, and a first-only tag contributes at most one. */
  lemma TagRecordsArt(e: AdminElements, tag: AdminTag, other: AdminTag)
    ensures CountArt(TagRecords(e, tag, e.Of(tag)), Art(tag)) ==
      if !FirstOnly(tag) then |e.Of(tag)| else if |e.Of(tag)| == 0 then 0 else 1
    ensures other != tag ==> CountArt(TagRecords(e, tag, e.Of(tag)), Art(other)) == 0
  {
    CountArtUniform(TagRecords(e, tag, e.Of(tag)), Art(tag));
  }

  /** The layer holds at most one Gemeinde and at most one Kreis record, and one record for
      every Bundesland and every Regierungsbezirk. */
  lemma AdminRecordCounts(e: AdminElements)
    ensures CountArt(AdminRecords(e), Art(Gemeinde)) == if |e.gemeinden| == 0 then 0 else 1
    ensures CountArt(AdminRecords(e), Art(Bundesland)) == |e.bundeslaender|
    ensures CountArt(AdminRecords(e), Art(Regierungsbezirk)) == |e.regierungsbezirke|
    ensures CountArt(AdminRecords(e), Art(KreisRegion)) == if |e.kreisRegionen| == 0 then 0 else 1
  {
    CountOfArt(e, Gemeinde);
    CountOfArt(e, Bundesland);
    CountOfArt(e, Regierungsbezirk);
    CountOfArt(e, KreisRegion);
  }

  /** The records of one art all come from the elements of its tag. */
  lemma CountOfArt(e: AdminElements, tag: AdminTag)
    ensures CountArt(AdminRecords(e), Art(tag)) ==
      if !FirstOnly(tag) then |e.Of(tag)| else if |e.Of(tag)| == 0 then 0 else 1
  {
    var g, b, r, k := TagRecords(e, Gemeinde, e.gemeinden), TagRecords(e, Bundesland, e.bundeslaender),
      TagRecords(e, Regierungsbezirk, e.regierungsbezirke), TagRecords(e, KreisRegion, e.kreisRegionen);
    var art := Art(tag);
    CountArtConcat(g, b, art);
    CountArtConcat(g + b, r, art);
    CountArtConcat(g + b + r, k, art);
    TagRecordsArt(e, Gemeinde, tag);
    TagRecordsArt(e, Bundesland, tag);
    TagRecordsArt(e, Regierungsbezirk, tag);
    TagRecordsArt(e, KreisRegion, tag);
  }

  /** What each record says about its parent: a Gemeinde record is written before any
      KreisRegion is visited, so its parent name is always "<null>"; a Regierungsbezirk names
      the last Bundesland of the document and the Kreis record the last Regierungsbezirk; the
      Gemeinde and Kreis records carry "DE" and the first five or three key characters. */
  lemma AdminRecordParents(e: AdminElements, rec: AdminRecord)
    requires rec in AdminRecords(e)
    ensures rec.art == Art(Gemeinde) ==>
      rec == RecordOf(Gemeinde, e.gemeinden[0], Null) && rec.ueobjekt == "DE" + Take(rec.schluessel, 5)
    ensures rec.art == Art(Bundesland) ==> rec.uebaname == Null && rec.ueobjekt == Null
    ensures rec.art == Art(Regierungsbezirk) ==> rec.uebaname == LastName(e.bundeslaender) && rec.ueobjekt == Null
    ensures rec.art == Art(KreisRegion) ==>
      rec == RecordOf(KreisRegion, e.kreisRegionen[0], LastName(e.regierungsbezirke))
      && rec.ueobjekt == "DE" + Take(rec.schluessel, 3)
  {
    var tag :| tag in {Gemeinde, Bundesland, Regierungsbezirk, KreisRegion} && rec in TagRecords(e, tag, e.Of(tag));
    var i :| 0 <= i < |TagRecords(e, tag, e.Of(tag))| && TagRecords(e, tag, e.Of(tag))[i] == rec;
    assert rec == RecordOf(tag, e.Of(tag)[if FirstOnly(tag) then 0 else i], ParentName(e, tag));
    ArtNamesTag(tag);
  }

  /** Different tags are written with different `art` labels. */
  lemma ArtNamesTag(tag: AdminTag)
    ensures forall other :: Art(other) == Art(tag) ==> other == tag
  {
    forall other | other != tag
      ensures Art(other) != Art(tag)
    {
      assert Art(other)[0] != Art(tag)[0] || |Art(other)| != |Art(tag)|;
    }
  }

  /** ver.py:38-44: the exterior rings of the merged parcel geometry; anything but a polygon
      or a multipolygon raises TypeError before any record is written. */
  function ExteriorBoundaries(merged: Geometry): (r: Result<seq<Outline>>)
    ensures r.Err? <==> merged.OtherGeom?
    ensures r.Err? ==> r.error == TypeError
    ensures merged.PolygonGeom? ==> r == Ok([merged.exterior])
    ensures merged.MultiPolygonGeom? ==> r == Ok(merged.exteriors)
  {
    if merged.OtherGeom? then Err(TypeError) else Ok(Exteriors(merged))
  }

  /** The shapes and the records of the output shapefile. */
  datatype AdminLayer = AdminLayer(shapes: seq<Outline>, records: seq<AdminRecord>)

  /** ver.py:36-140: `merged` is what unary_union makes of the repaired parcel shapes. */
  method WriteAdminLayer(merged: Geometry, e: AdminElements) returns (r: Result<AdminLayer>)
    ensures r.Err? <==> merged.OtherGeom?
    ensures r.Err? ==> r.error == TypeError
    ensures r.Ok? ==> r.value.shapes == Exteriors(merged) && r.value.records == AdminRecords(e)
  {
    var boundaries := ExteriorBoundaries(merged);
    if boundaries.Err? {
      return Err(boundaries.error);
    }
    var records, _ := EmitAdminRecords(e);
    var shapes := WritePolys(boundaries.value);
    return Ok(AdminLayer(shapes, records));
  }

  /** ver.py:139-140: one shape per exterior boundary, in order. */
  method WritePolys(boundaries: seq<Outline>) returns (shapes: seq<Outline>)
    ensures shapes == boundaries
  {
    shapes := [];
    for j := 0 to |boundaries|
      invariant shapes == boundaries[..j]
    {
      shapes := shapes + [boundaries[j]];
    }
  }
}
