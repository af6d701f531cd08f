/** The parcel layer (flurstueck.py): lookup tables built once from the administrative
    reference elements of the document, then one attribute record per AX_Flurstueck,
    resolved through composite keys and xlink cross-references with "<null>" for every miss. */
module Flurstueck {
  import opened Nas
  import opened Coordinates

  /** The AX_Gemeindekennzeichen block of a parcel: the texts of its four code elements. */
  datatype Gemeindekennzeichen = Gemeindekennzeichen(
    land: Option<string>, regierungsbezirk: Option<string>, kreis: Option<string>, gemeinde: Option<string>)
  {
    /** All four `.find(...).text` calls of flurstueck.py:96-99 find their element. */
    predicate Complete() {
      land.Some? && regierungsbezirk.Some? && kreis.Some? && gemeinde.Some?
    }
  }

  /** One AX_Flurstueck element as the converter reads it. `weistAuf` is the xlink:href of the
      first weistAuf element that has one, `zeigtAuf` likewise. */
  datatype Parcel = Parcel(
    posLists: seq<seq<Token>>,
    amtlicheFlaeche: Option<string>,
    flurstueckskennzeichen: Option<string>,
    zaehler: Option<string>,
    nenner: Option<string>,
    gemeindekennzeichen: Option<Gemeindekennzeichen>,
    gemarkungsnummer: Option<string>,
    weistAuf: Option<string>,
    zeigtAuf: Option<string>)

  /** The parts of the document flurstueck.py reads, each list in document order. */
  datatype Document = Document(
    kreisRegionen: seq<AdminUnit>,
    regierungsbezirke: seq<AdminUnit>,
    gemeinden: seq<AdminUnit>,
    bundeslaender: seq<AdminUnit>,
    gemarkungen: seq<AdminUnit>,
    mitHausnummer: seq<Lagebezeichnung>,
    ohneHausnummer: seq<Lagebezeichnung>,
    flurstuecke: seq<Parcel>)

  /** The six lookup dictionaries of process_flurstueck. The location-text dictionary is keyed
      by the gml:id attribute, which an element may lack (Python's None key). */
  datatype Tables = Tables(
    kreis: map<string, string>,
    regbezirk: map<string, string>,
    gemeinde: map<string, string>,
    land: map<string, string>,
    gemarkung: map<string, string>,
    lagebeztxt: map<Option<string>, string>)

  /** The dictionary process_single_flurstueck returns for one parcel. */
  datatype ParcelRecord = ParcelRecord(
    geometry: seq<Point>,
    flaeche: Option<string>,
    flstkennz: Option<string>,
    flur: string,
    flurstnr: string,
    gmdschl: Option<string>,
    regbezirk: string,
    kreis: string,
    gemeinde: string,
    land: string,
    gemarkung: string,
    lagebeztxt: string)

  // ---------------------------------------------------------------------------------------
  // Parcel number and municipality key

  /** create_flurstnr: `zaehler/nenner` when the denominator is truthy, else the counter alone. */
  function CreateFlurstnr(zaehler: string, nenner: Option<string>): (r: string)
    ensures |r| >= |zaehler| && r[..|zaehler|] == zaehler
    ensures |r| == |zaehler| <==> !Truthy(nenner)
    ensures Truthy(nenner) ==> r[|zaehler|] == '/' && r[|zaehler| + 1..] == nenner.value
  {
    if Truthy(nenner) then zaehler + "/" + nenner.value else zaehler
  }

  /** Reading a parcel number back: the counter is everything before the first '/', the
      denominator everything after it. */
  function SplitFlurstnr(s: string): (r: (string, Option<string>))
    ensures r.1.None? ==> r.0 == s && '/' !in s
    ensures r.1.Some? ==> s == r.0 + "/" + r.1.value && '/' !in r.0
  {
    if |s| == 0 then ("", None)
    else if s[0] == '/' then ("", Some(s[1..]))
    else
      var rest := SplitFlurstnr(s[1..]);
      ([s[0]] + rest.0, rest.1)
  }

  /** A counter without '/' and the denominator, if truthy, are recovered from the parcel number. */
  lemma {:induction false} FlurstnrRoundTrip(zaehler: string, nenner: Option<string>)
    requires '/' !in zaehler
    ensures SplitFlurstnr(CreateFlurstnr(zaehler, nenner)) == (zaehler, if Truthy(nenner) then nenner else None)
  {
    var s := CreateFlurstnr(zaehler, nenner);
    if |zaehler| > 0 {
      FlurstnrRoundTrip(zaehler[1..], nenner);
      assert s[0] == zaehler[0] != '/';
      assert s[1..] == CreateFlurstnr(zaehler[1..], nenner);
      var rest := SplitFlurstnr(s[1..]);
      assert rest.0 == zaehler[1..];
      assert SplitFlurstnr(s) == ([s[0]] + rest.0, rest.1);
      assert [zaehler[0]] + zaehler[1..] == zaehler;
    } else if Truthy(nenner) {
      assert s == "/" + nenner.value;
      assert s[1..] == nenner.value;
    }
  }

  /** create_gmdschl: land + regierungsbezirk + kreis + gemeinde with no separator. */
  function CreateGmdschl(land: string, regierungsbezirk: string, kreis: string, gemeinde: string): (r: string)
    ensures |r| == |land| + |regierungsbezirk| + |kreis| + |gemeinde|
    ensures var a, b, c := |land|, |land| + |regierungsbezirk|, |land| + |regierungsbezirk| + |kreis|;
            r[..a] == land && r[a..b] == regierungsbezirk && r[b..c] == kreis && r[c..] == gemeinde
  {
    land + regierungsbezirk + kreis + gemeinde
  }

  /** The codes back from a municipality key whose parts have the AdV widths 2, 1, 2 and 3. */
  function SplitGmdschl(key: string): (string, string, string, string)
    requires |key| == 8
  {
    (key[..2], key[2..3], key[3..5], key[5..])
  }

  lemma GmdschlRoundTrip(land: string, regierungsbezirk: string, kreis: string, gemeinde: string)
    requires |land| == 2 && |regierungsbezirk| == 1 && |kreis| == 2 && |gemeinde| == 3
    ensures |CreateGmdschl(land, regierungsbezirk, kreis, gemeinde)| == 8
    ensures SplitGmdschl(CreateGmdschl(land, regierungsbezirk, kreis, gemeinde)) == (land, regierungsbezirk, kreis, gemeinde)
  {
    var key := CreateGmdschl(land, regierungsbezirk, kreis, gemeinde);
    assert key[..2] == land;
    assert key[2..3] == regierungsbezirk;
    assert key[3..5] == kreis;
    assert key[5..] == gemeinde;
  }

  // ---------------------------------------------------------------------------------------
  // Lookup tables

  /** The write one administrative element contributes to create_lookup_dict / find_regbezirk:
      only when both its key and its label element exist. */
  function LabelWrite(u: AdminUnit): Option<(string, string)> {
    if u.schluesselGesamt.Some? && u.bezeichnung.Some? then Some((u.schluesselGesamt.value, u.bezeichnung.value)) else None
  }

  function LabelWrites(units: seq<AdminUnit>): (w: seq<Option<(string, string)>>)
    ensures |w| == |units|
    ensures forall i :: 0 <= i < |units| ==> w[i] == LabelWrite(units[i])
  {
    seq(|units|, i requires 0 <= i < |units| => LabelWrite(units[i]))
  }

  /** create_lookup_dict: loop over the elements of one tag, writing `key -> label`. */
  method CreateLookupDict(elements: seq<AdminUnit>) returns (d: map<string, string>)
    ensures d == Tabulate(LabelWrites(elements))
  {
    d := map[];
    for i := 0 to |elements|
      invariant d == Tabulate(LabelWrites(elements[..i]))
    {
      var key, value := elements[i].schluesselGesamt, elements[i].bezeichnung;
      if key.Some? && value.Some? {
        d := d[key.value := value.value];
      }
      assert LabelWrites(elements[..i + 1])[..i] == LabelWrites(elements[..i]);
    }
    assert elements[..|elements|] == elements;
  }

  /** find_regbezirk: the same loop over the AX_Regierungsbezirk elements. */
  method FindRegbezirk(regierungsbezirke: seq<AdminUnit>) returns (d: map<string, string>)
    ensures d == Tabulate(LabelWrites(regierungsbezirke))
  {
    d := CreateLookupDict(regierungsbezirke);
  }

  /** An AX_KreisRegion that has a key but no label: find_kreis dereferences the missing label. */
  predicate KeyWithoutLabel(u: AdminUnit) {
    u.schluesselGesamt.Some? && u.bezeichnung.None?
  }

  predicate KreisTableBuilds(regions: seq<AdminUnit>) {
    forall i :: 0 <= i < |regions| ==> !KeyWithoutLabel(regions[i])
  }

  /** find_kreis: like create_lookup_dict, but an element with a key and no label raises. */
  method FindKreis(regions: seq<AdminUnit>) returns (r: Result<map<string, string>>)
    ensures r.Ok? <==> KreisTableBuilds(regions)
    ensures r.Err? ==> r.error == AttributeError
    ensures r.Ok? ==> r.value == Tabulate(LabelWrites(regions))
  {
    var d: map<string, string> := map[];
    for i := 0 to |regions|
      invariant KreisTableBuilds(regions[..i])
      invariant d == Tabulate(LabelWrites(regions[..i]))
    {
      var key := regions[i].schluesselGesamt;
      if key.Some? {
        var name := regions[i].bezeichnung;
        if name.None? {
          return Err(AttributeError);
        }
        d := d[key.value := name.value];
      }
      assert LabelWrites(regions[..i + 1])[..i] == LabelWrites(regions[..i]);
      assert regions[..i + 1][i] == regions[i];
    }
    assert regions[..|regions|] == regions;
    return Ok(d);
  }

  /** A key is in a lookup table iff some element carries that key together with a label, and
      the label stored is that of the last such element in document order. */
  lemma LookupTableEntry(elements: seq<AdminUnit>, key: string)
    ensures key in Tabulate(LabelWrites(elements)) <==>
      exists i :: 0 <= i < |elements| && elements[i].schluesselGesamt == Some(key) && elements[i].bezeichnung.Some?
    ensures key in Tabulate(LabelWrites(elements)) ==>
      exists i :: 0 <= i < |elements| && elements[i].schluesselGesamt == Some(key)
                  && elements[i].bezeichnung == Some(Tabulate(LabelWrites(elements))[key])
                  && forall j :: i < j < |elements| ==> LabelWrite(elements[j]).None? || elements[j].schluesselGesamt != Some(key)
  {
    var w := LabelWrites(elements);
    TabulateLastWins(w, key);
    if key in Tabulate(w) {
      var i :| Writes(w, i, key) && w[i].value.1 == Tabulate(w)[key]
                && forall j :: i < j < |w| ==> !Writes(w, j, key);
      forall j | i < j < |elements|
        ensures LabelWrite(elements[j]).None? || elements[j].schluesselGesamt != Some(key)
      {
        assert !Writes(w, j, key);
      }
    }
    if exists i :: 0 <= i < |elements| && elements[i].schluesselGesamt == Some(key) && elements[i].bezeichnung.Some? {
      var i :| 0 <= i < |elements| && elements[i].schluesselGesamt == Some(key) && elements[i].bezeichnung.Some?;
      assert Writes(w, i, key);
    }
  }

  /** The location text an AX_Lagebezeichnung* element contributes: "text number", "text",
      or "<null>" when it has no `unverschluesselt` at all. */
  function LageText(e: Lagebezeichnung): (r: string)
    ensures e.unverschluesselt.None? ==> r == Null
    ensures e.unverschluesselt.Some? ==>
      var text := e.unverschluesselt.value;
      && |r| >= |text| && r[..|text|] == text
      && (e.hausnummer.None? ==> |r| == |text|)
      && (e.hausnummer.Some? ==> r[|text|..] == " " + e.hausnummer.value)
  {
    match e.unverschluesselt
    case None => Null
    case Some(text) =>
      match e.hausnummer
      case Some(number) => text + " " + number
      case None => text
  }

  function LageWrites(elements: seq<Lagebezeichnung>): (w: seq<Option<(Option<string>, string)>>)
    ensures |w| == |elements|
    ensures forall i :: 0 <= i < |elements| ==> w[i] == Some((elements[i].gmlId, LageText(elements[i])))
  {
    seq(|elements|, i requires 0 <= i < |elements| => Some((elements[i].gmlId, LageText(elements[i]))))
  }

  /** create_lagebeztxt_dict: every element writes its text under its gml:id, the
      AX_LagebezeichnungMitHausnummer elements first and the ...OhneHausnummer ones after them. */
  method CreateLagebeztxtDict(mit: seq<Lagebezeichnung>, ohne: seq<Lagebezeichnung>)
    returns (d: map<Option<string>, string>)
    ensures d == Tabulate(LageWrites(mit + ohne))
  {
    d := map[];
    var tags := [mit, ohne];
    ghost var visited: seq<Lagebezeichnung> := [];
    for t := 0 to |tags|
      invariant visited == if t == 0 then [] else if t == 1 then mit else mit + ohne
      invariant d == Tabulate(LageWrites(visited))
    {
      d := WriteLageTexts(d, visited, tags[t]);
      visited := visited + tags[t];
    }
  }

  /** The inner loop of create_lagebeztxt_dict over the elements of one tag. */
  method WriteLageTexts(d0: map<Option<string>, string>, ghost visited: seq<Lagebezeichnung>, elements: seq<Lagebezeichnung>)
    returns (d: map<Option<string>, string>)
    requires d0 == Tabulate(LageWrites(visited))
    ensures d == Tabulate(LageWrites(visited + elements))
  {
    d := d0;
    assert visited + elements[..0] == visited;
    for i := 0 to |elements|
      invariant d == Tabulate(LageWrites(visited + elements[..i]))
    {
      var element := elements[i];
      var text;
      if element.unverschluesselt.Some? {
        if element.hausnummer.Some? {
          text := element.unverschluesselt.value + " " + element.hausnummer.value;
        } else {
          text := element.unverschluesselt.value;
        }
      } else {
        text := Null;
      }
      assert text == LageText(element);
      LageWritesSnoc(visited + elements[..i], element);
      assert visited + elements[..i + 1] == visited + elements[..i] + [element];
      d := d[element.gmlId := text];
    }
    assert elements[..|elements|] == elements;
  }

  lemma LageWritesSnoc(visited: seq<Lagebezeichnung>, e: Lagebezeichnung)
    ensures Tabulate(LageWrites(visited + [e])) == Tabulate(LageWrites(visited))[e.gmlId := LageText(e)]
  {
    assert LageWrites(visited + [e])[..|visited|] == LageWrites(visited);
  }

  lemma LageWritesConcat(a: seq<Lagebezeichnung>, b: seq<Lagebezeichnung>)
    ensures LageWrites(a + b) == LageWrites(a) + LageWrites(b)
  {
    forall k | 0 <= k < |a + b|
      ensures LageWrites(a + b)[k] == (LageWrites(a) + LageWrites(b))[k]
    {
      if k < |a| {
        assert (a + b)[k] == a[k];
      } else {
        assert (a + b)[k] == b[k - |a|];
      }
    }
  }

  /** An id written by some AX_LagebezeichnungOhneHausnummer element gets its text from the
      last such element, whatever the ...MitHausnummer elements say. */
  lemma OhneHausnummerOverwrites(mit: seq<Lagebezeichnung>, ohne: seq<Lagebezeichnung>, id: Option<string>)
    requires exists j :: 0 <= j < |ohne| && ohne[j].gmlId == id
    ensures id in Tabulate(LageWrites(mit + ohne)) && id in Tabulate(LageWrites(ohne))
    ensures Tabulate(LageWrites(mit + ohne))[id] == Tabulate(LageWrites(ohne))[id]
  {
    var late := LageWrites(ohne);
    var j :| 0 <= j < |ohne| && ohne[j].gmlId == id;
    assert Writes(late, j, id);
    TabulateLastWins(late, id);
    LageWritesConcat(mit, ohne);
    TabulateConcat(LageWrites(mit), late, id);
  }

  // ---------------------------------------------------------------------------------------
  // Resolving one parcel

  /** The location text of a parcel: only the weistAuf reference is consulted when there is
      one, the zeigtAuf reference otherwise; the key is the href after its last colon. */
  function LocationText(weistAuf: Option<string>, zeigtAuf: Option<string>, table: map<Option<string>, string>): (r: string)
    ensures r == Null || r in table.Values
    ensures weistAuf.Some? ==> r == Get(table, Some(HrefSuffix(weistAuf.value)), Null)
    ensures weistAuf.None? && zeigtAuf.Some? ==> r == Get(table, Some(HrefSuffix(zeigtAuf.value)), Null)
  {
    if weistAuf.Some? then Get(table, Some(HrefSuffix(weistAuf.value)), Null)
    else if zeigtAuf.Some? then Get(table, Some(HrefSuffix(zeigtAuf.value)), Null)
    else Null
  }

  /** A parcel that carries a weistAuf reference gets the same location text whatever its
      zeigtAuf reference says, and one that carries neither gets "<null>". */
  lemma LocationTextPrecedence(weistAuf: Option<string>, zeigtAuf: Option<string>, other: Option<string>, table: map<Option<string>, string>)
    ensures weistAuf.Some? ==> LocationText(weistAuf, zeigtAuf, table) == LocationText(weistAuf, other, table)
    ensures weistAuf.None? && zeigtAuf.None? ==> LocationText(weistAuf, zeigtAuf, table) == Null
  {
  }

  /** A reference `urn:adv:oid:<id>` looks up exactly the element whose gml:id is `<id>`. */
  lemma LocationTextResolves(scheme: string, id: string, zeigtAuf: Option<string>, table: map<Option<string>, string>)
    requires ':' !in id
    ensures LocationText(Some(scheme + ":" + id), zeigtAuf, table) == Get(table, Some(id), Null)
    ensures LocationText(None, Some(scheme + ":" + id), table) == Get(table, Some(id), Null)
  {
    HrefSuffixOfReference(scheme, id);
  }

  /** A label is either the sentinel or a value found in the table it was looked up in. */
  predicate FromTable<K>(text: string, table: map<K, string>) {
    text == Null || text in table.Values
  }

  predicate LabelsFromTables(r: ParcelRecord, t: Tables) {
    && FromTable(r.regbezirk, t.regbezirk)
    && FromTable(r.kreis, t.kreis)
    && FromTable(r.gemeinde, t.gemeinde)
    && FromTable(r.land, t.land)
    && FromTable(r.gemarkung, t.gemarkung)
    && FromTable(r.lagebeztxt, t.lagebeztxt)
  }

  /** Every administrative label and the municipality key are absent. */
  predicate AdminLabelsNull(r: ParcelRecord) {
    r.gmdschl.None? && r.regbezirk == Null && r.kreis == Null && r.gemeinde == Null
    && r.land == Null && r.gemarkung == Null
  }

  /** process_single_flurstueck as its authors evidently meant it: a parcel without an
      AX_Gemeindekennzeichen block has no municipality key and "<null>" for every
      administrative label. With the block present it is the code as written. */
  function ResolveParcel(p: Parcel, t: Tables): (r: Result<ParcelRecord>)
    ensures r.Ok? <==> AllReadable(p.posLists) && p.zaehler.Some?
                       && (p.gemeindekennzeichen.Some? ==> p.gemeindekennzeichen.value.Complete())
    ensures r.Ok? ==> r.value.flur == "Flur" && LabelsFromTables(r.value, t)
    ensures r.Ok? ==> (r.value.gmdschl.None? <==> p.gemeindekennzeichen.None?)
    ensures r.Ok? && p.gemeindekennzeichen.None? ==> AdminLabelsNull(r.value)
    ensures r.Ok? && r.value.gmdschl.Some? ==> r.value.gemeinde == Get(t.gemeinde, r.value.gmdschl.value, Null)
  {
    match ReadPosLists(p.posLists)
    case Err(e) => Err(e)
    case Ok(polygon) =>
      if p.zaehler.None? then Err(AttributeError)
      else
        var flurstnr := CreateFlurstnr(p.zaehler.value, p.nenner);
        var lagebeztxt := LocationText(p.weistAuf, p.zeigtAuf, t.lagebeztxt);
        match p.gemeindekennzeichen
        case None =>
          Ok(ParcelRecord(polygon, p.amtlicheFlaeche, p.flurstueckskennzeichen, "Flur", flurstnr,
                          None, Null, Null, Null, Null, Null, lagebeztxt))
        case Some(gk) =>
          if !gk.Complete() then Err(AttributeError)
          else
            var land, regierungsbezirk := gk.land.value, gk.regierungsbezirk.value;
            var kreis, gemeindeCode := gk.kreis.value, gk.gemeinde.value;
            var gmdschl := CreateGmdschl(land, regierungsbezirk, kreis, gemeindeCode);
            var mergedValue := land + regierungsbezirk + kreis;
            var kreisBezeichnung := Get(t.kreis, mergedValue, Null);
            var regbezirkBezeichnung :=
              if land != "" && regierungsbezirk != "" then Get(t.regbezirk, land + regierungsbezirk, Null) else Null;
            var gemeinde := Get(t.gemeinde, mergedValue + gemeindeCode, Null);
            var landName := if land != "" then Get(t.land, land, Null) else Null;
            var gemarkung :=
              if p.gemarkungsnummer.Some? then Get(t.gemarkung, land + p.gemarkungsnummer.value, Null) else Null;
            Ok(ParcelRecord(polygon, p.amtlicheFlaeche, p.flurstueckskennzeichen, "Flur", flurstnr,
                            Some(gmdschl), regbezirkBezeichnung, kreisBezeichnung, gemeinde, landName,
                            gemarkung, lagebeztxt))
  }

  /** process_single_flurstueck as written: without an AX_Gemeindekennzeichen block the name
      `kreis` is never bound, so building the kreis key raises UnboundLocalError. */
  function ProcessSingleFlurstueck(p: Parcel, t: Tables): (r: Result<ParcelRecord>)
    ensures r.Ok? <==> AllReadable(p.posLists) && p.zaehler.Some?
                       && p.gemeindekennzeichen.Some? && p.gemeindekennzeichen.value.Complete()
    ensures r.Ok? ==> r.value.flur == "Flur" && LabelsFromTables(r.value, t) && r.value.gmdschl.Some?
    ensures r.Ok? ==> r.value.gemeinde == Get(t.gemeinde, r.value.gmdschl.value, Null)
  {
    if AllReadable(p.posLists) && p.zaehler.Some? && p.gemeindekennzeichen.None? then
      Err(UnboundLocalError)
    else
      ResolveParcel(p, t)
  }

  /** The two readings differ only on parcels without an AX_Gemeindekennzeichen block that
      would otherwise resolve: the code as written raises there, the intended one does not. */
  lemma ParcelReadingsAgree(p: Parcel, t: Tables)
    ensures p.gemeindekennzeichen.Some? ==> ProcessSingleFlurstueck(p, t) == ResolveParcel(p, t)
    ensures p.gemeindekennzeichen.None? && ResolveParcel(p, t).Ok? ==>
      ProcessSingleFlurstueck(p, t) == Err(UnboundLocalError)
    ensures p.gemeindekennzeichen.None? && ResolveParcel(p, t).Err? ==>
      ProcessSingleFlurstueck(p, t) == ResolveParcel(p, t)
  {
  }

  /** The errors of one parcel, in the order the code meets them. */
  lemma ParcelErrors(p: Parcel, t: Tables)
    ensures !AllReadable(p.posLists) ==>
      ProcessSingleFlurstueck(p, t) == Err(ValueError) || ProcessSingleFlurstueck(p, t) == Err(IndexError)
    ensures AllReadable(p.posLists) && p.zaehler.None? ==> ProcessSingleFlurstueck(p, t) == Err(AttributeError)
    ensures AllReadable(p.posLists) && p.zaehler.Some? && p.gemeindekennzeichen.None? ==>
      ProcessSingleFlurstueck(p, t) == Err(UnboundLocalError)
  {
    if !AllReadable(p.posLists) {
      var e := ReadPosLists(p.posLists).error;
      var i :| 0 <= i < |p.posLists| && ExtractCoordinates(p.posLists[i]) == Err(e);
    }
  }

  /** The three composite keys of a resolved parcel are prefixes of one concatenation: the
      kreis key is the first three codes, the gemeinde key all four, which is the emitted
      municipality key itself. */
  lemma ParcelKeys(p: Parcel, t: Tables)
    requires ProcessSingleFlurstueck(p, t).Ok?
    ensures var gk := p.gemeindekennzeichen.value;
            var r := ProcessSingleFlurstueck(p, t).value;
            var kreisKey := gk.land.value + gk.regierungsbezirk.value + gk.kreis.value;
            && r.gmdschl == Some(kreisKey + gk.gemeinde.value)
            && r.kreis == Get(t.kreis, r.gmdschl.value[..|kreisKey|], Null)
            && r.gemeinde == Get(t.gemeinde, r.gmdschl.value, Null)
  {
    var gk := p.gemeindekennzeichen.value;
    var kreisKey := gk.land.value + gk.regierungsbezirk.value + gk.kreis.value;
    assert (kreisKey + gk.gemeinde.value)[..|kreisKey|] == kreisKey;
  }

  // ---------------------------------------------------------------------------------------
  // The parcel layer

  /** The tables process_flurstueck builds, when find_kreis does not raise. */
  function DocTables(doc: Document): Tables {
    Tables(
      Tabulate(LabelWrites(doc.kreisRegionen)),
      Tabulate(LabelWrites(doc.regierungsbezirke)),
      Tabulate(LabelWrites(doc.gemeinden)),
      Tabulate(LabelWrites(doc.bundeslaender)),
      Tabulate(LabelWrites(doc.gemarkungen)),
      Tabulate(LageWrites(doc.mitHausnummer + doc.ohneHausnummer)))
  }

  predicate AllParcelsResolve(doc: Document) {
    forall i :: 0 <= i < |doc.flurstuecke| ==> ProcessSingleFlurstueck(doc.flurstuecke[i], DocTables(doc)).Ok?
  }

  /** process_flurstueck: build the tables, then resolve every parcel in document order (the
      worker pool's starmap keeps that order). Any failure aborts the whole layer. */
  method ProcessFlurstueck(doc: Document) returns (r: Result<seq<ParcelRecord>>)
    ensures r.Ok? <==> KreisTableBuilds(doc.kreisRegionen) && AllParcelsResolve(doc)
    ensures r.Ok? ==> |r.value| == |doc.flurstuecke|
    ensures r.Ok? ==> forall i :: 0 <= i < |r.value| ==>
      ProcessSingleFlurstueck(doc.flurstuecke[i], DocTables(doc)) == Ok(r.value[i])
    ensures r.Err? ==> ((!KreisTableBuilds(doc.kreisRegionen) && r.error == AttributeError)
      || exists i :: 0 <= i < |doc.flurstuecke| && ProcessSingleFlurstueck(doc.flurstuecke[i], DocTables(doc)) == Err(r.error))
  {
    var kreis := FindKreis(doc.kreisRegionen);
    if kreis.Err? {
      return Err(kreis.error);
    }
    var regbezirk := FindRegbezirk(doc.regierungsbezirke);
    var gemeinde := CreateLookupDict(doc.gemeinden);
    var land := CreateLookupDict(doc.bundeslaender);
    var gemarkung := CreateLookupDict(doc.gemarkungen);
    var lagebeztxt := CreateLagebeztxtDict(doc.mitHausnummer, doc.ohneHausnummer);
    var tables := Tables(kreis.value, regbezirk, gemeinde, land, gemarkung, lagebeztxt);
    assert tables == DocTables(doc);
    r := ResolveParcels(doc.flurstuecke, tables);
  }

  /** The worker pool's starmap of process_single_flurstueck over the parcels, in order; the
      first failure aborts. */
  method ResolveParcels(parcels: seq<Parcel>, tables: Tables) returns (r: Result<seq<ParcelRecord>>)
    ensures r.Ok? <==> forall i :: 0 <= i < |parcels| ==> ProcessSingleFlurstueck(parcels[i], tables).Ok?
    ensures r.Ok? ==> |r.value| == |parcels|
    ensures r.Ok? ==> forall i :: 0 <= i < |r.value| ==> ProcessSingleFlurstueck(parcels[i], tables) == Ok(r.value[i])
    ensures r.Err? ==> exists i :: 0 <= i < |parcels| && ProcessSingleFlurstueck(parcels[i], tables) == Err(r.error)
  {
    r := StarMap(parcels, p => ProcessSingleFlurstueck(p, tables));
  }

  /** The other fields of a resolved parcel: its points are those of its posLists, area and
      parcel key are copied, the parcel number is built from counter and denominator, and each
      label is a lookup that falls back to "<null>" when the key is missing from its table or,
      for the district and the state, when a code it is built from is empty. */
  lemma ParcelFields(p: Parcel, t: Tables)
    requires ResolveParcel(p, t).Ok?
    ensures var r := ResolveParcel(p, t).value;
            && Flatten(r.geometry) == Concat(p.posLists)
            && r.flaeche == p.amtlicheFlaeche && r.flstkennz == p.flurstueckskennzeichen
            && r.flurstnr == CreateFlurstnr(p.zaehler.value, p.nenner)
            && r.lagebeztxt == LocationText(p.weistAuf, p.zeigtAuf, t.lagebeztxt)
    ensures p.gemeindekennzeichen.Some? ==>
            var gk := p.gemeindekennzeichen.value;
            var r := ResolveParcel(p, t).value;
            && (gk.land.value == "" || gk.regierungsbezirk.value == "" ==> r.regbezirk == Null)
            && (gk.land.value != "" && gk.regierungsbezirk.value != "" ==>
                  r.regbezirk == Get(t.regbezirk, gk.land.value + gk.regierungsbezirk.value, Null))
            && (gk.land.value == "" ==> r.land == Null)
            && (gk.land.value != "" ==> r.land == Get(t.land, gk.land.value, Null))
            && (p.gemarkungsnummer.None? ==> r.gemarkung == Null)
            && (p.gemarkungsnummer.Some? ==> r.gemarkung == Get(t.gemarkung, gk.land.value + p.gemarkungsnummer.value, Null))
  {
  }

  // ---------------------------------------------------------------------------------------
  // A parcel with counter 5, no denominator and no administrative-code block

  function EmptyTables(): Tables {
    Tables(map[], map[], map[], map[], map[], map[])
  }

  function ParcelFive(): Parcel {
    Parcel([], None, None, Some("5"), None, None, None, None, None)
  }

  /** As written, the parcel raises instead of producing a record. */
  lemma ParcelFiveAsWritten()
    ensures ProcessSingleFlurstueck(ParcelFive(), EmptyTables()) == Err(UnboundLocalError)
  {
  }

  /** As intended, it yields parcel number "5", no municipality key and "<null>" labels. */
  lemma ParcelFiveIntended()
    ensures ResolveParcel(ParcelFive(), EmptyTables()).Ok?
    ensures var r := ResolveParcel(ParcelFive(), EmptyTables()).value;
            r.flurstnr == "5" && AdminLabelsNull(r) && r.lagebeztxt == Null
  {
  }
}
