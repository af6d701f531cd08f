/** The building layer (guby.py): one polygon and one attribute record for every AX_Gebaeude
    and every AX_SonstigesBauwerkOderSonstigeEinrichtung whose posLists yield any point. The
    location text comes from a cache of the AX_LagebezeichnungMitHausnummer elements. */
module Gebaeude {
  import opened Nas
  import opened Coordinates

  // ---------------------------------------------------------------------------------------
  // Python's str.strip()

  /** The characters str.isspace() accepts. */
  predicate IsSpace(c: char) {
    || c == ' ' || c == '\t' || c == '\n' || c == '\r' || c == '\U{0B}' || c == '\U{0C}'
    || ('\U{1C}' <= c <= '\U{1F}') || c == '\U{85}' || c == '\U{A0}' || c == '\U{1680}'
    || ('\U{2000}' <= c <= '\U{200A}') || c == '\U{2028}' || c == '\U{2029}' || c == '\U{202F}'
    || c == '\U{205F}' || c == '\U{3000}'
  }

  /** A string that neither starts nor ends with whitespace. */
  predicate Stripped(s: string) {
    |s| == 0 || (!IsSpace(s[0]) && !IsSpace(s[|s| - 1]))
  }

  function TrimLeft(s: string): (r: string)
    ensures |r| <= |s| && r == s[|s| - |r|..]
    ensures forall i :: 0 <= i < |s| - |r| ==> IsSpace(s[i])
    ensures |r| > 0 ==> !IsSpace(r[0])
  {
    if |s| > 0 && IsSpace(s[0]) then TrimLeft(s[1..]) else s
  }

  function TrimRight(s: string): (r: string)
    ensures |r| <= |s| && r == s[..|r|]
    ensures forall i :: |r| <= i < |s| ==> IsSpace(s[i])
    ensures |r| > 0 ==> !IsSpace(r[|r| - 1])
  {
    if |s| > 0 && IsSpace(s[|s| - 1]) then TrimRight(s[..|s| - 1]) else s
  }

  /** The number of whitespace characters `s` starts with. */
  function LeadingSpaces(s: string): (n: nat)
    ensures n <= |s|
  {
    |s| - |TrimLeft(s)|
  }

  /** `s.strip()`: the text between the leading and the trailing whitespace of `s`. */
  function Strip(s: string): (r: string)
    ensures Stripped(r) && |r| <= |s|
    ensures Stripped(s) ==> r == s
  {
    TrimRight(TrimLeft(s))
  }

  /** Strip removes whitespace only, and only at the two ends. */
  lemma StripRemovesEnds(s: string)
    ensures LeadingSpaces(s) + |Strip(s)| <= |s|
    ensures Strip(s) == s[LeadingSpaces(s)..LeadingSpaces(s) + |Strip(s)|]
    ensures forall i :: 0 <= i < LeadingSpaces(s) ==> IsSpace(s[i])
    ensures forall i :: LeadingSpaces(s) + |Strip(s)| <= i < |s| ==> IsSpace(s[i])
  {
    var left := TrimLeft(s);
    TrimRightWithin(s, |s| - |left|, left);
  }

  /** Trimming the right end of the suffix `left` of `s` that starts at `a`. */
  lemma TrimRightWithin(s: string, a: nat, left: string)
    requires a <= |s| && left == s[a..]
    ensures a + |TrimRight(left)| <= |s|
    ensures TrimRight(left) == s[a..a + |TrimRight(left)|]
    ensures forall i :: a + |TrimRight(left)| <= i < |s| ==> IsSpace(s[i])
  {
    var r := TrimRight(left);
    assert s[a..a + |r|] == left[..|r|];
    forall i | a + |r| <= i < |s|
      ensures IsSpace(s[i])
    {
      assert s[i] == left[i - a];
    }
  }

  // ---------------------------------------------------------------------------------------
  // The location cache

  /** guby.py:65-67: `f"{u} {h}".strip()` with a missing part taken as ''. */
  function CacheValue(e: Lagebezeichnung): (r: string)
    ensures Stripped(r)
    ensures |r| <= |e.unverschluesselt.GetOr("")| + 1 + |e.hausnummer.GetOr("")|
  {
    Strip(e.unverschluesselt.GetOr("") + " " + e.hausnummer.GetOr(""))
  }

  /** The write one element contributes: only elements with a non-empty gml:id. */
  function CacheWrite(e: Lagebezeichnung): Option<(string, string)> {
    if Truthy(e.gmlId) then Some((e.gmlId.value, CacheValue(e))) else None
  }

  function CacheWrites(elements: seq<Lagebezeichnung>): (w: seq<Option<(string, string)>>)
    ensures |w| == |elements|
    ensures forall i :: 0 <= i < |elements| ==> w[i] == CacheWrite(elements[i])
  {
    seq(|elements|, i requires 0 <= i < |elements| => CacheWrite(elements[i]))
  }

  /** guby.py:59-67: the cache of location texts, filled from the Mit-Hausnummer elements only. */
  method BuildLagebezeichnungCache(mit: seq<Lagebezeichnung>) returns (cache: map<string, string>)
    ensures cache == Tabulate(CacheWrites(mit))
  {
    cache := map[];
    for i := 0 to |mit|
      invariant cache == Tabulate(CacheWrites(mit[..i]))
    {
      CacheWritesNext(mit, i);
      var gmlId := mit[i].gmlId;
      if gmlId.Some? && gmlId.value != "" {
        var unverschluesselt := if mit[i].unverschluesselt.Some? then mit[i].unverschluesselt.value else "";
        var hausnummer := if mit[i].hausnummer.Some? then mit[i].hausnummer.value else "";
        var text := Strip(unverschluesselt + " " + hausnummer);
        cache := cache[gmlId.value := text];
      }
    }
    assert mit[..|mit|] == mit;
  }

  /** One more element: the cache so far with that element's write applied. */
  lemma CacheWritesNext(mit: seq<Lagebezeichnung>, i: nat)
    requires i < |mit|
    ensures Tabulate(CacheWrites(mit[..i + 1])) ==
      if Truthy(mit[i].gmlId) then Tabulate(CacheWrites(mit[..i]))[mit[i].gmlId.value := CacheValue(mit[i])]
      else Tabulate(CacheWrites(mit[..i]))
  {
    assert CacheWrites(mit[..i + 1]) == CacheWrites(mit[..i]) + [CacheWrite(mit[i])];
    TabulateSnoc(CacheWrites(mit[..i]), CacheWrite(mit[i]));
  }

  /** A gml:id is cached iff some element carries it (an empty id is never cached), and the
      text cached is that of the last such element. */
  lemma CacheEntry(mit: seq<Lagebezeichnung>, id: string)
    ensures id in Tabulate(CacheWrites(mit)) <==>
      id != "" && exists i :: 0 <= i < |mit| && mit[i].gmlId == Some(id)
    ensures id in Tabulate(CacheWrites(mit)) ==>
      exists i :: 0 <= i < |mit| && mit[i].gmlId == Some(id) && Tabulate(CacheWrites(mit))[id] == CacheValue(mit[i])
                  && forall j :: i < j < |mit| ==> mit[j].gmlId != Some(id)
  {
    var w := CacheWrites(mit);
    TabulateLastWins(w, id);
    if id in Tabulate(w) {
      var i :| Writes(w, i, id) && w[i].value.1 == Tabulate(w)[id]
                && forall j :: i < j < |w| ==> !Writes(w, j, id);
      forall j | i < j < |mit|
        ensures mit[j].gmlId != Some(id)
      {
        assert !Writes(w, j, id);
      }
    }
    if id != "" && exists i :: 0 <= i < |mit| && mit[i].gmlId == Some(id) {
      var i :| 0 <= i < |mit| && mit[i].gmlId == Some(id);
      assert Writes(w, i, id);
    }
  }

  /** Street and house number are joined by one space. */
  lemma CacheValueBothParts(gmlId: Option<string>, u: string, h: string)
    requires |u| > 0 && |h| > 0 && Stripped(u) && Stripped(h)
    ensures CacheValue(Lagebezeichnung(gmlId, Some(u), Some(h))) == u + " " + h
  {
    var s := u + " " + h;
    assert s[0] == u[0] && s[|s| - 1] == h[|h| - 1];
  }

  /** Without a house number the street text stands alone, and an element with neither part
      caches the empty string rather than "<null>". */
  lemma CacheValueStreetOnly(gmlId: Option<string>, u: Option<string>)
    requires Stripped(u.GetOr(""))
    ensures CacheValue(Lagebezeichnung(gmlId, u, None)) == u.GetOr("")
  {
    var t := u.GetOr("");
    var s := t + " " + "";
    var r := Strip(s);
    var a := LeadingSpaces(s);
    StripRemovesEnds(s);
    if |t| > 0 {
      assert s[0] == t[0];
      assert a == 0;
      assert s[|t| - 1] == t[|t| - 1];
      assert |r| == |t|;
      assert r == t;
    } else {
      assert |r| == 0;
    }
  }

  // ---------------------------------------------------------------------------------------
  // Attributes of one building

  /** `funktion_mapping`: the building-function codes with a label. */
  function FunktionMapping(): map<string, string> {
    map[
    "1000" := "Wohngebäude",
    "2000" := "Gebäude für Wirtschaft oder Gewerbe",
    "3000" := "Gebäude für öffentliche Zwecke",
    "3020" := "Gebäude für Bildung und Forschung",
    "2463" := "Garage",
    "1610" := "Überdachung",
    "2523" := "Umformer",
    "1620" := "Treppe",
    "9999" := "Sonstiges",
    "1700" := "Mauer",
    "3041" := "Kirche",
    "3065" := "Kinderkrippe, Kindergarten, Kindertagesstätte",
    "3043" := "Kapelle",
    "3072" := "Feuerwehr"
    ]
  }

  const Unbekannt: string := "Unbekannt"

  datatype BuildingKind = Gebaeude | SonstigesBauwerk

  /** `gebnutzbez` */
  function KindLabel(kind: BuildingKind): string {
    match kind
    case Gebaeude => "Gebaeude"
    case SonstigesBauwerk => "Sonstiges Bauwerk Oder Sonstige Einrichtung"
  }

  /** An AX_Gebaeude or AX_SonstigesBauwerkOderSonstigeEinrichtung element: the texts of its
      first gebaeudefunktion, bauwerksfunktion, name and anzahlDerOberirdischenGeschosse, the
      href of its first zeigtAuf (None when the element or the attribute is missing), and the
      tokens of every posList below it. */
  datatype Building = Building(
    kind: BuildingKind,
    gebaeudefunktion: Option<string>,
    bauwerksfunktion: Option<string>,
    name: Option<string>,
    anzahlGeschosse: Option<string>,
    zeigtAuf: Option<string>,
    posLists: seq<seq<Token>>)

  /** The function element consulted: gebaeudefunktion when present (even with empty text),
      bauwerksfunktion otherwise. */
  function FunktionCode(b: Building): Option<string> {
    if b.gebaeudefunktion.Some? then b.gebaeudefunktion else b.bauwerksfunktion
  }

  /** guby.py:75-78: "<null>" without a non-empty code, the mapped label for a known code,
      "Unbekannt" for any other code. */
  function FunktionLabel(b: Building): (r: string)
    ensures r == Null <==> !Truthy(FunktionCode(b))
    ensures r == Unbekannt <==> Truthy(FunktionCode(b)) && FunktionCode(b).value !in FunktionMapping()
    ensures Truthy(FunktionCode(b)) && FunktionCode(b).value in FunktionMapping() ==> r == FunktionMapping()[FunktionCode(b).value]
    ensures r == Null || r == Unbekannt || r in FunktionMapping().Values
  {
    var code := FunktionCode(b);
    if Truthy(code) then Get(FunktionMapping(), code.value, Unbekannt) else Null
  }

  /** A present gebaeudefunktion decides alone: whatever bauwerksfunktion says is ignored. */
  lemma FunktionPrecedence(b: Building, other: Option<string>)
    requires b.gebaeudefunktion.Some?
    ensures FunktionLabel(b.(bauwerksfunktion := other)) == FunktionLabel(b)
    ensures b.gebaeudefunktion == Some("") ==> FunktionLabel(b) == Null
  {
  }

  /** guby.py:92-98: only zeigtAuf is consulted, keyed by the href after its last colon; a
      missing or empty href and an id missing from the cache both give "<null>". */
  function BuildingLocationText(zeigtAuf: Option<string>, cache: map<string, string>): (r: string)
    ensures r == Null || r in cache.Values
    ensures !Truthy(zeigtAuf) ==> r == Null
    ensures Truthy(zeigtAuf) && HrefSuffix(zeigtAuf.value) !in cache ==> r == Null
    ensures Truthy(zeigtAuf) && HrefSuffix(zeigtAuf.value) in cache ==> r == cache[HrefSuffix(zeigtAuf.value)]
  {
    if Truthy(zeigtAuf) then Get(cache, HrefSuffix(zeigtAuf.value), Null) else Null
  }

  /** A reference `urn:adv:oid:<id>` finds the cached text of `id`, or "<null>" when `id` is
      not cached. */
  lemma BuildingLocationResolves(scheme: string, id: string, cache: map<string, string>)
    requires ':' !in id
    ensures BuildingLocationText(Some(scheme + ":" + id), cache) == Get(cache, id, Null)
  {
    HrefSuffixOfReference(scheme, id);
  }

  /** The attribute record: gebnutzbez, funktion, fktkurz, name, anzahlgs, lagebeztxt. */
  datatype BuildingRecord = BuildingRecord(
    gebnutzbez: string, funktion: string, fktkurz: string, name: string, anzahlgs: string, lagebeztxt: string)

  /** guby.py:71-98: the attributes of one element, field by field. */
  function Attributes(b: Building, cache: map<string, string>): (r: BuildingRecord)
    ensures r.gebnutzbez == KindLabel(b.kind) && r.fktkurz == Null
    ensures r.funktion == Null || r.funktion == Unbekannt || r.funktion in FunktionMapping().Values
    ensures r.name == b.name.GetOr(Null) && r.anzahlgs == b.anzahlGeschosse.GetOr(Null)
    ensures r.lagebeztxt == Null || r.lagebeztxt in cache.Values
    ensures r.funktion == FunktionLabel(b) && r.lagebeztxt == BuildingLocationText(b.zeigtAuf, cache)
  {
    BuildingRecord(KindLabel(b.kind), FunktionLabel(b), Null, b.name.GetOr(Null), b.anzahlGeschosse.GetOr(Null),
                   BuildingLocationText(b.zeigtAuf, cache))
  }

  // ---------------------------------------------------------------------------------------
  // Coordinates of one building

  /** The points a posList contributes: none when it does not read. */
  function ListPoints(tokens: seq<Token>): seq<Point> {
    match ExtractPolygonLenient(tokens)
    case Some(points) => points
    case None => []
  }

  /** The points of all posLists in order, skipping those that do not read. */
  function LenientPoints(posLists: seq<seq<Token>>): seq<Point> {
    if |posLists| == 0 then [] else LenientPoints(posLists[..|posLists| - 1]) + ListPoints(posLists[|posLists| - 1])
  }

  /** The posLists that read, in order. */
  function Readable(posLists: seq<seq<Token>>): (r: seq<seq<Token>>)
    ensures forall t :: t in r ==> t in posLists && ExtractCoordinates(t).Ok?
  {
    if |posLists| == 0 then []
    else
      var last := posLists[|posLists| - 1];
      Readable(posLists[..|posLists| - 1]) + (if ExtractCoordinates(last).Ok? then [last] else [])
  }

  /** guby.py:101-107: extend the coordinate list with every posList that reads. */
  method CollectPoints(posLists: seq<seq<Token>>) returns (points: seq<Point>)
    ensures points == LenientPoints(posLists)
  {
    points := [];
    for i := 0 to |posLists|
      invariant points == LenientPoints(posLists[..i])
    {
      var coords := ExtractPolygonLenient(posLists[i]);
      if coords.Some? && |coords.value| > 0 {
        points := points + coords.value;
      }
      assert posLists[..i + 1][..i] == posLists[..i];
    }
    assert posLists[..|posLists|] == posLists;
  }

  /** The points collected are exactly those listed by the posLists that read: the tokens of
      the readable lists, one after the other, are the collected points written out. */
  lemma {:induction false} LenientPointsReadable(posLists: seq<seq<Token>>)
    ensures Flatten(LenientPoints(posLists)) == Concat(Readable(posLists))
  {
    if |posLists| > 0 {
      var prefix, last := posLists[..|posLists| - 1], posLists[|posLists| - 1];
      LenientPointsReadable(prefix);
      FlattenConcat(LenientPoints(prefix), ListPoints(last));
      var more := if ExtractCoordinates(last).Ok? then [last] else [];
      assert Readable(posLists) == Readable(prefix) + more;
      ConcatAppend(Readable(prefix), more);
      if ExtractCoordinates(last).Ok? {
        FlattenExtractRoundTrip(last);
        assert Concat(more) == last by {
          assert more[..0] == [];
        }
      } else {
        assert Concat(more) == [];
      }
    }
  }

  lemma ConcatAppend(a: seq<seq<Token>>, more: seq<seq<Token>>)
    requires |more| <= 1
    ensures Concat(a + more) == Concat(a) + Concat(more)
  {
    if |more| == 1 {
      assert (a + more)[..|a + more| - 1] == a;
      assert more[..0] == [];
    } else {
      assert a + more == a;
    }
  }

  // ---------------------------------------------------------------------------------------
  // The layer

  /** One written shape together with its record. */
  datatype BuildingEntry = BuildingEntry(shape: Outline, record: BuildingRecord)

  /** What one element contributes: an entry iff it has any point. */
  function EntryOf(b: Building, cache: map<string, string>): seq<BuildingEntry> {
    var points := LenientPoints(b.posLists);
    if |points| > 0 then [BuildingEntry(points, Attributes(b, cache))] else []
  }

  function Entries(elements: seq<Building>, cache: map<string, string>): seq<BuildingEntry> {
    if |elements| == 0 then []
    else Entries(elements[..|elements| - 1], cache) + EntryOf(elements[|elements| - 1], cache)
  }

  /** guby.py:70-112: the AX_Gebaeude elements, then the others; one poly and one record for
      each element with any point. */
  method ProcessBuildings(gebaeude: seq<Building>, sonstige: seq<Building>, cache: map<string, string>)
    returns (entries: seq<BuildingEntry>)
    ensures entries == Entries(gebaeude + sonstige, cache)
  {
    var elements := gebaeude + sonstige;
    entries := [];
    for i := 0 to |elements|
      invariant entries == Entries(elements[..i], cache)
    {
      var more := ProcessBuilding(elements[i], cache);
      EntriesNext(elements, i, cache);
      entries := entries + more;
    }
    assert elements[..|elements|] == elements;
  }

  /** guby.py:71-112 for one element: its attributes, the posList loop, and one entry when
      any point was collected. */
  method ProcessBuilding(b: Building, cache: map<string, string>) returns (more: seq<BuildingEntry>)
    ensures more == EntryOf(b, cache)
  {
    var rec := Attributes(b, cache);
    var polygonCoords := CollectPoints(b.posLists);
    more := [];
    if |polygonCoords| > 0 {
      more := [BuildingEntry(polygonCoords, rec)];
    }
  }

  lemma EntriesNext(elements: seq<Building>, i: nat, cache: map<string, string>)
    requires i < |elements|
    ensures Entries(elements[..i + 1], cache) == Entries(elements[..i], cache) + EntryOf(elements[i], cache)
  {
    assert elements[..i + 1][..i] == elements[..i];
  }

  lemma {:induction false} EntriesConcat(a: seq<Building>, b: seq<Building>, cache: map<string, string>)
    ensures Entries(a + b, cache) == Entries(a, cache) + Entries(b, cache)
  {
    if |b| > 0 {
      var n := |b| - 1;
      assert (a + b)[..|a| + n] == a + b[..n];
      assert (a + b)[|a| + n] == b[n];
      EntriesConcat(a, b[..n], cache);
      assert Entries(a + b, cache) == Entries(a + b[..n], cache) + EntryOf(b[n], cache);
      assert Entries(b, cache) == Entries(b[..n], cache) + EntryOf(b[n], cache);
    } else {
      assert a + b == a;
    }
  }

  /** Every entry comes from an element with points, and carries those points and that
      element's attributes. */
  lemma {:induction false} EntriesSound(elements: seq<Building>, cache: map<string, string>)
    ensures |Entries(elements, cache)| <= |elements|
    ensures forall x :: x in Entries(elements, cache) ==>
      |x.shape| > 0 && exists i :: 0 <= i < |elements| && x == BuildingEntry(LenientPoints(elements[i].posLists), Attributes(elements[i], cache))
  {
    if |elements| > 0 {
      var n := |elements| - 1;
      var prefix := elements[..n];
      EntriesSound(prefix, cache);
      forall x | x in Entries(elements, cache)
        ensures |x.shape| > 0 && exists i :: 0 <= i < |elements| && x == BuildingEntry(LenientPoints(elements[i].posLists), Attributes(elements[i], cache))
      {
        if x in Entries(prefix, cache) {
          var i :| 0 <= i < n && x == BuildingEntry(LenientPoints(prefix[i].posLists), Attributes(prefix[i], cache));
          assert prefix[i] == elements[i];
        } else {
          assert x in EntryOf(elements[n], cache);
        }
      }
    }
  }

  /** Every element with points gives an entry. */
  lemma EntriesComplete(elements: seq<Building>, cache: map<string, string>, i: nat)
    requires i < |elements| && |LenientPoints(elements[i].posLists)| > 0
    ensures BuildingEntry(LenientPoints(elements[i].posLists), Attributes(elements[i], cache)) in Entries(elements, cache)
  {
    EntriesSplit(elements, i, cache);
    var entry := BuildingEntry(LenientPoints(elements[i].posLists), Attributes(elements[i], cache));
    assert EntryOf(elements[i], cache) == [entry];
  }

  /** The entries of all elements are those before element `i`, its own, and those after it. */
  lemma EntriesSplit(elements: seq<Building>, i: nat, cache: map<string, string>)
    requires i < |elements|
    ensures Entries(elements, cache) ==
      Entries(elements[..i], cache) + EntryOf(elements[i], cache) + Entries(elements[i + 1..], cache)
  {
    var before, after := elements[..i], elements[i + 1..];
    assert elements == before + [elements[i]] + after;
    EntriesConcat(before + [elements[i]], after, cache);
    EntriesNext(elements, i, cache);
    assert elements[..i + 1] == before + [elements[i]];
  }

  /** With the elements as `findall` returns them, the layer is the Gebaeude entries followed
      by the Sonstiges entries. */
  lemma GebaeudeBeforeSonstiges(gebaeude: seq<Building>, sonstige: seq<Building>, cache: map<string, string>)
    requires forall b :: b in gebaeude ==> b.kind == Gebaeude
    requires forall b :: b in sonstige ==> b.kind == SonstigesBauwerk
    ensures |Entries(gebaeude, cache)| <= |Entries(gebaeude + sonstige, cache)|
    ensures forall i :: 0 <= i < |Entries(gebaeude, cache)| ==>
      Entries(gebaeude + sonstige, cache)[i].record.gebnutzbez == KindLabel(Gebaeude)
    ensures forall i :: |Entries(gebaeude, cache)| <= i < |Entries(gebaeude + sonstige, cache)| ==>
      Entries(gebaeude + sonstige, cache)[i].record.gebnutzbez == KindLabel(SonstigesBauwerk)
  {
    var g, s := Entries(gebaeude, cache), Entries(sonstige, cache);
    EntriesConcat(gebaeude, sonstige, cache);
    EntriesSound(gebaeude, cache);
    EntriesSound(sonstige, cache);
    forall i | 0 <= i < |g|
      ensures g[i].record.gebnutzbez == KindLabel(Gebaeude)
    {
      assert g[i] in g;
      var k :| 0 <= k < |gebaeude| && g[i] == BuildingEntry(LenientPoints(gebaeude[k].posLists), Attributes(gebaeude[k], cache));
      assert gebaeude[k] in gebaeude;
    }
    forall i | 0 <= i < |s|
      ensures s[i].record.gebnutzbez == KindLabel(SonstigesBauwerk)
    {
      assert s[i] in s;
      var k :| 0 <= k < |sonstige| && s[i] == BuildingEntry(LenientPoints(sonstige[k].posLists), Attributes(sonstige[k], cache));
      assert sonstige[k] in sonstige;
    }
  }
}
