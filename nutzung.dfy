/** The land-use layer (nutzung.py): for every element of sixteen AX_ land-use tags that has
    a posList, the exterior rings of the repaired polygon and one record naming the kind of
    use, its designation looked up in a code table, and its name. */
module Nutzung {
  import opened Nas
  import opened Coordinates

  // ---------------------------------------------------------------------------------------
  // format_nutzart

  /** `[A-Z]` */
  predicate IsUpper(c: char) {
    'A' <= c <= 'Z'
  }

  /** The length of the longest prefix of `s` without an uppercase letter. */
  function LowerRun(s: string): (n: nat)
    ensures n <= |s|
  {
    if |s| == 0 || IsUpper(s[0]) then 0 else 1 + LowerRun(s[1..])
  }

  /** The run is maximal: no capital inside it, a capital (or the end) right after it. */
  lemma {:induction false} LowerRunSpec(s: string)
    ensures forall i :: 0 <= i < LowerRun(s) ==> !IsUpper(s[i])
    ensures LowerRun(s) < |s| ==> IsUpper(s[LowerRun(s)])
  {
    if |s| > 0 && !IsUpper(s[0]) {
      LowerRunSpec(s[1..]);
      assert forall i :: 1 <= i < LowerRun(s) ==> s[i] == s[1..][i - 1];
    }
  }

  /** A match of `[A-Z][^A-Z]*` that cannot be extended. */
  predicate IsWord(w: string) {
    |w| > 0 && IsUpper(w[0]) && forall i :: 1 <= i < |w| ==> !IsUpper(w[i])
  }

  /** `re.findall('[A-Z][^A-Z]*', s)`: characters before the first capital are skipped, then
      every capital starts a word that runs up to the next capital. */
  function Words(s: string): seq<string>
    decreases |s|
  {
    if |s| == 0 then []
    else if !IsUpper(s[0]) then Words(s[1..])
    else
      var n := 1 + LowerRun(s[1..]);
      [s[..n]] + Words(s[n..])
  }

  function ConcatWords(ws: seq<string>): string {
    if |ws| == 0 then "" else ws[0] + ConcatWords(ws[1..])
  }

  /** `' '.join(ws)` */
  function Join(ws: seq<string>): string {
    if |ws| == 0 then "" else if |ws| == 1 then ws[0] else ws[0] + " " + Join(ws[1..])
  }

  /** nutzung.py:50-52: the tag without its three-letter prefix, split before every capital,
      joined with single spaces. The split is the only one into words that glue back to the
      rest after the leading non-capitals (WordsOfConcat). */
  function FormatNutzart(tag: string): (r: string)
    ensures var s := Drop(tag, 3);
      exists ws :: && (forall k :: 0 <= k < |ws| ==> IsWord(ws[k]))
                   && ConcatWords(ws) == s[LowerRun(s)..]
                   && r == Join(ws)
  {
    var s := Drop(tag, 3);
    WordsCover(s);
    WordsAreWords(s);
    Join(Words(s))
  }

  /** The words put back together give the input without its leading non-capitals. */
  lemma {:induction false} WordsCover(s: string)
    ensures ConcatWords(Words(s)) == s[LowerRun(s)..]
    decreases |s|
  {
    if |s| > 0 && !IsUpper(s[0]) {
      WordsCover(s[1..]);
      SkipLower(s);
    } else if |s| > 0 {
      var n := 1 + LowerRun(s[1..]);
      WordsCover(s[n..]);
      CoverUpper(s);
    }
  }

  /** A leading non-capital is skipped. */
  lemma SkipLower(s: string)
    requires |s| > 0 && !IsUpper(s[0])
    ensures Words(s) == Words(s[1..])
    ensures s[1..][LowerRun(s[1..])..] == s[LowerRun(s)..]
  {
  }

  /** The cover step for a string that starts with a capital, given the cover of its rest. */
  lemma CoverUpper(s: string)
    requires |s| > 0 && IsUpper(s[0])
    requires 1 + LowerRun(s[1..]) <= |s|
    requires var rest := s[1 + LowerRun(s[1..])..]; ConcatWords(Words(rest)) == rest[LowerRun(rest)..]
    ensures ConcatWords(Words(s)) == s[LowerRun(s)..]
  {
    var n := 1 + LowerRun(s[1..]);
    var rest := s[n..];
    FirstWord(s);
    assert rest[0..] == rest;
    assert s[..n] + rest == s;
    assert s[0..] == s;
  }

  /** A string that starts with a capital: its first word, then the words of the rest, which
      starts with a capital or is empty. */
  lemma FirstWord(s: string)
    requires |s| > 0 && IsUpper(s[0])
    ensures LowerRun(s) == 0 && 1 + LowerRun(s[1..]) <= |s|
    ensures LowerRun(s[1 + LowerRun(s[1..])..]) == 0
    ensures ConcatWords(Words(s)) == s[..1 + LowerRun(s[1..])] + ConcatWords(Words(s[1 + LowerRun(s[1..])..]))
  {
    var n := 1 + LowerRun(s[1..]);
    WordsUpper(s);
    ConcatWordsCons(s[..n], Words(s[n..]));
    RestStartsWord(s);
  }

  lemma WordsUpper(s: string)
    requires |s| > 0 && IsUpper(s[0])
    ensures Words(s) == [s[..1 + LowerRun(s[1..])]] + Words(s[1 + LowerRun(s[1..])..])
  {
  }

  lemma ConcatWordsCons(w: string, ws: seq<string>)
    ensures ConcatWords([w] + ws) == w + ConcatWords(ws)
  {
    assert ([w] + ws)[1..] == ws;
  }

  lemma RestStartsWord(s: string)
    requires |s| > 0
    ensures LowerRun(s[1 + LowerRun(s[1..])..]) == 0
  {
    var t := s[1..];
    LowerRunStartsWord(t);
    assert s[1 + LowerRun(t)..] == t[LowerRun(t)..];
  }

  /** After a run of non-capitals comes a capital, or the end. */
  lemma LowerRunStartsWord(t: string)
    ensures LowerRun(t[LowerRun(t)..]) == 0
  {
    LowerRunSpec(t);
  }

  /** Every element of Words(s) is a word. */
  lemma {:induction false} WordsAreWords(s: string)
    ensures forall k :: 0 <= k < |Words(s)| ==> IsWord(Words(s)[k])
    decreases |s|
  {
    if |s| > 0 && !IsUpper(s[0]) {
      WordsAreWords(s[1..]);
    } else if |s| > 0 {
      var t := s[1..];
      var n := 1 + LowerRun(t);
      var w, rest := s[..n], s[n..];
      WordsAreWords(rest);
      LowerRunSpec(t);
      assert IsWord(w) by {
        assert forall i :: 1 <= i < |w| ==> w[i] == t[i - 1];
      }
    }
  }

  /** A string with no capital among its first `n` characters and a capital (or the end) at
      position `n` starts with a run of exactly `n` non-capitals. */
  lemma LowerRunExact(s: string, n: nat)
    requires n <= |s|
    requires forall i :: 0 <= i < n ==> !IsUpper(s[i])
    requires n < |s| ==> IsUpper(s[n])
    ensures LowerRun(s) == n
  {
    LowerRunSpec(s);
  }

  /** A word followed by a capital (or nothing) is split off whole. */
  lemma WordsCons(w: string, rest: string)
    requires IsWord(w)
    requires |rest| > 0 ==> IsUpper(rest[0])
    ensures Words(w + rest) == [w] + Words(rest)
  {
    var s := w + rest;
    var tail := s[1..];
    assert forall i :: 0 <= i < |w| - 1 ==> tail[i] == w[i + 1];
    assert |w| - 1 < |tail| ==> tail[|w| - 1] == rest[0];
    LowerRunExact(tail, |w| - 1);
    assert s[..|w|] == w;
    assert s[|w|..] == rest;
  }

  /** Glued words start with a capital. */
  lemma ConcatWordsStartsUpper(ws: seq<string>)
    requires |ws| > 0 && IsWord(ws[0])
    ensures |ConcatWords(ws)| > 0 && IsUpper(ConcatWords(ws)[0])
  {
    assert ConcatWords(ws) == ws[0] + ConcatWords(ws[1..]);
  }

  /** Conversely, splitting words that were glued together gives them back. */
  lemma {:induction false} WordsOfConcat(ws: seq<string>)
    requires forall k :: 0 <= k < |ws| ==> IsWord(ws[k])
    ensures Words(ConcatWords(ws)) == ws
  {
    if |ws| > 0 {
      var tail := ws[1..];
      assert forall k :: 0 <= k < |tail| ==> tail[k] == ws[k + 1];
      WordsOfConcat(tail);
      if |tail| > 0 {
        ConcatWordsStartsUpper(tail);
      }
      WordsCons(ws[0], ConcatWords(tail));
      assert [ws[0]] + tail == ws;
    }
  }

  /** Nothing but the separators is added: removing the spaces from the formatted name gives
      back the tag without its prefix and any leading non-capitals. */
  function RemoveSpaces(s: string): (r: string)
    ensures ' ' !in r
  {
    if |s| == 0 then "" else (if s[0] == ' ' then "" else [s[0]]) + RemoveSpaces(s[1..])
  }

  lemma {:induction false} RemoveSpacesConcat(a: string, b: string)
    ensures RemoveSpaces(a + b) == RemoveSpaces(a) + RemoveSpaces(b)
  {
    if |a| > 0 {
      assert (a + b)[1..] == a[1..] + b;
      RemoveSpacesConcat(a[1..], b);
    } else {
      assert a + b == b;
    }
  }

  lemma {:induction false} RemoveSpacesNone(s: string)
    requires ' ' !in s
    ensures RemoveSpaces(s) == s
  {
    if |s| > 0 {
      assert s[0] in s;
      assert forall c :: c in s[1..] ==> c in s;
      RemoveSpacesNone(s[1..]);
    }
  }

  lemma {:induction false} RemoveSpacesJoin(ws: seq<string>)
    requires forall k :: 0 <= k < |ws| ==> ' ' !in ws[k]
    ensures RemoveSpaces(Join(ws)) == ConcatWords(ws)
  {
    if |ws| == 1 {
      RemoveSpacesNone(ws[0]);
      assert ConcatWords(ws[1..]) == "";
    } else if |ws| > 1 {
      RemoveSpacesJoin(ws[1..]);
      RemoveSpacesConcat(ws[0] + " ", Join(ws[1..]));
      RemoveSpacesConcat(ws[0], " ");
      RemoveSpacesNone(ws[0]);
      assert RemoveSpaces(" ") == "" by {
        assert " "[1..] == "";
      }
    }
  }

  lemma FormatNutzartSeparators(tag: string)
    requires ' ' !in tag
    ensures RemoveSpaces(FormatNutzart(tag)) == Drop(tag, 3)[LowerRun(Drop(tag, 3))..]
  {
    var s := Drop(tag, 3);
    var ws := Words(s);
    WordsCover(s);
    assert forall i :: LowerRun(s) <= i < |s| ==> ConcatWords(ws)[i - LowerRun(s)] == s[i];
    forall k, i | 0 <= k < |ws| && 0 <= i < |ws[k]|
      ensures ws[k][i] != ' '
    {
      ConcatWordsHas(ws, k, i);
    }
    RemoveSpacesJoin(ws);
  }

  lemma {:induction false} ConcatWordsHas(ws: seq<string>, k: nat, i: nat)
    requires k < |ws| && i < |ws[k]|
    ensures ws[k][i] in ConcatWords(ws)
  {
    if k == 0 {
      assert ConcatWords(ws) == ws[0] + ConcatWords(ws[1..]);
      assert ConcatWords(ws)[i] == ws[0][i];
    } else {
      ConcatWordsHas(ws[1..], k - 1, i);
      assert ws[1..][k - 1] == ws[k];
    }
  }

  /** A tag made of a three-letter prefix and glued words is formatted as those words,
      separated by single spaces. */
  lemma FormatNutzartOfWords(prefix: string, ws: seq<string>)
    requires |prefix| == 3
    requires forall k :: 0 <= k < |ws| ==> IsWord(ws[k])
    ensures Words(Drop(prefix + ConcatWords(ws), 3)) == ws
    ensures FormatNutzart(prefix + ConcatWords(ws)) == Join(ws)
  {
    DropPrefix(prefix, ConcatWords(ws));
    WordsOfConcat(ws);
  }

  /** The example of the naming rule: AX_UnlandVegetationsloseFlaeche, written as its parts. */
  lemma FormatNutzartExample(first: string, middle: string, rest: string)
    requires first == "Unland" && middle == "Vegetationslose" && rest == "Flaeche"
    ensures Words(Drop("AX_" + first + middle + rest, 3)) == [first, middle, rest]
    ensures FormatNutzart("AX_" + first + middle + rest) == Join([first, middle, rest])
  {
    var ws := [first, middle, rest];
    ExampleWords(first, middle, rest);
    ExampleTag(first, middle, rest);
    FormatNutzartOfWords("AX_", ws);
  }

  lemma ExampleWords(first: string, middle: string, rest: string)
    requires first == "Unland" && middle == "Vegetationslose" && rest == "Flaeche"
    ensures forall k :: 0 <= k < |[first, middle, rest]| ==> IsWord([first, middle, rest][k])
  {
    ExampleWord(first);
    ExampleWord(middle);
    ExampleWord(rest);
  }

  lemma ExampleTag(first: string, middle: string, rest: string)
    ensures "AX_" + first + middle + rest == "AX_" + ConcatWords([first, middle, rest])
  {
    ConcatThree(first, middle, rest);
  }

  lemma ConcatThree(a: string, b: string, c: string)
    ensures ConcatWords([a, b, c]) == a + b + c
  {
    assert [a, b, c][1..] == [b, c];
    assert [b, c][1..] == [c];
    assert [c][1..] == [];
    assert ConcatWords([c]) == c + ConcatWords([]) == c;
    assert ConcatWords([b, c]) == b + c;
    assert ConcatWords([a, b, c]) == a + (b + c);
  }

  lemma DropPrefix(p: string, s: string)
    ensures Drop(p + s, |p|) == s
  {
    assert (p + s)[|p|..] == s;
  }

  lemma ExampleWord(w: string)
    requires w == "Unland" || w == "Vegetationslose" || w == "Flaeche"
    ensures IsWord(w)
  {
  }

  // ---------------------------------------------------------------------------------------
  // extract_bez

  /** An element of one of the land-use tags: the texts of its first funktion,
      vegetationsmerkmal and name, and the tokens of every posList below it. */
  datatype LandUseElement = LandUseElement(
    funktion: Option<string>,
    vegetationsmerkmal: Option<string>,
    name: Option<string>,
    posLists: seq<seq<Token>>)

  /** nutzung.py:55-64: the designation of the funktion code if the element has one, of the
      vegetationsmerkmal code otherwise; "<null>" for a code missing from the table or when
      the element has neither. */
  function ExtractBez(e: LandUseElement, bezDict: map<string, string>): (r: string)
    ensures r == Null || r in bezDict.Values
    ensures e.funktion.None? && e.vegetationsmerkmal.None? ==> r == Null
  {
    if e.funktion.Some? then Get(bezDict, e.funktion.value, Null)
    else if e.vegetationsmerkmal.Some? then Get(bezDict, e.vegetationsmerkmal.value, Null)
    else Null
  }

  /** A funktion element decides alone, and a known code gives its designation. */
  lemma ExtractBezPrecedence(e: LandUseElement, other: Option<string>, bezDict: map<string, string>)
    requires e.funktion.Some?
    ensures ExtractBez(e.(vegetationsmerkmal := other), bezDict) == ExtractBez(e, bezDict)
    ensures e.funktion.value in bezDict ==> ExtractBez(e, bezDict) == bezDict[e.funktion.value]
    ensures e.funktion.value !in bezDict ==> ExtractBez(e, bezDict) == Null
  {
  }

  /** Without a funktion element, a vegetationsmerkmal decides: a known code gives its
      designation, an unknown one "<null>". */
  lemma ExtractBezFallback(e: LandUseElement, bezDict: map<string, string>)
    requires e.funktion.None? && e.vegetationsmerkmal.Some?
    ensures e.vegetationsmerkmal.value in bezDict ==> ExtractBez(e, bezDict) == bezDict[e.vegetationsmerkmal.value]
    ensures e.vegetationsmerkmal.value !in bezDict ==> ExtractBez(e, bezDict) == Null
  {
  }

  // ---------------------------------------------------------------------------------------
  // The layer

  /** `tags_to_process`, in the order they are visited. */
  function TagsToProcess(): seq<string> {
    [
    "AX_Gehoelz", "AX_Wohnbauflaeche", "AX_UnlandVegetationsloseFlaeche",
    "AX_Strassenverkehr", "AX_StehendesGewaesser", "AX_SportFreizeitUndErholungsflaeche",
    "AX_Platz", "AX_Landwirtschaft", "AX_IndustrieUndGewerbeflaeche",
    "AX_Fliessgewaesser", "AX_FlaecheGemischterNutzung", "AX_Wald", "AX_Weg", "AX_Friedhof",
    "AX_FlaecheBesondererFunktionalerPraegung", "AX_Bahnverkehr"
  ]
  }

  /** What `Polygon(points)` followed by the `buffer(0)` repair makes of the points: an
      exception (caught at nutzung.py:101) or a geometry. */
  datatype Shape = Raises | Built(geometry: Geometry)

  datatype LandUseRecord = LandUseRecord(nutzart: string, bez: string, name: string)

  /** The polygons and the records written, in order. The writer pads the shorter list
      (autoBalance), so a multipolygon's extra rings have no record of their own. */
  datatype LandUseLayer = LandUseLayer(shapes: seq<Outline>, records: seq<LandUseRecord>)

  function Append(a: LandUseLayer, b: LandUseLayer): LandUseLayer {
    LandUseLayer(a.shapes + b.shapes, a.records + b.records)
  }

  /** nutzung.py:71-78 and 100: the record of one element. */
  function RecordOf(tag: string, e: LandUseElement, bezDict: map<string, string>): (r: LandUseRecord)
    ensures r.nutzart == FormatNutzart(tag)
    ensures r.bez == Null || r.bez in bezDict.Values
    ensures r.bez == ExtractBez(e, bezDict)
    ensures r.name == e.name.GetOr(Null)
  {
    LandUseRecord(FormatNutzart(tag), ExtractBez(e, bezDict), e.name.GetOr(Null))
  }

  /** nutzung.py:70-102 for one element: nothing without a posList; the run aborts on a posList
      that does not read; otherwise the rings of the built geometry and one record, or nothing
      at all when building raises. */
  function ElementOutput(tag: string, e: LandUseElement, bezDict: map<string, string>, build: seq<Point> -> Shape)
    : (r: Result<LandUseLayer>)
    ensures r.Err? <==> |e.posLists| > 0 && !AllReadable(e.posLists)
    ensures r.Ok? ==> |r.value.records| <= 1
    ensures r.Ok? && |r.value.records| == 1 ==> r.value.records[0] == RecordOf(tag, e, bezDict)
    ensures r.Ok? ==> (|r.value.records| == 1 <==> |e.posLists| > 0 && build(ReadPosLists(e.posLists).value).Built?)
    ensures r.Ok? && |r.value.records| == 0 ==> r.value.shapes == []
  {
    if |e.posLists| == 0 then Ok(LandUseLayer([], []))
    else
      match ReadPosLists(e.posLists)
      case Err(err) => Err(err)
      case Ok(points) =>
        match build(points)
        case Raises => Ok(LandUseLayer([], []))
        case Built(g) => Ok(LandUseLayer(Exteriors(g), [RecordOf(tag, e, bezDict)]))
  }

  /** nutzung.py:92-97: with its record, an element writes the exterior ring of the built
      polygon, or of every part of a built multipolygon. */
  lemma ElementShapes(tag: string, e: LandUseElement, bezDict: map<string, string>, build: seq<Point> -> Shape)
    requires ElementOutput(tag, e, bezDict, build).Ok? && |ElementOutput(tag, e, bezDict, build).value.records| == 1
    ensures ReadPosLists(e.posLists).Ok?
    ensures ElementOutput(tag, e, bezDict, build).value.shapes == Exteriors(build(ReadPosLists(e.posLists).value).geometry)
  {
  }

  /** One element visited under one tag. */
  type Visit = (string, LandUseElement)

  function TagVisits(tag: string, elements: seq<LandUseElement>): (v: seq<Visit>)
    ensures |v| == |elements|
    ensures forall i :: 0 <= i < |elements| ==> v[i] == (tag, elements[i])
  {
    seq(|elements|, i requires 0 <= i < |elements| => (tag, elements[i]))
  }

  /** The elements `findall` returns for each tag, in document order; a tag without elements
      may be absent. */
  type LandUseDocument = map<string, seq<LandUseElement>>

  /** The visits of the first `t` tags. */
  function VisitsBefore(doc: LandUseDocument, t: nat): seq<Visit>
    requires t <= |TagsToProcess()|
  {
    if t == 0 then []
    else VisitsBefore(doc, t - 1) + TagVisits(TagsToProcess()[t - 1], Get(doc, TagsToProcess()[t - 1], []))
  }

  function Visits(doc: LandUseDocument): seq<Visit> {
    VisitsBefore(doc, |TagsToProcess()|)
  }

  /** The layer after the given visits; the first element whose posList does not read aborts. */
  function LayerOf(visits: seq<Visit>, bezDict: map<string, string>, build: seq<Point> -> Shape): Result<LandUseLayer> {
    if |visits| == 0 then Ok(LandUseLayer([], []))
    else
      var last := visits[|visits| - 1];
      match LayerOf(visits[..|visits| - 1], bezDict, build)
      case Err(err) => Err(err)
      case Ok(layer) =>
        match ElementOutput(last.0, last.1, bezDict, build)
        case Err(err) => Err(err)
        case Ok(more) => Ok(Append(layer, more))
  }

  /** Once aborted, the run stays aborted with the same error. */
  lemma {:induction false} LayerErrPrefix(v: seq<Visit>, u: seq<Visit>, bezDict: map<string, string>, build: seq<Point> -> Shape)
    requires v <= u && LayerOf(v, bezDict, build).Err?
    ensures LayerOf(u, bezDict, build) == LayerOf(v, bezDict, build)
    decreases |u|
  {
    if |u| > |v| {
      assert v <= u[..|u| - 1];
      LayerErrPrefix(v, u[..|u| - 1], bezDict, build);
    } else {
      assert u == v;
    }
  }

  lemma {:induction false} VisitsBeforePrefix(doc: LandUseDocument, t: nat, t2: nat)
    requires t <= t2 <= |TagsToProcess()|
    ensures VisitsBefore(doc, t) <= VisitsBefore(doc, t2)
    decreases t2
  {
    if t < t2 {
      VisitsBeforePrefix(doc, t, t2 - 1);
    }
  }

  /** nutzung.py:67-102: visit the tags in order and their elements in document order, collect
      each posList strictly, build the polygon, write its rings and one record. */
  method ProcessLandUse(doc: LandUseDocument, bezDict: map<string, string>, build: seq<Point> -> Shape)
    returns (r: Result<LandUseLayer>)
    ensures r == LayerOf(Visits(doc), bezDict, build)
  {
    var layer := LandUseLayer([], []);
    for t := 0 to |TagsToProcess()|
      invariant LayerOf(VisitsBefore(doc, t), bezDict, build) == Ok(layer)
    {
      var out := VisitLandUseTag(doc, t, bezDict, build, layer);
      if out.Err? {
        AbortSticks(doc, t + 1, bezDict, build);
        return out;
      }
      layer := out.value;
    }
    return Ok(layer);
  }

  /** The elements of the tag at position `t`, starting from the layer of the tags before it. */
  method VisitLandUseTag(doc: LandUseDocument, t: nat, bezDict: map<string, string>, build: seq<Point> -> Shape,
                         layer0: LandUseLayer)
    returns (r: Result<LandUseLayer>)
    requires t < |TagsToProcess()|
    requires LayerOf(VisitsBefore(doc, t), bezDict, build) == Ok(layer0)
    ensures r == LayerOf(VisitsBefore(doc, t + 1), bezDict, build)
  {
    var tag := TagsToProcess()[t];
    var elements := Get(doc, tag, []);
    var before := VisitsBefore(doc, t);
    var layer := layer0;
    assert before + TagVisits(tag, elements[..0]) == before;
    for i := 0 to |elements|
      invariant LayerOf(before + TagVisits(tag, elements[..i]), bezDict, build) == Ok(layer)
    {
      var out := ProcessElement(tag, elements[i], bezDict, build);
      VisitStep(before, tag, elements, i, bezDict, build);
      if out.Err? {
        VisitsBeforeTag(doc, t, i);
        LayerErrPrefix(before + TagVisits(tag, elements[..i + 1]), VisitsBefore(doc, t + 1), bezDict, build);
        return out;
      }
      layer := Append(layer, out.value);
    }
    assert elements[..|elements|] == elements;
    return Ok(layer);
  }

  /** Visiting one more element of a tag extends the run by that element's output. */
  lemma VisitStep(before: seq<Visit>, tag: string, elements: seq<LandUseElement>, i: nat,
                  bezDict: map<string, string>, build: seq<Point> -> Shape)
    requires i < |elements|
    ensures LayerOf(before + TagVisits(tag, elements[..i + 1]), bezDict, build) ==
      match LayerOf(before + TagVisits(tag, elements[..i]), bezDict, build)
      case Err(err) => Err(err)
      case Ok(layer) =>
        match ElementOutput(tag, elements[i], bezDict, build)
        case Err(err) => Err(err)
        case Ok(more) => Ok(Append(layer, more))
  {
    var visited := before + TagVisits(tag, elements[..i + 1]);
    assert visited[..|visited| - 1] == before + TagVisits(tag, elements[..i]);
    assert visited[|visited| - 1] == (tag, elements[i]);
  }

  /** The visits up to an element of the tag at position `t` come before the visits of all
      tags up to and including it. */
  lemma VisitsBeforeTag(doc: LandUseDocument, t: nat, i: nat)
    requires t < |TagsToProcess()| && i < |Get(doc, TagsToProcess()[t], [])|
    ensures VisitsBefore(doc, t) + TagVisits(TagsToProcess()[t], Get(doc, TagsToProcess()[t], [])[..i + 1])
            <= VisitsBefore(doc, t + 1)
  {
    var tag := TagsToProcess()[t];
    var elements := Get(doc, tag, []);
    assert TagVisits(tag, elements[..i + 1]) <= TagVisits(tag, elements);
  }

  /** An abort among the first `t` tags is the result of the whole run. */
  lemma AbortSticks(doc: LandUseDocument, t: nat, bezDict: map<string, string>, build: seq<Point> -> Shape)
    requires t <= |TagsToProcess()| && LayerOf(VisitsBefore(doc, t), bezDict, build).Err?
    ensures LayerOf(Visits(doc), bezDict, build) == LayerOf(VisitsBefore(doc, t), bezDict, build)
  {
    VisitsBeforePrefix(doc, t, |TagsToProcess()|);
    LayerErrPrefix(VisitsBefore(doc, t), Visits(doc), bezDict, build);
  }

  /** nutzung.py:70-102 for one element, with the posList loop of lines 83-85. */
  method ProcessElement(tag: string, e: LandUseElement, bezDict: map<string, string>, build: seq<Point> -> Shape)
    returns (r: Result<LandUseLayer>)
    ensures r == ElementOutput(tag, e, bezDict, build)
  {
    if |e.posLists| == 0 {
      return Ok(LandUseLayer([], []));
    }
    var coords := CollectCoordinates(e.posLists);
    if coords.Err? {
      return Err(coords.error);
    }
    var polygonCoords := coords.value;
    match build(polygonCoords) {
      case Raises =>
        return Ok(LandUseLayer([], []));
      case Built(g) =>
        return Ok(LandUseLayer(Exteriors(g), [RecordOf(tag, e, bezDict)]));
    }
  }

  /** nutzung.py:83-85: the coordinates of every posList of an element, appended in order;
      the first posList that does not read raises. */
  method CollectCoordinates(posLists: seq<seq<Token>>) returns (r: Result<seq<Point>>)
    ensures r == ReadPosLists(posLists)
  {
    var polygonCoords := [];
    for j := 0 to |posLists|
      invariant ReadPosLists(posLists[..j]) == Ok(polygonCoords)
    {
      assert posLists[..j + 1][..j] == posLists[..j];
      var coords := ExtractCoordinates(posLists[j]);
      if coords.Err? {
        ReadPosListsPrefix(posLists, j + 1);
        return Err(coords.error);
      }
      polygonCoords := polygonCoords + coords.value;
    }
    assert posLists[..|posLists|] == posLists;
    return Ok(polygonCoords);
  }

  /** An error among the first `n` posLists is the error of the whole list. */
  lemma {:induction false} ReadPosListsPrefix(posLists: seq<seq<Token>>, n: nat)
    requires n <= |posLists| && ReadPosLists(posLists[..n]).Err?
    ensures ReadPosLists(posLists) == ReadPosLists(posLists[..n])
    decreases |posLists|
  {
    if n < |posLists| {
      var m := |posLists| - 1;
      assert posLists[..m][..n] == posLists[..n];
      ReadPosListsPrefix(posLists[..m], n);
      ReadPosListsErrSnoc(posLists);
    } else {
      assert posLists[..n] == posLists;
    }
  }

  /** The run aborts iff some visited element has a posList that does not read. */
  lemma {:induction false} LayerAborts(visits: seq<Visit>, bezDict: map<string, string>, build: seq<Point> -> Shape)
    ensures LayerOf(visits, bezDict, build).Err? <==> exists k :: 0 <= k < |visits| && Aborts(visits[k].1)
  {
    if LayerOf(visits, bezDict, build).Err? {
      var k := AbortingVisit(visits, bezDict, build);
    }
    if exists k :: 0 <= k < |visits| && Aborts(visits[k].1) {
      var k :| 0 <= k < |visits| && Aborts(visits[k].1);
      AbortingVisitAborts(visits, k, bezDict, build);
    }
  }

  /** A run that aborts has a visited element that aborts it. */
  lemma {:induction false} AbortingVisit(visits: seq<Visit>, bezDict: map<string, string>, build: seq<Point> -> Shape)
    returns (k: nat)
    requires LayerOf(visits, bezDict, build).Err?
    ensures k < |visits| && Aborts(visits[k].1)
  {
    var n := |visits| - 1;
    LayerErrStep(visits, bezDict, build);
    if Aborts(visits[n].1) {
      k := n;
    } else {
      k := AbortingVisit(visits[..n], bezDict, build);
      assert visits[..n][k] == visits[k];
    }
  }

  /** An element that aborts aborts every run that visits it. */
  lemma {:induction false} AbortingVisitAborts(visits: seq<Visit>, k: nat, bezDict: map<string, string>, build: seq<Point> -> Shape)
    requires k < |visits| && Aborts(visits[k].1)
    ensures LayerOf(visits, bezDict, build).Err?
  {
    var n := |visits| - 1;
    if k < n {
      assert visits[..n][k] == visits[k];
      AbortingVisitAborts(visits[..n], k, bezDict, build);
      assert LayerOf(visits[..n], bezDict, build).Err?;
    } else {
      assert Aborts(visits[n].1);
    }
    LayerErrStep(visits, bezDict, build);
  }

  /** An element whose posLists exist and do not all read. */
  predicate Aborts(e: LandUseElement) {
    |e.posLists| > 0 && !AllReadable(e.posLists)
  }

  /** One more visit aborts the run iff the run had aborted or that element aborts. */
  lemma LayerErrStep(visits: seq<Visit>, bezDict: map<string, string>, build: seq<Point> -> Shape)
    requires |visits| > 0
    ensures LayerOf(visits, bezDict, build).Err? <==>
      LayerOf(visits[..|visits| - 1], bezDict, build).Err? || Aborts(visits[|visits| - 1].1)
  {
  }

  /** Every record belongs to one visited element, and there are at most as many records as
      elements. */
  lemma {:induction false} LayerRecords(visits: seq<Visit>, bezDict: map<string, string>, build: seq<Point> -> Shape)
    requires LayerOf(visits, bezDict, build).Ok?
    ensures |LayerOf(visits, bezDict, build).value.records| <= |visits|
    ensures forall rec :: rec in LayerOf(visits, bezDict, build).value.records ==>
      exists k :: 0 <= k < |visits| && rec == RecordOf(visits[k].0, visits[k].1, bezDict)
  {
    if |visits| > 0 {
      var n := |visits| - 1;
      var prefix := visits[..n];
      LayerRecords(prefix, bezDict, build);
      var layer := LayerOf(prefix, bezDict, build).value;
      var more := ElementOutput(visits[n].0, visits[n].1, bezDict, build).value;
      forall rec | rec in LayerOf(visits, bezDict, build).value.records
        ensures exists k :: 0 <= k < |visits| && rec == RecordOf(visits[k].0, visits[k].1, bezDict)
      {
        if rec in layer.records {
          var k :| 0 <= k < n && rec == RecordOf(prefix[k].0, prefix[k].1, bezDict);
          assert prefix[k] == visits[k];
        } else {
          assert rec in more.records;
        }
      }
    }
  }
}
