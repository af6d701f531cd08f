# ALKIS/NAS converter — attribute and record logic

This project models the part of the ALKIS/NAS converter scripts that decides what goes into
each output shapefile, and proves properties of that model. NAS is the XML exchange format
of the German official cadastre. The converter reads cadastral XML and writes five layers:

- **Parcels** (`flurstueck.py`): six lookup dictionaries are built from the administrative
  reference elements and from the address elements. Then every AX_Flurstueck gets one
  record. The record's composite keys (Gemeindeschlüssel, Kreis key, Regierungsbezirk key) are
  looked up in those dictionaries, and so is its address text, through the `weistAuf` or
  `zeigtAuf` cross-reference. Every miss gives `"<null>"`.
- **Administrative units** (`ver.py`): one loop visits AX_Gemeinde, AX_Bundesland,
  AX_Regierungsbezirk and AX_KreisRegion in that order. It remembers the latest element seen
  under each tag and uses that to name each record's parent unit. It writes only the first
  Gemeinde and the first KreisRegion. The shapes are the exterior rings of the merged parcel
  geometry.
- **Buildings** (`guby.py`): an address cache is built from the AX_LagebezeichnungMitHausnummer
  elements. Then every AX_Gebaeude, followed by every AX_SonstigesBauwerkOderSonstigeEinrichtung,
  is written with a function label from a fixed code table. An element is written only if its
  readable posLists give at least one point.
- **Land use** (`nutzung.py`): sixteen AX_ land-use tags are visited in a fixed order. Each tag
  name is split into words at its capitals, and each element's designation is looked up in a
  code table. A posList that does not read aborts the whole run.
- **Cadastral districts** (`kat.py`): the parcel layer is grouped by Gemarkung, in sorted key
  order. A key and a municipality are sampled from each group's first row. A boundary of k
  parts is written as k Gemarkung records followed by k Flur records.

The XML tree is modelled as datatypes with optional fields: `find` may find nothing, and
`findall` gives sequences in document order. A Python exception becomes an `Err` of a `Result`.
Geometry is opaque: a `Geometry` is one polygon, several, or something else, and only its
exterior rings matter. What shapely makes of a list of points is a function parameter.

The dictionary-filling loops, the tag loops, the posList loops and the record-emission loops
are methods with loop invariants. Each is proved equal to a specification function, and the
properties are proved about those functions. The shared specification of a loop-filled
dictionary is `Nas.Tabulate`: the last write to a key wins.

## Model

| member | source | states |
|---|---|---|
| Nas.TabulateLastWins | flurstueck.py:47-54 | A key is in a loop-filled dictionary iff some element writes it. Its value is the one written by the last element that writes that key. |
| Nas.TabulateConcat | flurstueck.py:59-71 | In a dictionary filled from two element lists in turn, a key written by the second list has the value the second list alone gives it. |
| Nas.StarMap | flurstueck.py:166-170 | `pool.starmap`, modelled as a sequential map, gives one result per item, in item order. It succeeds iff every item succeeds. Otherwise this model reports the error of the first failing item, and every item before that one succeeds. The real pool may surface another failing item's error. |
| Nas.HrefSuffix | flurstueck.py:126 | `href.split(":")[-1]` is a suffix of the href that contains no colon. When it is shorter than the href, a colon comes right before it. |
| Nas.HrefSuffixOfReference | flurstueck.py:125-126 | A reference `scheme:id`, where the id has no colon, yields exactly that id. |
| Nas.Take | ver.py:107 | `s[:n]` is the prefix of length min(n, \|s\|). |
| Nas.Drop | nutzung.py:52 | `s[n:]` is the rest of s after its first n characters, or empty when s is shorter. |
| Coordinates.Pairs | flurstueck.py:17 | Pair k of an even-length numeric list is (c[2k], c[2k+1]), and there are n/2 pairs. |
| Coordinates.ExtractCoordinates | flurstueck.py:15-17 | Reading succeeds iff every token is numeric and their count is even. A non-numeric token gives ValueError whatever the length. An odd numeric count gives IndexError. Pair k is (c[2k], c[2k+1]). |
| Coordinates.ExtractPolygonLenient | ver.py:74-80 | The lenient reading gives None exactly when the strict reading raises. Otherwise it gives the same points. |
| Coordinates.ExtractFlattenRoundTrip | flurstueck.py:15-17 | Reading the posList that lists some points gives back exactly those points. |
| Coordinates.FlattenExtractRoundTrip | flurstueck.py:15-17 | A posList that reads lists exactly the points it yields. |
| Coordinates.ReadPosLists | flurstueck.py:78-79 | All posLists of a parcel read iff each one does. The points, listed back, are all tokens in order. On failure, the error is that of the first posList that does not read. |
| Flurstueck.CreateFlurstnr | flurstueck.py:20-21 | The parcel number starts with the counter. Something follows iff the denominator is truthy, and then it is '/' and the denominator. |
| Flurstueck.SplitFlurstnr | flurstueck.py:20-21 | Splitting at the first '/' recovers the parts: rejoined with '/', they give the input back. Without a '/' the input is the whole counter. |
| Flurstueck.FlurstnrRoundTrip | flurstueck.py:20-21 | Splitting the parcel number recovers a counter without '/' and the denominator when it is truthy. A missing or empty denominator is recovered as none, because then no '/' is written. |
| Flurstueck.CreateGmdschl | flurstueck.py:24-25 | The municipality key is the land, Regierungsbezirk, Kreis and Gemeinde codes in that order, each at its own position, with no separator. |
| Flurstueck.GmdschlRoundTrip | flurstueck.py:24-25 | The municipality key is the four codes with no separator. Codes of the AdV widths 2, 1, 2 and 3 are recovered from it. |
| Flurstueck.CreateLookupDict | flurstueck.py:47-54 | The loop builds the dictionary in which an element writes `key -> label` only when it has both, and a later element overwrites an earlier one. |
| Flurstueck.FindRegbezirk | flurstueck.py:37-44 | `find_regbezirk` builds the same kind of dictionary from the AX_Regierungsbezirk elements. |
| Flurstueck.FindKreis | flurstueck.py:28-34 | `find_kreis` succeeds iff no AX_KreisRegion has a key without a label, and a failure is AttributeError. On success the dictionary is the same as `create_lookup_dict` would build. |
| Flurstueck.LookupTableEntry | flurstueck.py:47-54 | A key is in a lookup table iff some element carries it with a label. The stored label is that of the last such element. |
| Flurstueck.LageText | flurstueck.py:65-71 | An address element without `unverschluesselt` gives "<null>". Otherwise its text starts with the street; it is followed by a space and the house number when there is one, and by nothing otherwise. |
| Flurstueck.CreateLagebeztxtDict | flurstueck.py:57-73 | The address table is the loop-filled dictionary of the Mit-Hausnummer elements followed by the Ohne-Hausnummer elements. Each element writes its text under its gml:id: "text number", "text", or "<null>" without `unverschluesselt`. |
| Flurstueck.WriteLageTexts | flurstueck.py:60-71 | One pass over the elements of one tag applies each element's write, in order, to the dictionary so far. |
| Flurstueck.OhneHausnummerOverwrites | flurstueck.py:59-71 | An id written by some Ohne-Hausnummer element takes its text from the last such element, whatever the Mit-Hausnummer elements say. |
| Flurstueck.LocationText | flurstueck.py:121-131 | A parcel's address text is "<null>" or a value of the address table. With a weistAuf reference, it is the table entry for that href's suffix after its last colon, or "<null>" when there is none. With only a zeigtAuf reference, it is the same lookup on that reference. |
| Flurstueck.LocationTextPrecedence | flurstueck.py:124-131 | With a `weistAuf` reference, the `zeigtAuf` reference does not matter. With neither, the text is "<null>". |
| Flurstueck.LocationTextResolves | flurstueck.py:124-129 | A reference `scheme:id` looks up the table entry of exactly that id, from `weistAuf` or, failing that, `zeigtAuf`. |
| Flurstueck.ResolveParcel | flurstueck.py:76-147 | The intended reading of `process_single_flurstueck`. It succeeds iff every posList reads, the counter exists and a present code block is complete. The record has `flur == "Flur"` and every label comes from its table or is "<null>". It has a municipality key iff the code block exists, and without one all administrative labels are "<null>". |
| Flurstueck.ProcessSingleFlurstueck | flurstueck.py:76-147 | As written, it succeeds iff every posList reads, the counter exists and the code block exists and is complete. The Gemeinde label is the lookup of the municipality key itself. |
| Flurstueck.ParcelReadingsAgree | flurstueck.py:94-108 | With a code block, the two readings are equal. Without one, the code as written raises UnboundLocalError exactly where the intended reading succeeds. |
| Flurstueck.ParcelErrors | flurstueck.py:78-108 | A posList that does not read raises ValueError or IndexError. Otherwise a missing counter raises AttributeError, and a missing code block raises UnboundLocalError. |
| Flurstueck.ParcelKeys | flurstueck.py:100-114 | The municipality key is the land, Regierungsbezirk, Kreis and Gemeinde codes joined. The Kreis label is looked up under the key's prefix of land, Regierungsbezirk and Kreis codes, and the Gemeinde label under the whole key. |
| Flurstueck.ParcelFields | flurstueck.py:78-131 | The record's points list back to the parcel's posLists, and the area and parcel key are copied. The parcel number is built from counter and denominator, and the address text is the parcel's location text. With a code block, the Regierungsbezirk label is "<null>" unless both codes are non-empty, the land label unless the land code is non-empty, and the Gemarkung label unless `gemarkungsnummer` exists. Otherwise each is the table lookup with fallback "<null>". |
| Flurstueck.ProcessFlurstueck | flurstueck.py:150-172 | The layer succeeds iff the Kreis table builds and every parcel resolves. It then holds one record per parcel, in document order, each the parcel's own. A failure is the table's AttributeError or the error of some parcel. |
| Flurstueck.ResolveParcels | flurstueck.py:166-170 | The starmap over the parcels: one record per parcel, in order, iff all resolve. Otherwise it fails with some parcel's error. |
| Flurstueck.ParcelFiveAsWritten | flurstueck.py:101-108 | A parcel with counter "5" and no code block raises UnboundLocalError as written. |
| Flurstueck.ParcelFiveIntended | flurstueck.py:101-115 | As intended, that parcel gets parcel number "5", no municipality key and "<null>" for every label. |
| Verwaltung.TagIndex | ver.py:83 | Each tag has a position in the fixed visiting order. |
| Verwaltung.Uebaname | ver.py:95-103 | A Gemeinde names the KreisRegion remembered so far, a Regierungsbezirk the Bundesland, and a KreisRegion the Regierungsbezirk. A Bundesland names none, and nothing remembered gives "<null>". A parent name never comes from the element's own tag. |
| Verwaltung.Ueobjekt | ver.py:105-113 | A Gemeinde gets "DE" and the first five characters of its key, or the whole key when it is shorter. A KreisRegion gets "DE" and the first three characters. Bundesland and Regierungsbezirk get "<null>". |
| Verwaltung.RecordOf | ver.py:88-136 | An element's record has its tag's `art`, its name and key or "<null>", the given parent name, and the `ueobjekt` of its key. |
| Verwaltung.EmitAdminRecords | ver.py:83-136 | The tag loop writes exactly the records of the per-tag specification, in tag order. Its final `data` holds the last element of every tag that has any. |
| Verwaltung.VisitTag | ver.py:87-136 | The inner loop over one tag appends that tag's records and keeps `data` and both flags consistent. |
| Verwaltung.VisitElement | ver.py:88-136 | One element is always remembered in `data`. A record is written for it unless it is a later Gemeinde or KreisRegion, and its parent name is the closed-form one. |
| Verwaltung.ParentFromData | ver.py:96-103 | While a tag is visited, the parent name read from `data` is the last name of the parent tag, or "<null>" for Gemeinde and Bundesland. |
| Verwaltung.AdminRecordCounts | ver.py:117-136 | The layer holds one Gemeinde record (none without Gemeinden) and one Kreis record likewise. It holds one record per Bundesland and one per Regierungsbezirk. |
| Verwaltung.CountOfArt | ver.py:117-136 | The records of one art come from the elements of that tag alone. |
| Verwaltung.AdminRecordParents | ver.py:95-115 | The Gemeinde record is the first Gemeinde with parent "<null>" and "DE" plus five key characters. Bundesland records have no parent. A Regierungsbezirk names the last Bundesland. The Kreis record is the first KreisRegion, naming the last Regierungsbezirk, with "DE" plus three key characters. |
| Verwaltung.ArtNamesTag | ver.py:62-67 | Different tags are written with different `art` labels. |
| Verwaltung.ExteriorBoundaries | ver.py:38-44 | A polygon gives its exterior, and a multipolygon gives one exterior per part. Anything else raises TypeError. |
| Verwaltung.WriteAdminLayer | ver.py:36-140 | The layer fails iff the merged geometry is neither polygon nor multipolygon. Otherwise its shapes are the exterior rings and its records those of the tag loop. |
| Verwaltung.WritePolys | ver.py:139-140 | One shape per exterior boundary, in order. |
| Gebaeude.TrimLeft | guby.py:67 | Removing leading whitespace gives a suffix that starts with a non-space. Everything removed is whitespace. |
| Gebaeude.TrimRight | guby.py:67 | Removing trailing whitespace gives a prefix that ends with a non-space. Everything removed is whitespace. |
| Gebaeude.Strip | guby.py:67 | `strip()` gives a string with no whitespace at either end. It leaves such a string unchanged. |
| Gebaeude.StripRemovesEnds | guby.py:67 | `strip()` removes exactly a run of whitespace at each end and keeps the middle as it was. |
| Gebaeude.CacheValue | guby.py:63-67 | A cached address text has no whitespace at either end. It is no longer than street, space and house number together. |
| Gebaeude.BuildLagebezeichnungCache | guby.py:59-67 | The cache loop builds the loop-filled dictionary in which each Mit-Hausnummer element with a truthy gml:id writes its stripped text. |
| Gebaeude.CacheEntry | guby.py:60-67 | An id is cached iff it is non-empty and some element carries it. Its text is that of the last such element. |
| Gebaeude.CacheValueBothParts | guby.py:63-67 | Street and number give "street number". |
| Gebaeude.CacheValueStreetOnly | guby.py:64-67 | Without a number the text is the street alone, and the empty string without a street, never "<null>". |
| Gebaeude.FunktionLabel | guby.py:75-78 | The label is "<null>" iff there is no non-empty code, "Unbekannt" iff the code is not in the table, and the table's label otherwise. |
| Gebaeude.FunktionPrecedence | guby.py:75-77 | A present `gebaeudefunktion` element decides the label whatever `bauwerksfunktion` says, even when its text is empty. |
| Gebaeude.BuildingLocationText | guby.py:92-98 | The address text is "<null>" or a cached value. Without a truthy `zeigtAuf` href it is "<null>". With one, it is the cached text of the id after the href's last colon, or "<null>" when that id is not cached. |
| Gebaeude.BuildingLocationResolves | guby.py:95-98 | A reference `scheme:id` gets the cached text of exactly that id, or "<null>" when the id is not cached. |
| Gebaeude.Readable | guby.py:104-107 | The posLists kept are posLists of the element that read. |
| Gebaeude.CollectPoints | guby.py:101-107 | The posList loop collects the points of the posLists that read, in order, skipping the others. |
| Gebaeude.LenientPointsReadable | guby.py:101-107 | The collected points list back to the tokens of exactly the readable posLists. |
| Gebaeude.Attributes | guby.py:71-98 | The record is labelled by the element's kind. `fktkurz` is always "<null>". The function label is "<null>", "Unbekannt" or a label of the table. Name and storey count are the element's own or "<null>". The address text is "<null>" or a cached value. `funktion` is exactly FunktionLabel of the element, and `lagebeztxt` is exactly BuildingLocationText of its zeigtAuf reference, so their contracts carry over to the written layer. |
| Gebaeude.ProcessBuildings | guby.py:70-112 | The emission loop writes exactly the entries of the Gebaeude elements followed by those of the other elements. |
| Gebaeude.ProcessBuilding | guby.py:71-112 | One pass of the loop body, including the posList loop, writes exactly the element's entry: one entry iff any point was collected. |
| Gebaeude.EntriesConcat | guby.py:70 | Entries of two element lists in turn are the entries of the first followed by those of the second. |
| Gebaeude.EntriesSound | guby.py:109-112 | There are at most as many entries as elements. Every entry has points and is the entry of some element, with that element's points and attributes. |
| Gebaeude.EntriesComplete | guby.py:109-112 | Every element with at least one point is written. |
| Gebaeude.GebaeudeBeforeSonstiges | guby.py:70-72 | All Gebaeude entries come first, labelled "Gebaeude". Every later entry is labelled "Sonstiges Bauwerk Oder Sonstige Einrichtung". |
| Nutzung.LowerRunSpec | nutzung.py:52 | The skipped run has no capital and is followed by a capital or the end. |
| Nutzung.WordsAreWords | nutzung.py:52 | Every match of `[A-Z][^A-Z]*` starts with its only capital. |
| Nutzung.WordsCover | nutzung.py:52 | The matches, glued together, are the input without its leading non-capitals. |
| Nutzung.WordsCons | nutzung.py:52 | A word followed by a capital or nothing is matched whole. |
| Nutzung.WordsOfConcat | nutzung.py:52 | Matching glued words gives the words back. |
| Nutzung.FormatNutzart | nutzung.py:50-52 | The name is some list of words joined by single spaces. Each word starts with its only capital, and the words glue back to the tag without its prefix and its leading non-capitals. WordsOfConcat makes that list unique. |
| Nutzung.FormatNutzartSeparators | nutzung.py:50-52 | Removing the spaces from the formatted name gives the tag without its prefix and any leading non-capitals. |
| Nutzung.FormatNutzartOfWords | nutzung.py:50-52 | A tag made of a three-letter prefix and glued words is formatted as those words separated by single spaces. |
| Nutzung.FormatNutzartExample | nutzung.py:37-52 | AX_UnlandVegetationsloseFlaeche is split into Unland, Vegetationslose and Flaeche, and formatted as "Unland Vegetationslose Flaeche". |
| Nutzung.ExtractBez | nutzung.py:55-64 | The designation is "<null>" or a value of the code table. Without both elements it is "<null>". |
| Nutzung.ExtractBezPrecedence | nutzung.py:59-62 | A present `funktion` decides the designation whatever `vegetationsmerkmal` says: its table entry, or "<null>" for an unknown code. |
| Nutzung.ExtractBezFallback | nutzung.py:61-62 | Without `funktion`, a `vegetationsmerkmal` decides: a known code gives its designation, an unknown one "<null>". |
| Nutzung.RecordOf | nutzung.py:71-78 | An element's record carries the formatted tag name, a designation that is "<null>" or a value of the code table, and its name or "<null>". The designation is exactly ExtractBez of the element, so its funktion/vegetationsmerkmal precedence and fallback carry over to the written record (nutzung.py:100). |
| Nutzung.ElementOutput | nutzung.py:70-102 | An element aborts the run iff it has posLists and one does not read. It writes at most one record, and its record exactly when building the polygon does not raise. Without a record it writes no shape. |
| Nutzung.ElementShapes | nutzung.py:92-97 | With its record, an element writes the exterior rings of the geometry built from its points: one for a polygon, one per part of a multipolygon. |
| Nutzung.TagVisits | nutzung.py:67-68 | The elements of a tag are visited in document order. |
| Nutzung.ProcessLandUse | nutzung.py:67-102 | The tag loop computes the layer of the visits in tag order, and stops at the first element that aborts. |
| Nutzung.VisitLandUseTag | nutzung.py:68-102 | The inner loop over one tag extends the layer of the earlier tags by that tag's elements. |
| Nutzung.ProcessElement | nutzung.py:70-102 | The handling of one element computes its output specification. |
| Nutzung.CollectCoordinates | nutzung.py:83-85 | The posList loop gives the strict reading of all posLists, failing at the first that does not read. |
| Nutzung.ReadPosListsPrefix | nutzung.py:84-85 | A posList that does not read decides the error of all of them. |
| Nutzung.LayerErrPrefix | nutzung.py:85 | Once the run has aborted, later visits do not change its error. |
| Nutzung.AbortSticks | nutzung.py:67-85 | An abort within the first tags is the result of the whole run. |
| Nutzung.LayerAborts | nutzung.py:81-88 | The run aborts iff some visited element has posLists of which one does not read. |
| Nutzung.LayerRecords | nutzung.py:99-100 | There are at most as many records as visited elements, and every record is the record of some visited element. |
| Kataster.StrLessTotal | kat.py:22 | Any two distinct keys are ordered one way or the other. |
| Kataster.StrLessTransitive | kat.py:22 | The key order is transitive. |
| Kataster.InsertKeySorted | kat.py:22 | Inserting a key into a sorted key list keeps it sorted. |
| Kataster.Gemarkungen | kat.py:22 | The group keys are exactly the Gemarkung values of the rows. |
| Kataster.GemarkungenSorted | kat.py:22 | The group keys are distinct and in ascending order. |
| Kataster.GroupOf | kat.py:22 | A group holds exactly the rows with that key. |
| Kataster.GroupStartsAtFirstRow | kat.py:34 | A group's first row is the first row of the layer with that key. |
| Kataster.Schluessel | kat.py:37 | `split('___')[0]` is a prefix of the parcel key. |
| Kataster.SchluesselBeforeFirstDelimiter | kat.py:37 | The prefix stops at the first `___`, or is the whole key when there is none. |
| Kataster.SchluesselOfKey | kat.py:37 | A key `district___rest` whose district has no underscore gives that district. |
| Kataster.SampleData | kat.py:34-38 | The sample is the first row's Gemeinde and key prefix. An empty group raises IndexError, and a first row without a parcel key raises AttributeError. |
| Kataster.GroupingMembers | kat.py:22-31 | After the loop, the recorded keys are exactly the group keys whose merged geometry is not skipped. |
| Kataster.GroupingSorted | kat.py:22-31 | The recorded keys keep the sorted group order. |
| Kataster.GroupingValues | kat.py:22-38 | Every recorded key has a non-empty group, the group's merged boundary and its first-row sample. |
| Kataster.GroupingErrSticks | kat.py:34-38 | Once the loop fails on a group, later groups do not change its error. |
| Kataster.GroupingAborts | kat.py:28-38 | The grouping fails iff some group that is not skipped has a first row without a parcel key. |
| Kataster.GroupParcels | kat.py:20-38 | The groupby loop computes the grouping of the sorted group keys. |
| Kataster.KatasterAborts | kat.py:22-38 | The script fails iff some Gemarkung whose merged geometry is not skipped has a first row without a parcel key. |
| Kataster.GemarkungRecord | kat.py:58 | The Gemarkung record is named after its Gemarkung. It carries the sampled key, its oid is "DE" and that key, and it carries the sampled Gemeinde. |
| Kataster.FlurRecord | kat.py:67 | The Flur record is named "Flur". Its key is the sampled key and "00", its oid is "DE", that key and "0", and it carries the sampled Gemeinde. |
| Kataster.Batch | kat.py:56-71 | A batch has one outline per exterior ring of the boundary, in order, each with the same record. |
| Kataster.GroupLayer | kat.py:52-71 | A boundary of k parts gives 2k records and shapes, 2 for a polygon: k Gemarkung records with the parts in order, then k Flur records that repeat the same outlines in the same order. |
| Kataster.WriteBatch | kat.py:55-71 | The batch loop appends to the layer one copy of the record per part of the boundary, each with that part's outline. |
| Kataster.EmitGroup | kat.py:53-71 | One pass of the emission loop appends the group's Gemarkung batch, then its Flur batch. |
| Kataster.EmitKataster | kat.py:52-71 | The emission loop writes the batches of every recorded key, in insertion order. |
| Kataster.Kataster | kat.py:20-71 | The script computes the layer of its grouping, or the grouping's error. |
| Kataster.LayerOfCounts | kat.py:52-71 | The layer has as many records as shapes, twice the total number of parts. |
| Kataster.LayerOfRecords | kat.py:52-71 | Every record is the Gemarkung or the Flur record of some recorded key. |
| Kataster.GroupsInKeyOrder | kat.py:22-52 | Groups are emitted in ascending key order, exactly those whose merged geometry is not skipped. |
| Kataster.SkippedWritesNothing | kat.py:28-30 | A skipped group gets no Gemarkung record. |
| Kataster.SampleFromFirstRow | kat.py:34-38 | An emitted group's Gemeinde and key come from the first row of the layer with that Gemarkung. |

## Left out

- XML parsing (`ET.parse`, `find`, `findall`): the documents are given as datatypes. An element whose text is None (an empty element) is modelled like one with the empty text. Besides formatting and dictionary keys, this changes behaviour where the source calls a method on such a text. The lines below name each case.
- Coordinates.ExtractCoordinates: an empty `gml:posList` element makes `posList.strip()` raise AttributeError (flurstueck.py:16). The model reads it as zero tokens. The parcel therefore resolves, where the script aborts the parcel layer.
- Flurstueck.ProcessSingleFlurstueck: an empty `gemeinde` element makes `merged_value + gemeinde_code` raise TypeError (flurstueck.py:114). The model uses the empty code. Flurstueck.ResolveParcel has the same gap.
- Nutzung.ElementOutput: an empty `gml:posList` element makes `coords_text.split()` raise AttributeError (nutzung.py:46). That call is reached from line 85, outside the try, so the run aborts. The model reads zero tokens instead.
- Verwaltung.Ueobjekt: an empty `schluesselGesamt` element makes `schluessel[:5]` or `schluessel[:3]` raise TypeError (ver.py:107, 113). The model slices the empty key.
- Float parsing: a posList is a sequence of tokens, each numeric or not. Whitespace splitting and the numeric values are not modelled.
- shapely and geopandas: `Polygon(...)`, `buffer(0)`, `is_valid`, `unary_union` and `.exterior` are floating-point geometry in foreign libraries. What they produce is a parameter, either a `merge`/`build` function or the merged geometry itself, reduced to polygon / multipolygon / other.
- Flurstueck.ResolveParcel: shapely's `Polygon(polygon_coords)` is not modelled. The record keeps the point list, so a parcel whose point count shapely rejects counts as resolving here.
- Flurstueck.ProcessSingleFlurstueck: the same gap in shapely's `Polygon(polygon_coords)`.
- Flurstueck.ResolveParcels: the worker pool is modelled as a sequential map. When several parcels fail, the model reports the first in document order. The pool may surface another one, and the contract only promises "some failing parcel".
- Multiprocessing, shapefile writing (`w.poly`, `w.record`, `autoBalance`), GeoDataFrame construction, CRS and `.prj` files, printing, timing and command-line arguments are I/O. The code table of `nutzung.py` is read from JSON, and it is a parameter `bezDict` here.
- Kataster.GroupOf: pandas `groupby` also drops rows whose Gemarkung is missing (NaN). Rows here always carry a Gemarkung string. Keys are sorted by code point, which is how Python compares strings.
- The reading of the parcel layer back from a shapefile in `kat.py`, and the exterior-only reconstruction `Polygon(merged.exterior)`, are left out. A geometry here is already its exterior rings.
- app.py, main.py and nutflu.py are not part of this model: they orchestrate the scripts, run subprocesses, drive the user interface, and overlay layers with geopandas.

## Findings

| source | as written | input that shows it | evidently intended | confidence | as-written member | corrected member |
|---|---|---|---|---|---|---|
| flurstueck.py:101-108 | Without an AX_Gemeindekennzeichen block, the else branch binds `land`, `regierungsbezirk` and `gemeinde_code` but not `kreis`. Line 108 then reads `kreis` and raises UnboundLocalError, which aborts the whole parcel layer. | A parcel with `zaehler` "5", no `nenner` and no AX_Gemeindekennzeichen block | No municipality key and "<null>" for every administrative label, as lines 102-105 and 114 prepare | high (not executed) | Flurstueck.ParcelFiveAsWritten | Flurstueck.ParcelFiveIntended |
