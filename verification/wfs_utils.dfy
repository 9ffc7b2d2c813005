/** The string handling of api/wfs_utils.py with its HTTP requests and XPath
    evaluation taken out: what the functions make of the response text and
    of the XPath matches they are given. */
module WfsUtils {
  import opened Py
  import opened Rdf
  import StratUnits

  // ---------------------------------------------------------------------------
  // safe_list_get

  /** `safe_list_get(ls, idx, default)` (wfs_utils.py:71-75): `ls[idx]` with
      Python's negative indices, or the fallback when the index is out of
      range. */
  function SafeListGet<T>(ls: seq<T>, idx: int, fallback: T): (r: T)
    ensures 0 <= idx < |ls| ==> r == ls[idx]
    ensures -|ls| <= idx < 0 ==> r == ls[|ls| + idx]
    ensures idx < -|ls| || |ls| <= idx ==> r == fallback
  {
    match PyIndex(ls, idx)
    case Ok(v) => v
    case Err(_) => fallback
  }

  /** Counting from the end reaches the same element as counting from the
      front, and the fallback is only returned for indices no element has. */
  lemma SafeListGetFromEnd<T>(ls: seq<T>, i: nat, fallback: T)
    requires i < |ls|
    ensures SafeListGet(ls, i - |ls|, fallback) == SafeListGet(ls, i, fallback) == ls[i]
    ensures SafeListGet(ls, |ls|, fallback) == fallback == SafeListGet(ls, -|ls| - 1, fallback)
  {
  }

  // ---------------------------------------------------------------------------
  // The feature count of get_no_of_stratunits

  /** The attribute of a WFS `hits` response that holds the count. */
  const CountMarker := "numberOfFeatures=\""
  const Quote := "\""

  /** `int(text.split('numberOfFeatures="', 1)[1].split('"', 1)[0])`
      (wfs_utils.py:21): the numeral between the marker and the next quote. */
  function NumberOfFeatures(text: string): (r: Result<int>)
    ensures !Contains(text, CountMarker) ==> r == Err(IndexError)
    ensures Contains(text, CountMarker) && r.Err? ==> r.error == ValueError
    ensures r.Ok? <==> exists i | 0 <= i && i + |CountMarker| <= |text| ::
      FirstAt(text, CountMarker, i) && NumeralAt(text, i + |CountMarker|)
    ensures r.Ok? ==> 0 <= r.value
    ensures r.Ok? ==> exists i | 0 <= i && i + |CountMarker| <= |text| ::
      FirstAt(text, CountMarker, i) && CountAt(text, i + |CountMarker|, r.value)
  {
    var after :- AfterFirst(text, CountMarker);
    var numeral := BeforeFirst(after, Quote);
    var i :| 0 <= i <= |text| && FirstAt(text, CountMarker, i) && text == text[..i] + CountMarker + after;
    assert after == text[i + |CountMarker|..];
    assert forall j | 0 <= j && j + |CountMarker| <= |text| && FirstAt(text, CountMarker, j) :: j == i;
    ParseInt(numeral)
  }

  /** From `start` on, `text` has a decimal numeral up to the next quote or
      the end. */
  predicate NumeralAt(text: string, start: nat)
    requires start <= |text|
  {
    var numeral := BeforeFirst(text[start..], Quote);
    |numeral| > 0 && AllDigits(numeral)
  }

  /** From `start` on, `text` spells the numeral of `n` up to the next quote
      or the end. */
  predicate CountAt(text: string, start: nat, n: int)
    requires start <= |text|
  {
    NumeralAt(text, start) && n == DigitsValue(BeforeFirst(text[start..], Quote))
  }

  lemma CountMarkerHeadUnique()
    ensures HeadUnique(CountMarker) && HeadUnique(Quote)
  {
  }

  lemma NoQuoteInDigits(s: string)
    requires AllDigits(s)
    ensures !Contains(s, Quote)
  {
    AvoidsHead(s, Quote);
  }

  /** A response whose first count attribute spells `n` parses to `n`,
      whatever surrounds it. */
  lemma NumberOfFeaturesOf(before: string, n: nat, after: string)
    requires !Contains(before, CountMarker)
    ensures NumberOfFeatures(before + CountMarker + Decimal(n) + Quote + after) == Ok(n)
  {
    CountMarkerHeadUnique();
    var rest := Decimal(n) + Quote + after;
    assert before + CountMarker + Decimal(n) + Quote + after == before + CountMarker + rest;
    AfterFirstOf(before, CountMarker, rest);
    NoQuoteInDigits(Decimal(n));
    BeforeFirstOf(Decimal(n), Quote, after);
    ParseDecimal(n);
  }

  // ---------------------------------------------------------------------------
  // The unit index of store_stratunit_index

  /** The prefix of the WFS `fid` attribute of a stratigraphic unit. */
  const FidPrefix := "StratigraphicUnit."
  const IndexPrefix := "SU"

  /** The index `fid` (wfs_utils.py:45-47): "SU" followed by the `fid`
      attribute with every "StratigraphicUnit." removed. */
  function IndexFid(fidAttribute: string): (r: string)
    ensures |IndexPrefix| <= |r| && r[..|IndexPrefix|] == IndexPrefix
    ensures |r| <= |IndexPrefix| + |fidAttribute|
    ensures !Contains(fidAttribute, FidPrefix) ==> r == IndexPrefix + fidAttribute
  {
    IndexPrefix + ReplaceAll(fidAttribute, FidPrefix, "")
  }

  lemma NoFidPrefixInDigits(s: string)
    requires AllDigits(s)
    ensures !Contains(s, FidPrefix)
  {
    AvoidsHead(s, FidPrefix);
  }

  /** The `fid` "StratigraphicUnit.<n>" of unit number `n` is indexed as
      "SU<n>". */
  lemma IndexFidOfNumber(n: nat)
    ensures IndexFid(FidPrefix + Decimal(n)) == IndexPrefix + Decimal(n)
  {
    NoFidPrefixInDigits(Decimal(n));
    ReplaceAllSplits([], FidPrefix, Decimal(n), "");
    assert [] + FidPrefix + Decimal(n) == FidPrefix + Decimal(n);
  }

  /** What the XPath queries of one `gml:featureMember` matched: the unit's
      `fid` attributes and its names. */
  datatype FeatureMember = FeatureMember(fids: seq<string>, names: seq<string>)

  /** Both queries of the member matched something. */
  predicate Indexable(m: FeatureMember) {
    |m.fids| > 0 && |m.names| > 0
  }

  /** The triples of an indexable member. */
  function Entry(m: FeatureMember): Graph
    requires Indexable(m)
  {
    var fid := IndexFid(m.fids[0]);
    var u := IRI(Gfs + fid);
    {Triple(u, RdfType, IRI(Rdf.StratUnit)), Triple(u, DctIdentifier, Lit(Text(fid), None)),
     Triple(u, DctTitle, Lit(Text(m.names[0]), None))}
  }

  /** The three triples of one indexed unit (wfs_utils.py:45-64), taking the
      first `fid` and then the first name. */
  function IndexEntry(m: FeatureMember): (r: Result<Graph>)
    ensures r.Ok? <==> Indexable(m)
    ensures r.Err? ==> r.error == IndexError
    ensures r.Ok? ==> r.value == Entry(m) && |r.value| == 3
    ensures r.Ok? ==> var fid := IndexFid(m.fids[0]); var u := IRI(Gfs + fid);
      && (forall t | t in r.value :: t.s == u)
      && Objects(r.value, u, RdfType) == {IRI(Rdf.StratUnit)}
      && Objects(r.value, u, DctIdentifier) == {Lit(Text(fid), None)}
      && Objects(r.value, u, DctTitle) == {Lit(Text(m.names[0]), None)}
  {
    var fidAttribute :- Item(m.fids, 0);
    var fid := IndexFid(fidAttribute);
    var name :- Item(m.names, 0);
    var u := IRI(Gfs + fid);
    var g := {Triple(u, RdfType, IRI(Rdf.StratUnit)), Triple(u, DctIdentifier, Lit(Text(fid), None)),
              Triple(u, DctTitle, Lit(Text(name), None))};
    assert Objects(g, u, RdfType) == {IRI(Rdf.StratUnit)};
    assert Objects(g, u, DctIdentifier) == {Lit(Text(fid), None)};
    assert Objects(g, u, DctTitle) == {Lit(Text(name), None)};
    Ok(g)
  }

  /** The entries of all members, in order, failing at the first member
      with no match. */
  function Entries(ms: seq<FeatureMember>): (r: Result<seq<Graph>>)
    ensures r.Ok? <==> forall i | 0 <= i < |ms| :: Indexable(ms[i])
    ensures r.Err? ==> r.error == IndexError
    ensures r.Ok? ==> |r.value| == |ms| && forall i | 0 <= i < |ms| :: r.value[i] == Entry(ms[i])
  {
    if |ms| == 0 then Ok([])
    else
      var entry :- IndexEntry(ms[0]);
      var rest :- Entries(ms[1..]);
      Ok([entry] + rest)
  }

  /** The union of a sequence of graphs. */
  function UnionAll(gs: seq<Graph>): (r: Graph)
    ensures forall i | 0 <= i < |gs| :: gs[i] <= r
    ensures forall t | t in r :: exists i | 0 <= i < |gs| :: t in gs[i]
  {
    if |gs| == 0 then {}
    else
      var rest := UnionAll(gs[1..]);
      assert forall t | t in rest :: exists i | 0 <= i < |gs| :: t in gs[i] by {
        forall t | t in rest
          ensures exists i | 0 <= i < |gs| :: t in gs[i]
        {
          var j :| 0 <= j < |gs[1..]| && t in gs[1..][j];
          assert gs[1..][j] == gs[j + 1];
        }
      }
      gs[0] + rest
  }

  /** The index graph of every feature member (wfs_utils.py:44-64): the
      union of their entries, failing at the first member with no match. */
  function IndexGraph(ms: seq<FeatureMember>): (r: Result<Graph>)
    ensures r.Ok? <==> forall i | 0 <= i < |ms| :: Indexable(ms[i])
    ensures r.Err? ==> r.error == IndexError
    ensures r.Ok? ==> forall i | 0 <= i < |ms| :: Entry(ms[i]) <= r.value
    ensures r.Ok? ==> forall t | t in r.value :: exists i | 0 <= i < |ms| :: t in Entry(ms[i])
  {
    var es :- Entries(ms);
    Ok(UnionAll(es))
  }

  /** The prefix of `Gfs` before its last "/". */
  const GfsBase := GaHost + GfsPath

  lemma GfsBaseLacksS()
    ensures Lacks(GfsBase, 'S')
  {
    assert forall i | 0 <= i < |GaHost| :: GaHost[i] != 'S';
    assert forall i | 0 <= i < |GfsPath| :: GfsPath[i] != 'S';
    LacksJoin(GaHost, GfsPath, 'S');
  }

  lemma GfsBaseAvoidsMarker()
    ensures Gfs == GfsBase + "/"
    ensures !Contains(GfsBase, StratUnits.UnitMarker)
  {
    var p, pat := GfsBase, StratUnits.UnitMarker;
    GfsBaseLacksS();
    forall k | 0 <= k <= |p|
      ensures !OccursAt(p, pat, k)
    {
      if k + |pat| <= |p| {
        assert p[k..k + |pat|][1] == p[k + 1];
      }
    }
  }

  /** The index URI of unit number `n` is one whose identifier, as a unit
      reads it from its URI, is `n` again: the index and the unit pages
      agree on the number. */
  lemma IndexUriIdentifier(n: nat)
    ensures StratUnits.Identifier(Gfs + IndexFid(FidPrefix + Decimal(n))) == Ok(Decimal(n))
  {
    var d := Decimal(n);
    IndexFidOfNumber(n);
    IndexUriSplit(d);
    GfsBaseAvoidsMarker();
    assert !Contains(d, StratUnits.UnitMarker) by {
      assert forall i | 0 <= i < |d| :: d[i] != '/';
      AvoidsHead(d, StratUnits.UnitMarker);
    }
    StratUnits.IdentifierOfUnitUri(GfsBase, d);
  }

  lemma IndexUriSplit(d: string)
    ensures Gfs + (IndexPrefix + d) == GfsBase + StratUnits.UnitMarker + d
  {
    assert Gfs + IndexPrefix == GfsBase + StratUnits.UnitMarker;
  }

  // ---------------------------------------------------------------------------
  // get_strat_unit

  /** The prefix of a geologic unit's feature id in the GeoSciML-Basic WFS. */
  const FeatureIdPrefix := "asud.gsml.geologicunit."

  /** The `featureid` request parameter (wfs_utils.py:85). */
  function FeatureIdParam(provinceId: string): (r: string)
    ensures |r| == |FeatureIdPrefix| + |provinceId|
    ensures r[..|FeatureIdPrefix|] == FeatureIdPrefix
  {
    FeatureIdPrefix + provinceId
  }

  /** The id can be read back from the parameter. */
  lemma FeatureIdRoundTrip(provinceId: string)
    ensures AfterFirst(FeatureIdParam(provinceId), FeatureIdPrefix) == Ok(provinceId)
  {
    assert HeadUnique(FeatureIdPrefix);
    assert [] + FeatureIdPrefix + provinceId == FeatureIdParam(provinceId);
    AfterFirstOf([], FeatureIdPrefix, provinceId);
  }

  /** What the five XPath queries of `get_strat_unit` matched. */
  datatype UnitMatches = UnitMatches(
    names: seq<string>,
    observationMethods: seq<string>,
    purposes: seq<string>,
    unitTypeUris: seq<string>,
    unitTypeLabels: seq<string>)

  const RecordKeys: set<string> :=
    {"title", "observationMethod", "purpose", "geologicUnitType_uri", "geologicUnitType_prefLabel"}

  /** The record `get_strat_unit` returns (wfs_utils.py:100-106): the first
      match of each query under its key, evaluated in the order written. */
  function GetStratUnitRecord(x: UnitMatches): (r: Result<map<string, string>>)
    ensures r.Ok? <==> (|x.names| > 0 && |x.observationMethods| > 0 && |x.purposes| > 0
      && |x.unitTypeUris| > 0 && |x.unitTypeLabels| > 0)
    ensures r.Err? ==> r.error == IndexError
    ensures r.Ok? ==> r.value.Keys == RecordKeys
    ensures r.Ok? ==> (r.value["title"] == x.names[0] && r.value["observationMethod"] == x.observationMethods[0]
      && r.value["purpose"] == x.purposes[0] && r.value["geologicUnitType_uri"] == x.unitTypeUris[0]
      && r.value["geologicUnitType_prefLabel"] == x.unitTypeLabels[0])
  {
    var title :- Item(x.names, 0);
    var observation :- Item(x.observationMethods, 0);
    var purpose :- Item(x.purposes, 0);
    var typeUri :- Item(x.unitTypeUris, 0);
    var typeLabel :- Item(x.unitTypeLabels, 0);
    Ok(map["title" := title, "observationMethod" := observation, "purpose" := purpose,
           "geologicUnitType_uri" := typeUri, "geologicUnitType_prefLabel" := typeLabel])
  }

  /** Reading `self.<name>` of a unit whose properties were set from
      `record` one key at a time (feature.py:23-24), for a name that
      `StratUnit.__init__` does not set itself: a key of the record gives its
      value, any other name raises AttributeError. */
  function RecordAttribute(record: map<string, string>, name: string): (r: Result<string>)
    ensures r.Ok? <==> name in record
    ensures r.Ok? ==> r.value == record[name]
    ensures r.Err? ==> r.error == MissingAttribute(name)
  {
    if name in record then Ok(record[name]) else Err(MissingAttribute(name))
  }

  /** The record's keys are not the attribute names the graph builders read:
      `title` (feature.py:33) is set from it, but `geologicUnitType`
      (feature.py:83), `stratigraphicRank` (feature.py:97) and `eventProcess`
      (feature.py:105, 222) are not among its keys, so reading them raises
      AttributeError. */
  lemma {:induction false} RecordLookups(x: UnitMatches)
    requires GetStratUnitRecord(x).Ok?
    ensures "title" in GetStratUnitRecord(x).value.Keys
    ensures RecordAttribute(GetStratUnitRecord(x).value, "title") == Ok(x.names[0])
    ensures "geologicUnitType" !in GetStratUnitRecord(x).value.Keys
    ensures "stratigraphicRank" !in GetStratUnitRecord(x).value.Keys
    ensures "eventProcess" !in GetStratUnitRecord(x).value.Keys
    ensures RecordAttribute(GetStratUnitRecord(x).value, "geologicUnitType") == Err(MissingAttribute("geologicUnitType"))
    ensures RecordAttribute(GetStratUnitRecord(x).value, "stratigraphicRank") == Err(MissingAttribute("stratigraphicRank"))
    ensures RecordAttribute(GetStratUnitRecord(x).value, "eventProcess") == Err(MissingAttribute("eventProcess"))
  {
    assert "geologicUnitType" !in RecordKeys;
    assert "stratigraphicRank" !in RecordKeys;
    assert "eventProcess" !in RecordKeys;
  }
}
