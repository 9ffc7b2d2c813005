/** `StratUnitRenderer` (api/model/feature.py:463-539): finding the requested
    unit in the data graph, and turning the negotiated profile and media type
    into a response. Negotiation itself happens in the base `Renderer`, which
    is not part of this model: its outcome (the profile token, the media type,
    the base response and the set of RDF media types) is given. */
module Renderer {
  import opened Py
  import opened Rdf
  import opened StratUnits
  import opened SuProfile
  import opened Loop3dProfile

  // ---------------------------------------------------------------------------
  // Profiles

  /** The tokens of the profile table (feature.py:469-474); "su" is the
      default, which the base class applies before this model starts. */
  const ProfileTokens: set<string> := {"geosp", "loop3d", "su", "gsmlb"}

  // ---------------------------------------------------------------------------
  // Finding the unit

  /** The subjects of the triples with predicate `p` and object `o`, as
      rdflib's `g.subjects(predicate=p, object=o)`. */
  function Subjects(g: Graph, p: string, o: Node): set<Node> {
    set t | t in g && t.p == p && t.o == o :: t.s
  }

  /** `order` lists the elements of `s`, each once: an iteration order. */
  predicate Enumerates(order: seq<Node>, s: set<Node>) {
    && (forall i, j | 0 <= i < j < |order| :: order[i] != order[j])
    && (forall i | 0 <= i < |order| :: order[i] in s)
    && (forall n | n in s :: n in order)
  }

  /** The plain literal `Literal(text)`. */
  function PlainLiteral(text: string): Node {
    Lit(Text(text), None)
  }

  const UnknownCollection := "You have entered an unknown Collection ID"

  /** `str(s)` of a subject: an IRI's text, a literal's lexical form, and for
      a blank node the label rdflib generated for it, written here as "N"
      followed by its number (rdflib's labels are "N" and hex digits; neither
      contains "/SU"). */
  function NodeText(n: Node): string {
    match n
    case IRI(iri) => iri
    case Blank(id) => "N" + Decimal(id)
    case Lit(lexical, _) => lexical.text
  }

  /** `StratUnit(str(s))` (feature.py:492), with the WFS fetch and the
      landing page it depends on. */
  function UnitOf(fetch: string -> Result<Fields>, landingPage: string): Node -> Result<StratUnit> {
    s => NewStratUnit(NodeText(s), fetch, landingPage, None)
  }

  /** The loop over the items (feature.py:488-492): every item that is part
      of `collection` is turned into a unit, and the last one is kept. */
  function LastMember(g: Graph, collection: Node, items: seq<Node>, makeUnit: Node -> Result<StratUnit>,
                      found: Option<StratUnit>): (r: Result<Option<StratUnit>>)
    ensures r.Ok? <==> forall i | 0 <= i < |items| :: Triple(items[i], DctIsPartOf, collection) in g ==> makeUnit(items[i]).Ok?
    ensures r.Ok? && r.value.Some? ==> r.value == found || exists i | 0 <= i < |items| ::
      Triple(items[i], DctIsPartOf, collection) in g && makeUnit(items[i]) == Ok(r.value.value)
    ensures r.Ok? && r.value.None? ==> found.None?
    ensures r.Ok? && found.None? && r.value.None? ==> forall i | 0 <= i < |items| :: Triple(items[i], DctIsPartOf, collection) !in g
    ensures r.Ok? && (exists i | 0 <= i < |items| :: Triple(items[i], DctIsPartOf, collection) in g) ==> r.value.Some?
    ensures r.Ok? ==> forall j | 0 <= j < |items| && Triple(items[j], DctIsPartOf, collection) in g
      && (forall i | j < i < |items| :: Triple(items[i], DctIsPartOf, collection) !in g) :: r.value == Some(makeUnit(items[j]).value)
    decreases |items|
  {
    if |items| == 0 then Ok(found)
    else
      var s := items[0];
      var next :- if Triple(s, DctIsPartOf, collection) in g then
                    (var u :- makeUnit(s); Ok(Some(u)))
                  else Ok(found);
      var r := LastMember(g, collection, items[1..], makeUnit, next);
      assert forall i | 1 <= i < |items| :: items[1..][i - 1] == items[i];
      r
  }

  /** The lookups of `StratUnitRenderer.__init__` (feature.py:477-492). The
      collection is the last subject, in iteration order, whose identifier is
      `collectionId`; the feature is the last subject whose identifier is
      `itemId` and that is part of that collection, made into a unit by
      `StratUnit(str(s))`. rdflib's iteration orders are given as
      `collections` and `items`. */
  function ResolveFeature(g: Graph, collectionId: string, itemId: string,
                          collections: seq<Node>, items: seq<Node>,
                          fetch: string -> Result<Fields>, landingPage: string): (r: Result<Option<StratUnit>>)
    requires Enumerates(collections, Subjects(g, DctIdentifier, PlainLiteral(collectionId)))
    requires Enumerates(items, Subjects(g, DctIdentifier, PlainLiteral(itemId)))
    ensures Subjects(g, DctIdentifier, PlainLiteral(collectionId)) == {} <==> |collections| == 0
    ensures |collections| == 0 ==> r == Err(Raised(UnknownCollection))
    ensures |collections| > 0 ==> (r.Ok? <==> forall s ::
      Triple(s, DctIdentifier, PlainLiteral(itemId)) in g && Triple(s, DctIsPartOf, collections[|collections| - 1]) in g
      ==> NewStratUnit(NodeText(s), fetch, landingPage, None).Ok?)
    ensures r.Ok? && |collections| > 0 ==> forall j | 0 <= j < |items|
      && Triple(items[j], DctIsPartOf, collections[|collections| - 1]) in g
      && (forall i | j < i < |items| :: Triple(items[i], DctIsPartOf, collections[|collections| - 1]) !in g)
      :: r.value == Some(NewStratUnit(NodeText(items[j]), fetch, landingPage, None).value)
    ensures r.Ok? && r.value.Some? ==> exists s ::
      && Triple(s, DctIdentifier, PlainLiteral(itemId)) in g
      && Triple(s, DctIsPartOf, collections[|collections| - 1]) in g
      && NewStratUnit(NodeText(s), fetch, landingPage, None) == Ok(r.value.value)
    ensures r.Ok? && r.value.None? && |collections| > 0 ==> forall s ::
      Triple(s, DctIdentifier, PlainLiteral(itemId)) in g ==> Triple(s, DctIsPartOf, collections[|collections| - 1]) !in g
  {
    if |collections| == 0 then
      assert forall n | n in Subjects(g, DctIdentifier, PlainLiteral(collectionId)) :: n in collections;
      Err(Raised(UnknownCollection))
    else
      var c := collections[|collections| - 1];
      var makeUnit := UnitOf(fetch, landingPage);
      assert c in Subjects(g, DctIdentifier, PlainLiteral(collectionId));
      assert forall i | 0 <= i < |items| :: items[i] in Subjects(g, DctIdentifier, PlainLiteral(itemId));
      var r := LastMember(g, c, items, makeUnit, None);
      assert r.Ok? <==> forall s ::
        Triple(s, DctIdentifier, PlainLiteral(itemId)) in g && Triple(s, DctIsPartOf, c) in g
        ==> NewStratUnit(NodeText(s), fetch, landingPage, None).Ok? by {
        forall s | Triple(s, DctIdentifier, PlainLiteral(itemId)) in g
          ensures exists i | 0 <= i < |items| :: items[i] == s
        {
          assert s in Subjects(g, DctIdentifier, PlainLiteral(itemId));
        }
      }
      assert r.Ok? && r.value.None? ==> forall s ::
        Triple(s, DctIdentifier, PlainLiteral(itemId)) in g ==> Triple(s, DctIsPartOf, c) !in g by {
        if r.Ok? && r.value.None? {
          forall s | Triple(s, DctIdentifier, PlainLiteral(itemId)) in g
            ensures Triple(s, DctIsPartOf, c) !in g
          {
            assert s in Subjects(g, DctIdentifier, PlainLiteral(itemId));
          }
        }
      }
      r
  }

  /** With one collection and one member of it carrying the item id, that
      member is the feature, whatever the iteration orders. */
  lemma ResolveUnique(g: Graph, collectionId: string, itemId: string,
                      collections: seq<Node>, items: seq<Node>,
                      fetch: string -> Result<Fields>, landingPage: string, c: Node, s: Node)
    requires Enumerates(collections, Subjects(g, DctIdentifier, PlainLiteral(collectionId)))
    requires Enumerates(items, Subjects(g, DctIdentifier, PlainLiteral(itemId)))
    requires Subjects(g, DctIdentifier, PlainLiteral(collectionId)) == {c}
    requires Triple(s, DctIdentifier, PlainLiteral(itemId)) in g && Triple(s, DctIsPartOf, c) in g
    requires forall n | n != s && Triple(n, DctIdentifier, PlainLiteral(itemId)) in g :: Triple(n, DctIsPartOf, c) !in g
    requires NewStratUnit(NodeText(s), fetch, landingPage, None).Ok?
    ensures ResolveFeature(g, collectionId, itemId, collections, items, fetch, landingPage)
      == Ok(Some(NewStratUnit(NodeText(s), fetch, landingPage, None).value))
  {
    assert c in collections;
    assert collections[|collections| - 1] == c;
    assert s in Subjects(g, DctIdentifier, PlainLiteral(itemId));
    var k :| 0 <= k < |items| && items[k] == s;
    OnlyMember(g, c, items, UnitOf(fetch, landingPage), None, k);
  }

  /** The loop keeps the unit of the one member of the collection. */
  lemma {:induction false} OnlyMember(g: Graph, c: Node, items: seq<Node>, makeUnit: Node -> Result<StratUnit>,
                                      found: Option<StratUnit>, k: nat)
    requires k < |items| && Triple(items[k], DctIsPartOf, c) in g && makeUnit(items[k]).Ok?
    requires forall i | 0 <= i < |items| && i != k :: Triple(items[i], DctIsPartOf, c) !in g
    ensures LastMember(g, c, items, makeUnit, found) == Ok(Some(makeUnit(items[k]).value))
    decreases |items|
  {
    var next := if Triple(items[0], DctIsPartOf, c) in g then Some(makeUnit(items[0]).value) else found;
    if k == 0 {
      NoMembers(g, c, items[1..], makeUnit, next);
    } else {
      assert forall i | 0 <= i < |items[1..]| :: items[1..][i] == items[i + 1];
      OnlyMember(g, c, items[1..], makeUnit, next, k - 1);
    }
  }

  lemma {:induction false} NoMembers(g: Graph, c: Node, items: seq<Node>, makeUnit: Node -> Result<StratUnit>,
                                     found: Option<StratUnit>)
    requires forall i | 0 <= i < |items| :: Triple(items[i], DctIsPartOf, c) !in g
    ensures LastMember(g, c, items, makeUnit, found) == Ok(found)
    decreases |items|
  {
    if |items| > 0 {
      assert forall i | 0 <= i < |items[1..]| :: items[1..][i] == items[i + 1];
      NoMembers(g, c, items[1..], makeUnit, found);
    }
  }

  // ---------------------------------------------------------------------------
  // The renderer and its responses

  /** The state `StratUnitRenderer.__init__` leaves: `feature` is `None` when
      no unit was found (the attribute is then never set). */
  datatype StratUnitRenderer = StratUnitRenderer(
    featureId: string,
    profile: string,
    mediatype: string,
    feature: Option<StratUnit>,
    links: seq<Link>)

  /** `StratUnitRenderer.__init__` (feature.py:463-497), once the base class
      has chosen `profile` and `mediatype`. Only the gsmlb profile skips the
      lookup. */
  function NewRenderer(profile: string, mediatype: string, collectionId: string, itemId: string,
                       otherLinks: Option<seq<Link>>, g: Graph, collections: seq<Node>, items: seq<Node>,
                       fetch: string -> Result<Fields>, landingPage: string): (r: Result<StratUnitRenderer>)
    requires Enumerates(collections, Subjects(g, DctIdentifier, PlainLiteral(collectionId)))
    requires Enumerates(items, Subjects(g, DctIdentifier, PlainLiteral(itemId)))
    ensures profile == "gsmlb" ==> r == Ok(StratUnitRenderer(itemId, profile, mediatype, None, []))
    ensures profile != "gsmlb" ==> (r.Ok? <==> ResolveFeature(g, collectionId, itemId, collections, items, fetch, landingPage).Ok?)
    ensures r.Ok? ==> r.value.featureId == itemId && r.value.profile == profile && r.value.mediatype == mediatype
    ensures r.Ok? && profile != "gsmlb" ==> r.value.links == if otherLinks.Some? then otherLinks.value else []
    ensures r.Ok? && profile != "gsmlb" ==> r.value.feature == ResolveFeature(g, collectionId, itemId, collections, items, fetch, landingPage).value
    ensures profile != "gsmlb" && Subjects(g, DctIdentifier, PlainLiteral(collectionId)) == {} ==> r == Err(Raised(UnknownCollection))
  {
    if profile == "gsmlb" then Ok(StratUnitRenderer(itemId, profile, mediatype, None, []))
    else
      var feature :- ResolveFeature(g, collectionId, itemId, collections, items, fetch, landingPage);
      var links := if otherLinks.Some? then otherLinks.value else [];
      Ok(StratUnitRenderer(itemId, profile, mediatype, feature, links))
  }

  /** What a response carries: the original XML of a province id, the HTML
      page of a unit, a serialised graph with its rdflib format, or text. */
  datatype Body =
    | OriginalXml(provinceId: string)
    | UnitPage(unit: StratUnit, links: seq<Link>)
    | Serialised(format: string, graph: Graph)
    | Plain(message: string)

  datatype Response = Response(status: nat, mimetype: string, body: Body)

  /** The media types serialised as JSON-LD (feature.py:530). */
  const JsonLdMediaTypes: set<string> := {"application/rdf+json", "application/json"}
  const JsonLd := "json-ld"

  /** The 400 message around the media type, split at its two quotes. */
  const RejectionIntro := "The Media Type you requested, "
  const RejectionOutro := ", cannot be serialized to"
  const RejectionHead := RejectionIntro + "'"
  const RejectionTail := "'" + RejectionOutro

  /** `_render_rdf` (feature.py:528-539): JSON-LD for the two JSON media
      types, the media type itself as the format for the other RDF media
      types, and a 400 naming the media type otherwise. */
  function RenderRdf(mediatype: string, rdfMediaTypes: set<string>, g: Graph): (r: Response)
    ensures r.status == 200 <==> mediatype in JsonLdMediaTypes || mediatype in rdfMediaTypes
    ensures r.status == 200 ==> r.mimetype == mediatype && r.body.Serialised? && r.body.graph == g
    ensures r.status == 200 ==> (r.body.format == JsonLd <==> mediatype in JsonLdMediaTypes || mediatype == JsonLd)
    ensures r.status == 200 && mediatype !in JsonLdMediaTypes ==> r.body.format == mediatype
    ensures r.status != 200 ==> (r.status == 400 && r.mimetype == "text/plain"
      && r.body == Plain(RejectionHead + mediatype + RejectionTail))
  {
    if mediatype in JsonLdMediaTypes then Response(200, mediatype, Serialised(JsonLd, g))
    else if mediatype in rdfMediaTypes then Response(200, mediatype, Serialised(mediatype, g))
    else Response(400, "text/plain", Plain(RejectionHead + mediatype + RejectionTail))
  }

  lemma RejectionIntroLacksQuote()
    ensures !Contains(RejectionIntro, "'")
  {
    assert forall i | 0 <= i < |RejectionIntro| :: RejectionIntro[i] != '\'';
    AvoidsHead(RejectionIntro, "'");
  }

  /** The 400 response names the rejected media type: it is what lies
      between the first two quotes of the message. */
  lemma RejectionNamesMediaType(mediatype: string, rdfMediaTypes: set<string>, g: Graph)
    requires RenderRdf(mediatype, rdfMediaTypes, g).status == 400
    requires !Contains(mediatype, "'")
    ensures var m := RenderRdf(mediatype, rdfMediaTypes, g).body.message;
      AfterFirst(m, "'").Ok? && BeforeFirst(AfterFirst(m, "'").value, "'") == mediatype
  {
    RejectionIntroLacksQuote();
    var rest := mediatype + RejectionTail;
    assert RejectionHead + mediatype + RejectionTail == RejectionIntro + "'" + rest;
    assert HeadUnique("'");
    AfterFirstOf(RejectionIntro, "'", rest);
    assert rest == mediatype + "'" + RejectionOutro;
    BeforeFirstOf(mediatype, "'", RejectionOutro);
  }

  const MissingFeature := MissingAttribute("feature")

  /** The unit to render, or the AttributeError of reading `self.feature`
      when the lookup found none. */
  function Feature(r: StratUnitRenderer): (u: Result<StratUnit>)
    ensures u.Ok? <==> r.feature.Some?
    ensures u.Err? ==> u == Err(MissingFeature)
  {
    if r.feature.Some? then Ok(r.feature.value) else Err(MissingFeature)
  }

  /** The province id whose original XML the gsmlb profile returns
      (feature.py:504): the item id with every "SU" removed, after the WFS id
      prefix. */
  function GsmlbProvinceId(featureId: string): (id: string)
    ensures |ProvinceIdPrefix| <= |id| && id[..|ProvinceIdPrefix|] == ProvinceIdPrefix
    ensures !Contains(featureId, IndexPrefixSU) ==> id == ProvinceIdPrefix + featureId
  {
    ProvinceIdPrefix + ReplaceAll(featureId, IndexPrefixSU, "")
  }

  const IndexPrefixSU := "SU"

  /** The gsmlb branch as written (feature.py:502-508): it passes
      `return_original_xml=True` to a `get_strat_unit` that has no such
      parameter (wfs_utils.py:78), which Python rejects before any request. */
  function GsmlbResponseAsWritten(featureId: string): (r: Result<Response>)
    ensures r.Err? && r.error.TypeError?
  {
    Err(TypeError("get_strat_unit() got an unexpected keyword argument 'return_original_xml'"))
  }

  /** The gsmlb branch as intended: the original XML of the unit, as
      application/xml. */
  function GsmlbResponse(featureId: string): (r: Response)
    ensures r.status == 200 && r.mimetype == "application/xml"
    ensures r.body.OriginalXml? && |ProvinceIdPrefix| <= |r.body.provinceId|
      && r.body.provinceId[..|ProvinceIdPrefix|] == ProvinceIdPrefix
      && r.body.provinceId[|ProvinceIdPrefix|..] == ReplaceAll(featureId, IndexPrefixSU, "")
  {
    Response(200, "application/xml", OriginalXml(GsmlbProvinceId(featureId)))
  }

  /** The item id "SU<n>" of a unit asks for the XML of the same province id
      as the unit built from its URI fetches (feature.py:19-22). */
  lemma GsmlbAsksForUnitNumber(n: nat, prefix: string)
    requires !Contains(prefix, UnitMarker)
    ensures var id := GsmlbProvinceId(IndexPrefixSU + Decimal(n));
      && id == ProvinceIdPrefix + Decimal(n)
      && Identifier(prefix + UnitMarker + Decimal(n)).Ok?
      && id == ProvinceIdPrefix + Identifier(prefix + UnitMarker + Decimal(n)).value
  {
    var d := Decimal(n);
    assert forall i | 0 <= i < |d| :: d[i] != 'S' && d[i] != '/';
    AvoidsHead(d, IndexPrefixSU);
    AvoidsHead(d, UnitMarker);
    assert HeadUnique(IndexPrefixSU);
    ReplaceAllSplits([], IndexPrefixSU, d, "");
    assert [] + IndexPrefixSU + d == IndexPrefixSU + d;
    IdentifierOfUnitUri(prefix, d);
  }

  /** The dispatch of `render` (feature.py:499-515) with the gsmlb response
      and the su and loop3d graph builders as parameters: the base response
      when there is one, otherwise the gsmlb response, the su HTML page, the
      su or loop3d graph through `RenderRdf`, and nothing for any other
      profile. */
  function Dispatch(r: StratUnitRenderer, base: Option<Response>, rdfMediaTypes: set<string>,
                    gsmlb: Result<Response>, su: StratUnit -> Result<Built>,
                    loop3d: StratUnit -> Result<Built>): Result<Option<Response>>
  {
    if base.Some? then Ok(base)
    else if r.profile == "gsmlb" then
      var x :- gsmlb;
      Ok(Some(x))
    else if r.profile == "su" then
      var u :- Feature(r);
      if r.mediatype == "text/html" then Ok(Some(Response(200, "text/html", UnitPage(u, r.links))))
      else
        var g :- su(u);
        Ok(Some(RenderRdf(r.mediatype, rdfMediaTypes, g.graph)))
    else if r.profile == "loop3d" then
      var u :- Feature(r);
      var g :- loop3d(u);
      Ok(Some(RenderRdf(r.mediatype, rdfMediaTypes, g.graph)))
    else Ok(None)
  }

  /** `render` as written: the gsmlb branch raises, and the su and loop3d
      graphs are `to_su_graph` and `to_loop3d_graph` as written, numbering
      their blank nodes from 0. */
  function Render(r: StratUnitRenderer, base: Option<Response>, rdfMediaTypes: set<string>): (res: Result<Option<Response>>)
    ensures base.Some? ==> res == Ok(base)
    ensures base.None? && r.profile !in {"gsmlb", "su", "loop3d"} ==> res == Ok(None)
    ensures base.None? && r.profile == "gsmlb" ==> res.Err? && res.error.TypeError?
    ensures base.None? && r.profile in {"su", "loop3d"} && r.feature.None? ==> res == Err(MissingFeature)
    ensures base.None? && r.profile == "su" && r.mediatype == "text/html" && r.feature.Some? ==>
      res == Ok(Some(Response(200, "text/html", UnitPage(r.feature.value, r.links))))
    ensures base.None? && r.profile == "su" && r.mediatype != "text/html" && r.feature.Some? ==>
      var fs := r.feature.value.fields;
      && (res.Ok? <==> SuReadable(fs) && (HasEventData(fs) ==> OpensHistoryAsWritten(fs)))
      && (res.Ok? ==> res == Ok(Some(RenderRdf(r.mediatype, rdfMediaTypes, SuGraphAsWritten(r.feature.value, 0).value.graph))))
      && (SuReadable(fs) && !res.Ok? ==> res == Err(UnboundLocal("ge")))
    ensures base.None? && r.profile == "loop3d" && r.feature.Some? ==>
      && (res.Ok? <==> Loop3dGraphAsWritten(r.feature.value, 0).Ok?)
      && (res.Ok? ==> res == Ok(Some(RenderRdf(r.mediatype, rdfMediaTypes, Loop3dGraphAsWritten(r.feature.value, 0).value.graph))))
  {
    Dispatch(r, base, rdfMediaTypes, GsmlbResponseAsWritten(r.featureId),
             u => SuGraphAsWritten(u, 0), u => Loop3dGraphAsWritten(u, 0))
  }

  /** `render` as intended: the gsmlb branch returns the original XML, the
      su graph creates `ge` for every history field, and the loop3d range
      starts at the older bound. */
  function RenderCorrected(r: StratUnitRenderer, base: Option<Response>, rdfMediaTypes: set<string>): (res: Result<Option<Response>>)
    ensures base.Some? ==> res == Ok(base)
    ensures base.None? && r.profile !in {"gsmlb", "su", "loop3d"} ==> res == Ok(None)
    ensures base.None? && r.profile == "gsmlb" ==> res == Ok(Some(GsmlbResponse(r.featureId)))
    ensures base.None? && r.profile in {"su", "loop3d"} && r.feature.None? ==> res == Err(MissingFeature)
    ensures base.None? && r.profile == "su" && r.mediatype == "text/html" && r.feature.Some? ==>
      res == Ok(Some(Response(200, "text/html", UnitPage(r.feature.value, r.links))))
    ensures base.None? && r.profile == "su" && r.mediatype != "text/html" && r.feature.Some? ==>
      && (res.Ok? <==> SuReadable(r.feature.value.fields))
      && (res.Ok? ==> res == Ok(Some(RenderRdf(r.mediatype, rdfMediaTypes, SuGraph(r.feature.value, 0).value.graph))))
    ensures base.None? && r.profile == "loop3d" && r.feature.Some? ==>
      && (res.Ok? <==> Loop3dGraph(r.feature.value, 0).Ok?)
      && (res.Ok? ==> res == Ok(Some(RenderRdf(r.mediatype, rdfMediaTypes, Loop3dGraph(r.feature.value, 0).value.graph))))
  {
    Dispatch(r, base, rdfMediaTypes, Ok(GsmlbResponse(r.featureId)),
             u => SuGraph(u, 0), u => Loop3dGraph(u, 0))
  }

  /** Wherever `render` as written answers, the intended one gives the same
      answer, unless a loop3d unit has an older bound (whose start value the
      source reads from the younger bound). */
  lemma RenderAgrees(r: StratUnitRenderer, base: Option<Response>, rdfMediaTypes: set<string>)
    requires Render(r, base, rdfMediaTypes).Ok?
    requires r.profile == "loop3d" && r.feature.Some? ==> r.feature.value.fields.olderBound.None?
    ensures RenderCorrected(r, base, rdfMediaTypes) == Render(r, base, rdfMediaTypes)
  {
    if base.None? && r.feature.Some? {
      var u := r.feature.value;
      if r.profile == "su" && r.mediatype != "text/html" {
        SuAsWrittenAgrees(u, 0);
      } else if r.profile == "loop3d" {
        Loop3dAsWrittenAgrees(u, 0);
      }
    }
  }

  /** Of the profile table, only geosp has no branch in `render`: with no
      base response it renders nothing, and every other profile renders a
      response or fails. */
  lemma OnlyGeospRendersNothing(r: StratUnitRenderer, rdfMediaTypes: set<string>)
    requires r.profile in ProfileTokens
    ensures Render(r, None, rdfMediaTypes) == Ok(None) <==> r.profile == "geosp"
    ensures RenderCorrected(r, None, rdfMediaTypes) == Ok(None) <==> r.profile == "geosp"
  {
  }
}
