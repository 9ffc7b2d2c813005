/** The `StratUnit` entity of api/model/feature.py: the record of fetched
    fields, the identifier cut from its URI, its links, and the geosp graph. */
module StratUnits {
  import opened Py
  import opened Rdf

  /** One entry of `hierarchyLinks`: a dict from "role" and "targetUnit" to lists of IRIs. */
  type HierarchyLink = map<string, seq<string>>

  /** Every attribute the graph builders read. A list-valued field is `None`
      when the unit lacks it; a bound is `[value, unit]`. */
  datatype Fields = Fields(
    title: string,
    observationMethod: Option<seq<string>>,
    geologicUnitType: Option<seq<string>>,
    descriptionPurpose: Option<seq<string>>,
    stratigraphicRank: Option<seq<string>>,
    eventProcess: Option<seq<string>>,
    youngerBound: Option<seq<string>>,
    olderBound: Option<seq<string>>,
    youngerNamedAge: Option<seq<string>>,
    olderNamedAge: Option<seq<string>>,
    hierarchyLinks: seq<HierarchyLink>)

  datatype Link = Link(href: string, rel: string, mediaType: string, title: string)

  datatype StratUnit = StratUnit(uri: string, identifier: string, fields: Fields, links: seq<Link>)

  /** The marker that precedes the stratigraphic-unit number in a unit URI. */
  const UnitMarker := "/SU"
  /** The prefix of the id under which the unit is requested from the WFS. */
  const ProvinceIdPrefix := "GA.GeologicProvince."
  /** The dataset every unit is part of (the constant `isPartOf` attribute). */
  const DatasetUri := "http://example.com/dataset/auststrat/sus"
  const ItemsRel := "items"
  const JsonMediaType := "application/json"

  /** `uri.split("/SU")[1]`: the text after the first "/SU" up to the next one. */
  function Identifier(uri: string): (r: Result<string>)
    ensures r.Err? <==> !Contains(uri, UnitMarker)
    ensures r.Err? ==> r.error == IndexError
    ensures r.Ok? ==> !Contains(r.value, UnitMarker)
    ensures r.Ok? ==> exists i | 0 <= i <= |uri| :: FirstAt(uri, UnitMarker, i) && Delimits(uri, UnitMarker, i + |UnitMarker|, r.value)
  {
    SplitSecond(uri, UnitMarker)
  }

  lemma MarkerHeadUnique()
    ensures HeadUnique(UnitMarker)
  {
  }

  /** The identifier of `prefix + "/SU" + id` is `id` when neither part holds "/SU". */
  lemma IdentifierOfUnitUri(prefix: string, id: string)
    requires !Contains(prefix, UnitMarker) && !Contains(id, UnitMarker)
    ensures Identifier(prefix + UnitMarker + id) == Ok(id)
  {
    MarkerHeadUnique();
    SplitSecondOf(prefix, UnitMarker, id, []);
    assert prefix + UnitMarker + id + [] == prefix + UnitMarker + id;
  }

  /** The unit record built by `StratUnit.__init__`, with the WFS fetch
      (`get_strat_unit`) passed in as `fetch`. */
  function NewStratUnit(uri: string, fetch: string -> Result<Fields>, landingPage: string,
                        otherLinks: Option<seq<Link>>): (r: Result<StratUnit>)
    ensures !Contains(uri, UnitMarker) ==> r == Err(IndexError)
    ensures r.Ok? ==> r.value.uri == uri && Identifier(uri) == Ok(r.value.identifier)
    ensures r.Ok? ==> fetch(ProvinceIdPrefix + r.value.identifier) == Ok(r.value.fields)
    ensures r.Ok? ==> (|r.value.links| >= 1
      && r.value.links[0] == Link(landingPage + "/collections/sus/items", ItemsRel, JsonMediaType, r.value.fields.title)
      && r.value.links[1..] == (if otherLinks.Some? then otherLinks.value else []))
    ensures r.Ok? <==> Contains(uri, UnitMarker) && fetch(ProvinceIdPrefix + Identifier(uri).value).Ok?
  {
    var identifier :- Identifier(uri);
    var fields :- fetch(ProvinceIdPrefix + identifier);
    var own := [Link(landingPage + "/collections/sus/items", ItemsRel, JsonMediaType, fields.title)];
    var links := if otherLinks.Some? then own + otherLinks.value else own;
    Ok(StratUnit(uri, identifier, fields, links))
  }

  /** `to_geosp_graph`: the unit is a GeoSPARQL feature that is part of the dataset. */
  function GeospGraph(u: StratUnit): (g: Graph)
    ensures |g| == 2
    ensures forall t | t in g :: t.s == IRI(u.uri) && t.o.IRI? && (t.p == RdfType || t.p == DctIsPartOf)
    ensures Objects(g, IRI(u.uri), RdfType) == {IRI(GeoFeature)}
    ensures Objects(g, IRI(u.uri), DctIsPartOf) == {IRI(DatasetUri)}
  {
    var f := IRI(u.uri);
    var g := {Triple(f, RdfType, IRI(GeoFeature)), Triple(f, DctIsPartOf, IRI(DatasetUri))};
    assert Objects(g, f, RdfType) == {IRI(GeoFeature)};
    assert Objects(g, f, DctIsPartOf) == {IRI(DatasetUri)};
    g
  }
}
