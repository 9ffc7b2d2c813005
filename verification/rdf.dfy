/** RDF graphs as sets of triples, the blank-node counter that stands for
    rdflib's `BNode()`, and the vocabulary the StratUnit mappings use. */
module Rdf {
  import opened Py

  /** The lexical form of a literal. `Scaled(text, factor)` is the number
      `float(text) * factor`, kept symbolic instead of computing a float. */
  datatype Lexical = Text(text: string) | Scaled(text: string, factor: nat)

  datatype Node =
    | IRI(iri: string)
    | Blank(id: nat)
    | Lit(lexical: Lexical, dtype: Option<string>)

  datatype Triple = Triple(s: Node, p: string, o: Node)

  type Graph = set<Triple>

  /** A graph under construction and the next unused blank-node number. */
  datatype Built = Built(graph: Graph, next: nat)

  /** Every object of the triples with subject `s` and predicate `p`. */
  function Objects(g: Graph, s: Node, p: string): set<Node> {
    set t | t in g && t.s == s && t.p == p :: t.o
  }

  predicate BlankIn(n: Node, lo: nat, hi: nat) {
    n.Blank? ==> lo <= n.id < hi
  }

  /** Every blank node of `g` was numbered in `[lo, hi)`. */
  predicate BlanksWithin(g: Graph, lo: nat, hi: nat) {
    forall t | t in g :: BlankIn(t.s, lo, hi) && BlankIn(t.o, lo, hi)
  }

  /** In `g`, `s` is the subject only of triples whose predicate is in `ps`. */
  predicate OnlyPredicates(g: Graph, s: Node, ps: set<string>) {
    forall t | t in g && t.s == s :: t.p in ps
  }

  lemma ObjectsUnion(a: Graph, b: Graph, s: Node, p: string)
    ensures Objects(a + b, s, p) == Objects(a, s, p) + Objects(b, s, p)
  {
  }

  /** A graph none of whose triples has subject `s` and predicate `p`. */
  lemma ObjectsNone(g: Graph, s: Node, p: string)
    requires forall t | t in g :: t.s != s || t.p != p
    ensures Objects(g, s, p) == {}
  {
  }

  /** Only `x` of `x + rest` has `p` triples from `s`. */
  lemma OnlyFrom(x: Graph, rest: Graph, s: Node, p: string)
    requires forall t | t in rest :: t.s != s || t.p != p
    ensures Objects(x + rest, s, p) == Objects(x, s, p)
  {
    ObjectsUnion(x, rest, s, p);
    ObjectsNone(rest, s, p);
  }

  // Namespaces and terms, spelled out in full.
  const RdfType := "http://www.w3.org/1999/02/22-rdf-syntax-ns#type"
  const XsdFloat := "http://www.w3.org/2001/XMLSchema#float"
  const DctIsPartOf := "http://purl.org/dc/terms/isPartOf"
  const DctIdentifier := "http://purl.org/dc/terms/identifier"
  const DctTitle := "http://purl.org/dc/terms/title"
  const GeoFeature := "http://www.opengis.net/ont/geosparql#Feature"

  const Su := "https://linked.data.gov.au/def/su/"
  const SuObservationMethod := "https://linked.data.gov.au/def/su/observationMethod"
  const SuGeologicUnitType := "https://linked.data.gov.au/def/su/geologicUnitType"
  const SuDescriptionPurpose := "https://linked.data.gov.au/def/su/descriptionPurpose"
  const SuStratigraphicRank := "https://linked.data.gov.au/def/su/stratigraphicRank"
  const SuGeologicHistory := "https://linked.data.gov.au/def/su/geologicHistory"
  const SuEventProcess := "https://linked.data.gov.au/def/su/eventProcess"
  const SuYoungerBound := "https://linked.data.gov.au/def/su/youngerBound"
  const SuOlderBound := "https://linked.data.gov.au/def/su/olderBound"
  const SuYoungerNamedAge := "https://linked.data.gov.au/def/su/youngerNamedAge"
  const SuOlderNamedAge := "https://linked.data.gov.au/def/su/olderNamedAge"

  const QudtQuantity := "http://qudt.org/schema/qudt/Quantity"
  const QudtValue := "http://qudt.org/schema/qudt/value"
  const QudtUnits := "http://qudt.org/schema/qudt/units"
  const UnitYear := "http://qudt.org/vocab/unit/YR"
  /** Geoscience Australia's unit "millions of years". */
  const UnitGaMa := "http://pid.geoscience.gov.au/def/voc/ga/uom/Ma"
  const YearsPerMa: nat := 1000000

  const GsocIsParticipantIn := "http://loop3d.org/GSO/ontology/2020/1/common/isParticipantIn"
  const GsocHasConstituent := "http://loop3d.org/GSO/ontology/2020/1/common/hasConstituent"
  const GsocDirectTemporalOccupies := "http://loop3d.org/GSO/ontology/2020/1/common/directTemporalOccupies"
  const GsocTimeFinishedBy := "http://loop3d.org/GSO/ontology/2020/1/common/timeFinishedBy"
  const GsocTimeStartedBy := "http://loop3d.org/GSO/ontology/2020/1/common/timeStartedBy"
  const GsocHasValue := "http://loop3d.org/GSO/ontology/2020/1/common/hasValue"
  const GsocHasEndValue := "http://loop3d.org/GSO/ontology/2020/1/common/hasEndValue"
  const GsocHasStartValue := "http://loop3d.org/GSO/ontology/2020/1/common/hasStartValue"
  const GsocTimeNumericValue := "http://loop3d.org/GSO/ontology/2020/1/common/Time_Numeric_Value"
  const GsocGeologicTimeDate := "http://loop3d.org/GSO/ontology/2020/1/common/Geologic_Time_Date"
  const GsocHasUom := "http://loop3d.org/GSO/ontology/2020/1/common/hasUOM"
  const GsogGroup := "http://loop3d.org/GSO/ontology/2020/1/geologicfeature/Group"
  const GsogGeologicEvent := "http://loop3d.org/GSO/ontology/2020/1/geologicfeature/Geologic_Event"
  const GsogGeologicProcess := "http://loop3d.org/GSO/ontology/2020/1/geologicfeature/Geologic_Process"
  const GsogHasDataValue := "http://loop3d.org/GSO/ontology/2020/1/geologicfeature/hasDataValue"
  const Gspr := "http://loop3d.org/GSO/ontology/2020/1/geologicprocess/"
  const LunitMa := "http://loop3d.org/GSO/ontology/2020/1/uom/ma"
  const Ep := "http://resource.geosciml.org/classifier/cgi/eventprocess/"

  const StratUnit := "http://pid.geoscience.gov.au/def/stratunits#Unit"
  /** The namespace of Geoscience Australia's geologic-feature identifiers,
      "http://pid.geoscience.gov.au/geologicFeature/au/", written in pieces
      so that proofs about its characters stay small. */
  const GaHost := "http://pid.geoscience.gov.au"
  const GfsPath := "/geologicFeature/au"
  const Gfs := GaHost + GfsPath + "/"
}
