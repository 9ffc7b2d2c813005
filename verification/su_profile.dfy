/** `StratUnit.to_su_graph` (api/model/feature.py:62-205): the unit in the
    stratigraphic-unit ontology, on top of its geosp graph. */
module SuProfile {
  import opened Py
  import opened Rdf
  import opened StratUnits

  // ---------------------------------------------------------------------------
  // Conditions on the fetched fields

  /** A present list field has the element `[0]` that is read from it. */
  predicate HasFirst(x: Option<seq<string>>) {
    x.Some? ==> |x.value| >= 1
  }

  /** A present bound has the `[0]` value and `[1]` unit that are read from it. */
  predicate HasValueAndUnit(x: Option<seq<string>>) {
    x.Some? ==> |x.value| >= 2
  }

  /** A hierarchy link has a non-empty "role" and "targetUnit". */
  predicate LinkWellFormed(hl: HierarchyLink) {
    "role" in hl && |hl["role"]| >= 1 && "targetUnit" in hl && |hl["targetUnit"]| >= 1
  }

  /** Every field the su mapping reads can be read. */
  predicate SuReadable(fs: Fields) {
    && HasFirst(fs.observationMethod) && HasFirst(fs.geologicUnitType)
    && HasFirst(fs.descriptionPurpose) && HasFirst(fs.stratigraphicRank)
    && HasFirst(fs.eventProcess) && HasFirst(fs.youngerNamedAge) && HasFirst(fs.olderNamedAge)
    && HasValueAndUnit(fs.youngerBound) && HasValueAndUnit(fs.olderBound)
    && forall i | 0 <= i < |fs.hierarchyLinks| :: LinkWellFormed(fs.hierarchyLinks[i])
  }

  /** The guard of feature.py:105, under which the source creates `ge`. */
  predicate OpensHistoryAsWritten(fs: Fields) {
    fs.eventProcess.Some? || fs.youngerBound.Some? || fs.youngerNamedAge.Some?
  }

  /** Some field is present that the source attaches to `ge`. */
  predicate HasEventData(fs: Fields) {
    OpensHistoryAsWritten(fs) || fs.olderBound.Some? || fs.olderNamedAge.Some?
  }

  /** No hierarchy link uses `p` as its role, so every `p` triple of the unit
      comes from the field mapped to `p`. */
  predicate RoleFree(fs: Fields, p: string) {
    forall i | 0 <= i < |fs.hierarchyLinks| ::
      "role" in fs.hierarchyLinks[i] && |fs.hierarchyLinks[i]["role"]| >= 1 ==> fs.hierarchyLinks[i]["role"][0] != p
  }

  // ---------------------------------------------------------------------------
  // Pieces of the graph

  /** The IRI a present field contributes: its first element. */
  function FirstIRI(x: Option<seq<string>>): set<Node>
    requires HasFirst(x)
  {
    if x.Some? then {IRI(x.value[0])} else {}
  }

  /** `g` links `s` by `p` to the IRI of a present field, and says nothing else. */
  predicate LinkPiece(g: Graph, s: Node, p: string, field: Option<seq<string>>)
    requires HasFirst(field)
  {
    (forall t | t in g :: t.s == s && t.p == p && t.o.IRI?) && Objects(g, s, p) == FirstIRI(field)
  }

  /** `(s, p, URIRef(field[0]))` when the field is present. */
  function FieldLink(s: Node, p: string, field: Option<seq<string>>): (r: Result<Graph>)
    ensures r.Ok? <==> HasFirst(field)
    ensures r.Err? ==> r.error == IndexError
    ensures r.Ok? ==> LinkPiece(r.value, s, p, field)
  {
    match field
    case None => Ok({})
    case Some(v) =>
      var x :- Item(v, 0);
      var g := {Triple(s, p, IRI(x))};
      assert Objects(g, s, p) == {IRI(x)};
      Ok(g)
  }

  /** A link from `ge`, which is unbound (`None`) unless the history node was
      created; the tuple reads `ge` before the field. */
  function HistoryLink(ge: Option<Node>, p: string, field: Option<seq<string>>): (r: Result<Graph>)
    ensures field.None? ==> r == Ok({})
    ensures field.Some? && ge.None? ==> r == Err(UnboundLocal("ge"))
    ensures ge.Some? ==> r == FieldLink(ge.value, p, field)
  {
    if field.None? then Ok({})
    else if ge.None? then Err(UnboundLocal("ge"))
    else FieldLink(ge.value, p, field)
  }

  /** The su profile's value of a bound: a value in Ma becomes years. */
  function SuValue(b: seq<string>): Lexical
    requires |b| >= 2
  {
    if b[1] == UnitGaMa then Scaled(b[0], YearsPerMa) else Text(b[0])
  }

  /** The su profile's unit of a bound: Ma becomes QUDT's year. */
  function SuUnit(b: seq<string>): string
    requires |b| >= 2
  {
    if b[1] == UnitGaMa then UnitYear else b[1]
  }

  /** `q` is a `qudt:Quantity` for the bound `b`: a value in Ma is given in
      years, as the number times a million with QUDT's year as unit; any
      other value and unit are kept. `q` has no other triples. */
  predicate QuantityNode(g: Graph, q: Node, b: seq<string>)
    requires |b| >= 2
  {
    && OnlyPredicates(g, q, {RdfType, QudtValue, QudtUnits})
    && Objects(g, q, RdfType) == {IRI(QudtQuantity)}
    && if b[1] == UnitGaMa then
         Objects(g, q, QudtValue) == {Lit(Scaled(b[0], YearsPerMa), Some(XsdFloat))}
         && Objects(g, q, QudtUnits) == {IRI(UnitYear)}
       else
         Objects(g, q, QudtValue) == {Lit(Text(b[0]), Some(XsdFloat))}
         && Objects(g, q, QudtUnits) == {IRI(b[1])}
  }

  /** The `qudt:Quantity` node `q` of a bound (feature.py:121-145). */
  function Quantity(q: Node, b: seq<string>): (r: Result<Graph>)
    ensures r.Ok? <==> |b| >= 2
    ensures r.Err? ==> r.error == IndexError
    ensures r.Ok? ==> forall t | t in r.value :: t.s == q && !t.o.Blank?
    ensures r.Ok? ==> QuantityNode(r.value, q, b)
    ensures r.Ok? ==> |r.value| == 3
  {
    if |b| < 2 then Err(IndexError)
    else
      var g := {Triple(q, RdfType, IRI(QudtQuantity)),
                Triple(q, QudtValue, Lit(SuValue(b), Some(XsdFloat))),
                Triple(q, QudtUnits, IRI(SuUnit(b)))};
      assert Objects(g, q, RdfType) == {IRI(QudtQuantity)};
      assert Objects(g, q, QudtValue) == {Lit(SuValue(b), Some(XsdFloat))};
      assert Objects(g, q, QudtUnits) == {IRI(SuUnit(b))};
      Ok(g)
  }

  /** `b` holds the bound `field` as the quantity node `Blank(next)`, linked
      from `ge` by `p`, and nothing else; the counter moves past the node. */
  predicate BoundPiece(b: Built, ge: Node, p: string, field: Option<seq<string>>, next: nat)
    requires HasValueAndUnit(field)
  {
    && (forall t | t in b.graph :: (t.s == Blank(next) && !t.o.Blank?) || (t.s == ge && t.p == p && t.o == Blank(next)))
    && b.next == (if field.Some? then next + 1 else next)
    && if field.Some? then Objects(b.graph, ge, p) == {Blank(next)} && QuantityNode(b.graph, Blank(next), field.value)
       else b.graph == {}
  }

  /** A bound as a fresh quantity node `Blank(next)` linked from `ge` by `p`.
      The quantity is built before `ge` is read, so a short bound is an
      IndexError even when `ge` is unbound. */
  function Bound(ge: Option<Node>, p: string, field: Option<seq<string>>, next: nat): (r: Result<Built>)
    ensures r.Ok? <==> HasValueAndUnit(field) && (field.Some? ==> ge.Some?)
    ensures r.Err? && HasValueAndUnit(field) ==> r.error == UnboundLocal("ge")
    ensures !HasValueAndUnit(field) ==> r == Err(IndexError)
    ensures field.None? ==> r == Ok(Built({}, next))
    ensures r.Ok? && ge.Some? && ge.value != Blank(next) ==> BoundPiece(r.value, ge.value, p, field, next)
  {
    match field
    case None => Ok(Built({}, next))
    case Some(b) =>
      var q := Blank(next);
      var qg :- Quantity(q, b);
      if ge.None? then Err(UnboundLocal("ge"))
      else
        var g := qg + {Triple(ge.value, p, q)};
        assert ge.value != q ==> Objects(g, ge.value, p) == {q} && Objects(g, q, RdfType) == Objects(qg, q, RdfType)
          && Objects(g, q, QudtValue) == Objects(qg, q, QudtValue) && Objects(g, q, QudtUnits) == Objects(qg, q, QudtUnits);
        Ok(Built(g, next + 1))
  }

  /** One hierarchy triple, reading "role" then "targetUnit" (feature.py:198-203). */
  function HierarchyTriple(f: Node, hl: HierarchyLink): (r: Result<Triple>)
    ensures r.Ok? <==> LinkWellFormed(hl)
    ensures r.Ok? ==> r.value == Triple(f, hl["role"][0], IRI(hl["targetUnit"][0]))
  {
    var role :- Lookup(hl, "role");
    var p :- Item(role, 0);
    var target :- Lookup(hl, "targetUnit");
    var o :- Item(target, 0);
    Ok(Triple(f, p, IRI(o)))
  }

  /** The triple a well-formed hierarchy link contributes. */
  function LinkTriple(f: Node, hl: HierarchyLink): Triple
    requires LinkWellFormed(hl)
  {
    Triple(f, hl["role"][0], IRI(hl["targetUnit"][0]))
  }

  /** The triples of all hierarchy links, the first malformed one raising. */
  function HierarchyTriples(f: Node, links: seq<HierarchyLink>): (r: Result<Graph>)
    ensures r.Ok? <==> forall i | 0 <= i < |links| :: LinkWellFormed(links[i])
    ensures r.Ok? ==> r.value == set i | 0 <= i < |links| :: LinkTriple(f, links[i])
    ensures r.Ok? ==> forall t | t in r.value :: t.s == f && t.o.IRI?
  {
    if |links| == 0 then Ok({})
    else
      var t :- HierarchyTriple(f, links[0]);
      var rest :- HierarchyTriples(f, links[1..]);
      assert forall i | 1 <= i < |links| :: links[i] == links[1..][i - 1];
      assert {t} + rest == set i | 0 <= i < |links| :: LinkTriple(f, links[i]) by {
        forall x | x in {t} + rest
          ensures exists i | 0 <= i < |links| :: x == LinkTriple(f, links[i])
        {
          if x != t {
            var j :| 0 <= j < |links| - 1 && x == LinkTriple(f, links[1..][j]);
            assert x == LinkTriple(f, links[j + 1]);
          }
        }
      }
      Ok({t} + rest)
  }

  /** The four descriptive fields of feature.py:76-102 on top of the geosp graph. */
  function Description(u: StratUnit): (r: Result<Graph>)
    ensures r.Ok? <==> (HasFirst(u.fields.observationMethod) && HasFirst(u.fields.geologicUnitType)
      && HasFirst(u.fields.descriptionPurpose) && HasFirst(u.fields.stratigraphicRank))
    ensures r.Ok? ==> GeospGraph(u) <= r.value
    ensures r.Ok? ==> forall t | t in r.value :: t.s == IRI(u.uri) && t.o.IRI? && t.p != SuGeologicHistory
  {
    var f := IRI(u.uri);
    var fs := u.fields;
    var om :- FieldLink(f, SuObservationMethod, fs.observationMethod);
    var ut :- FieldLink(f, SuGeologicUnitType, fs.geologicUnitType);
    var dp :- FieldLink(f, SuDescriptionPurpose, fs.descriptionPurpose);
    var sr :- FieldLink(f, SuStratigraphicRank, fs.stratigraphicRank);
    var geo := GeospGraph(u);
    assert AboutFeature(geo + om + ut + dp + sr, f) by {
      assert AboutFeature(geo, f) && AboutFeature(om, f) && AboutFeature(ut, f);
      assert AboutFeature(dp, f) && AboutFeature(sr, f);
      AboutFeatureUnion(geo, om, f);
      AboutFeatureUnion(geo + om, ut, f);
      AboutFeatureUnion(geo + om + ut, dp, f);
      AboutFeatureUnion(geo + om + ut + dp, sr, f);
    }
    Ok(geo + om + ut + dp + sr)
  }

  /** Every triple of `g` is about `f`, links it to an IRI and is not a
      history link. */
  predicate AboutFeature(g: Graph, f: Node) {
    forall t | t in g :: t.s == f && t.o.IRI? && t.p != SuGeologicHistory
  }

  lemma AboutFeatureUnion(a: Graph, b: Graph, f: Node)
    requires AboutFeature(a, f) && AboutFeature(b, f)
    ensures AboutFeature(a + b, f)
  {
  }

  /** Whether the event fields can be read (feature.py:104-196). */
  predicate EventReadable(fs: Fields) {
    HasFirst(fs.eventProcess) && HasFirst(fs.youngerNamedAge) && HasFirst(fs.olderNamedAge)
    && HasValueAndUnit(fs.youngerBound) && HasValueAndUnit(fs.olderBound)
  }

  /** The blank node of the older bound's quantity: the younger bound's
      quantity, when there is one, takes the number after `ge`'s. */
  function OlderQuantity(fs: Fields, first: nat): Node {
    Blank(if fs.youngerBound.Some? then first + 2 else first + 1)
  }

  /** The blank nodes the history part takes: `ge` when it is created, and
      a quantity node per bound. */
  function HistoryNodes(fs: Fields, opens: bool): nat {
    if !opens then 0
    else 1 + (if fs.youngerBound.Some? then 1 else 0) + (if fs.olderBound.Some? then 1 else 0)
  }

  /** What the history node `ge` says in `g`: its event process and named
      ages, and a quantity for each bound that is present, and nothing else. */
  predicate HistoryLinked(g: Graph, fs: Fields, first: nat)
    requires EventReadable(fs)
  {
    var ge := Blank(first);
    && OnlyPredicates(g, ge, {SuEventProcess, SuYoungerNamedAge, SuOlderNamedAge, SuYoungerBound, SuOlderBound})
    && Objects(g, ge, SuEventProcess) == FirstIRI(fs.eventProcess)
    && Objects(g, ge, SuYoungerNamedAge) == FirstIRI(fs.youngerNamedAge)
    && Objects(g, ge, SuOlderNamedAge) == FirstIRI(fs.olderNamedAge)
    && (if fs.youngerBound.Some?
        then Objects(g, ge, SuYoungerBound) == {Blank(first + 1)} && QuantityNode(g, Blank(first + 1), fs.youngerBound.value)
        else Objects(g, ge, SuYoungerBound) == {})
    && (if fs.olderBound.Some?
        then Objects(g, ge, SuOlderBound) == {OlderQuantity(fs, first)} && QuantityNode(g, OlderQuantity(fs, first), fs.olderBound.value)
        else Objects(g, ge, SuOlderBound) == {})
  }

  /** A quantity node keeps its description when triples about other subjects are added. */
  lemma QuantityNodeUnion(x: Graph, rest: Graph, q: Node, b: seq<string>)
    requires |b| >= 2 && QuantityNode(x, q, b)
    requires forall t | t in rest :: t.s != q
    ensures QuantityNode(x + rest, q, b)
  {
    OnlyFrom(x, rest, q, RdfType);
    OnlyFrom(x, rest, q, QudtValue);
    OnlyFrom(x, rest, q, QudtUnits);
  }

  /** What six graphs together link `s` by `p` is what each of them does. */
  lemma ObjectsOfSix(a: Graph, b: Graph, c: Graph, d: Graph, e: Graph, g: Graph, s: Node, p: string)
    ensures Objects(a + b + c + d + e + g, s, p)
      == Objects(a, s, p) + Objects(b, s, p) + Objects(c, s, p) + Objects(d, s, p) + Objects(e, s, p) + Objects(g, s, p)
  {
    ObjectsUnion(a, b, s, p);
    ObjectsUnion(a + b, c, s, p);
    ObjectsUnion(a + b + c, d, s, p);
    ObjectsUnion(a + b + c + d, e, s, p);
    ObjectsUnion(a + b + c + d + e, g, s, p);
  }

  /** Who the triples of each piece of an opened history node `Blank(first)`
      are about: the unit's link to it, its own IRI-valued links, and the
      younger and older quantity nodes `Blank(yq)` and `Blank(oq)`. */
  predicate PiecesShaped(f: Node, first: nat, history: Graph, ep: Graph, yb: Graph, yq: nat, ob: Graph, oq: nat, yna: Graph, ona: Graph) {
    var ge := Blank(first);
    && !f.Blank? && first < yq && first < oq
    && history == {Triple(f, SuGeologicHistory, ge)}
    && (forall t | t in ep :: t.s == ge && t.p == SuEventProcess && t.o.IRI?)
    && (forall t | t in yb :: (t.s == Blank(yq) && !t.o.Blank?) || (t.s == ge && t.p == SuYoungerBound && t.o == Blank(yq)))
    && (forall t | t in ob :: (t.s == Blank(oq) && !t.o.Blank?) || (t.s == ge && t.p == SuOlderBound && t.o == Blank(oq)))
    && (forall t | t in yna :: t.s == ge && t.p == SuYoungerNamedAge && t.o.IRI?)
    && (forall t | t in ona :: t.s == ge && t.p == SuOlderNamedAge && t.o.IRI?)
  }

  lemma HistoryShaped(fs: Fields, first: nat, f: Node, history: Graph, ep: Graph, yb: Built, ob: Built, yna: Graph, ona: Graph)
    requires EventReadable(fs) && !f.Blank?
    requires history == {Triple(f, SuGeologicHistory, Blank(first))}
    requires LinkPiece(ep, Blank(first), SuEventProcess, fs.eventProcess)
    requires BoundPiece(yb, Blank(first), SuYoungerBound, fs.youngerBound, first + 1)
    requires BoundPiece(ob, Blank(first), SuOlderBound, fs.olderBound, yb.next)
    requires LinkPiece(yna, Blank(first), SuYoungerNamedAge, fs.youngerNamedAge)
    requires LinkPiece(ona, Blank(first), SuOlderNamedAge, fs.olderNamedAge)
    ensures PiecesShaped(f, first, history, ep, yb.graph, first + 1, ob.graph, yb.next, yna, ona)
    ensures first < yb.next <= ob.next
    ensures yb.graph == {} || yb.next == first + 2
    ensures ob.graph == {} || ob.next == yb.next + 1
  {
  }

  /** The pieces of an opened history node say what `HistoryLinked` asks. */
  lemma HistoryLinks(fs: Fields, first: nat, f: Node, history: Graph, ep: Graph, yb: Built, ob: Built, yna: Graph, ona: Graph)
    requires EventReadable(fs) && !f.Blank?
    requires history == {Triple(f, SuGeologicHistory, Blank(first))}
    requires LinkPiece(ep, Blank(first), SuEventProcess, fs.eventProcess)
    requires BoundPiece(yb, Blank(first), SuYoungerBound, fs.youngerBound, first + 1)
    requires BoundPiece(ob, Blank(first), SuOlderBound, fs.olderBound, yb.next)
    requires LinkPiece(yna, Blank(first), SuYoungerNamedAge, fs.youngerNamedAge)
    requires LinkPiece(ona, Blank(first), SuOlderNamedAge, fs.olderNamedAge)
    ensures HistoryLinked(history + ep + yb.graph + ob.graph + yna + ona, fs, first)
  {
    HistoryShaped(fs, first, f, history, ep, yb, ob, yna, ona);
    HistoryPredicates(fs, first, f, history, ep, yb, ob, yna, ona);
    HistoryNamedLinks(fs, first, f, history, ep, yb, ob, yna, ona);
    HistoryYoungerBound(fs, first, f, history, ep, yb, ob, yna, ona);
    HistoryOlderBound(fs, first, f, history, ep, yb, ob, yna, ona);
  }

  lemma HistoryPredicates(fs: Fields, first: nat, f: Node, history: Graph, ep: Graph, yb: Built, ob: Built, yna: Graph, ona: Graph)
    requires PiecesShaped(f, first, history, ep, yb.graph, first + 1, ob.graph, yb.next, yna, ona)
    ensures OnlyPredicates(history + ep + yb.graph + ob.graph + yna + ona, Blank(first),
      {SuEventProcess, SuYoungerNamedAge, SuOlderNamedAge, SuYoungerBound, SuOlderBound})
  {
  }

  lemma HistoryNamedLinks(fs: Fields, first: nat, f: Node, history: Graph, ep: Graph, yb: Built, ob: Built, yna: Graph, ona: Graph)
    requires EventReadable(fs)
    requires PiecesShaped(f, first, history, ep, yb.graph, first + 1, ob.graph, yb.next, yna, ona)
    requires Objects(ep, Blank(first), SuEventProcess) == FirstIRI(fs.eventProcess)
    requires Objects(yna, Blank(first), SuYoungerNamedAge) == FirstIRI(fs.youngerNamedAge)
    requires Objects(ona, Blank(first), SuOlderNamedAge) == FirstIRI(fs.olderNamedAge)
    ensures var g, ge := history + ep + yb.graph + ob.graph + yna + ona, Blank(first);
      && Objects(g, ge, SuEventProcess) == FirstIRI(fs.eventProcess)
      && Objects(g, ge, SuYoungerNamedAge) == FirstIRI(fs.youngerNamedAge)
      && Objects(g, ge, SuOlderNamedAge) == FirstIRI(fs.olderNamedAge)
  {
    HistoryEventProcess(fs, first, f, history, ep, yb, ob, yna, ona);
    HistoryYoungerNamedAge(fs, first, f, history, ep, yb, ob, yna, ona);
    HistoryOlderNamedAge(fs, first, f, history, ep, yb, ob, yna, ona);
  }

  lemma HistoryEventProcess(fs: Fields, first: nat, f: Node, history: Graph, ep: Graph, yb: Built, ob: Built, yna: Graph, ona: Graph)
    requires HasFirst(fs.eventProcess)
    requires PiecesShaped(f, first, history, ep, yb.graph, first + 1, ob.graph, yb.next, yna, ona)
    requires Objects(ep, Blank(first), SuEventProcess) == FirstIRI(fs.eventProcess)
    ensures Objects(history + ep + yb.graph + ob.graph + yna + ona, Blank(first), SuEventProcess) == FirstIRI(fs.eventProcess)
  {
    var ge := Blank(first);
    ObjectsOfSix(history, ep, yb.graph, ob.graph, yna, ona, ge, SuEventProcess);
    ObjectsNone(history, ge, SuEventProcess);
    ObjectsNone(yb.graph, ge, SuEventProcess);
    ObjectsNone(ob.graph, ge, SuEventProcess);
    ObjectsNone(yna, ge, SuEventProcess);
    ObjectsNone(ona, ge, SuEventProcess);
  }

  lemma HistoryYoungerNamedAge(fs: Fields, first: nat, f: Node, history: Graph, ep: Graph, yb: Built, ob: Built, yna: Graph, ona: Graph)
    requires HasFirst(fs.youngerNamedAge)
    requires PiecesShaped(f, first, history, ep, yb.graph, first + 1, ob.graph, yb.next, yna, ona)
    requires Objects(yna, Blank(first), SuYoungerNamedAge) == FirstIRI(fs.youngerNamedAge)
    ensures Objects(history + ep + yb.graph + ob.graph + yna + ona, Blank(first), SuYoungerNamedAge) == FirstIRI(fs.youngerNamedAge)
  {
    var ge := Blank(first);
    ObjectsOfSix(history, ep, yb.graph, ob.graph, yna, ona, ge, SuYoungerNamedAge);
    ObjectsNone(history, ge, SuYoungerNamedAge);
    ObjectsNone(ep, ge, SuYoungerNamedAge);
    ObjectsNone(yb.graph, ge, SuYoungerNamedAge);
    ObjectsNone(ob.graph, ge, SuYoungerNamedAge);
    ObjectsNone(ona, ge, SuYoungerNamedAge);
  }

  lemma HistoryOlderNamedAge(fs: Fields, first: nat, f: Node, history: Graph, ep: Graph, yb: Built, ob: Built, yna: Graph, ona: Graph)
    requires HasFirst(fs.olderNamedAge)
    requires PiecesShaped(f, first, history, ep, yb.graph, first + 1, ob.graph, yb.next, yna, ona)
    requires Objects(ona, Blank(first), SuOlderNamedAge) == FirstIRI(fs.olderNamedAge)
    ensures Objects(history + ep + yb.graph + ob.graph + yna + ona, Blank(first), SuOlderNamedAge) == FirstIRI(fs.olderNamedAge)
  {
    var ge := Blank(first);
    ObjectsOfSix(history, ep, yb.graph, ob.graph, yna, ona, ge, SuOlderNamedAge);
    ObjectsNone(history, ge, SuOlderNamedAge);
    ObjectsNone(ep, ge, SuOlderNamedAge);
    ObjectsNone(yb.graph, ge, SuOlderNamedAge);
    ObjectsNone(ob.graph, ge, SuOlderNamedAge);
    ObjectsNone(yna, ge, SuOlderNamedAge);
  }

  lemma HistoryYoungerBound(fs: Fields, first: nat, f: Node, history: Graph, ep: Graph, yb: Built, ob: Built, yna: Graph, ona: Graph)
    requires EventReadable(fs)
    requires PiecesShaped(f, first, history, ep, yb.graph, first + 1, ob.graph, yb.next, yna, ona)
    requires BoundPiece(yb, Blank(first), SuYoungerBound, fs.youngerBound, first + 1)
    ensures var g, ge := history + ep + yb.graph + ob.graph + yna + ona, Blank(first);
      if fs.youngerBound.Some?
      then Objects(g, ge, SuYoungerBound) == {Blank(first + 1)} && QuantityNode(g, Blank(first + 1), fs.youngerBound.value)
      else Objects(g, ge, SuYoungerBound) == {}
  {
    var ge := Blank(first);
    var rest := history + ep + ob.graph + yna + ona;
    assert history + ep + yb.graph + ob.graph + yna + ona == yb.graph + rest;
    assert forall t | t in rest :: t.s != ge || t.p != SuYoungerBound;
    OnlyFrom(yb.graph, rest, ge, SuYoungerBound);
    if fs.youngerBound.Some? {
      assert forall t | t in rest :: t.s != Blank(first + 1);
      QuantityNodeUnion(yb.graph, rest, Blank(first + 1), fs.youngerBound.value);
    }
  }

  lemma HistoryOlderBound(fs: Fields, first: nat, f: Node, history: Graph, ep: Graph, yb: Built, ob: Built, yna: Graph, ona: Graph)
    requires EventReadable(fs)
    requires PiecesShaped(f, first, history, ep, yb.graph, first + 1, ob.graph, yb.next, yna, ona)
    requires yb.next == (if fs.youngerBound.Some? then first + 2 else first + 1)
    requires yb.graph == {} || yb.next == first + 2
    requires BoundPiece(ob, Blank(first), SuOlderBound, fs.olderBound, yb.next)
    ensures var g, ge := history + ep + yb.graph + ob.graph + yna + ona, Blank(first);
      if fs.olderBound.Some?
      then Objects(g, ge, SuOlderBound) == {OlderQuantity(fs, first)} && QuantityNode(g, OlderQuantity(fs, first), fs.olderBound.value)
      else Objects(g, ge, SuOlderBound) == {}
  {
    var ge := Blank(first);
    var rest := history + ep + yb.graph + yna + ona;
    assert history + ep + yb.graph + ob.graph + yna + ona == ob.graph + rest;
    assert forall t | t in rest :: t.s != ge || t.p != SuOlderBound;
    OnlyFrom(ob.graph, rest, ge, SuOlderBound);
    if fs.olderBound.Some? {
      assert OlderQuantity(fs, first) == Blank(yb.next);
      assert forall t | t in rest :: t.s != Blank(yb.next);
      QuantityNodeUnion(ob.graph, rest, OlderQuantity(fs, first), fs.olderBound.value);
    }
  }

  /** What the history part `g` of the su graph of `u` holds: blank nodes
      numbered from `first` on, the history node `Blank(first)` as the unit's
      only link into it, present exactly when `opens`, with what it says. */
  predicate HistoryBuilt(f: Node, fs: Fields, first: nat, opens: bool, g: Graph, next: nat) {
    && first <= next && BlanksWithin(g, first, next)
    && (forall t | t in g :: t.s.Blank? || t == Triple(f, SuGeologicHistory, Blank(first)))
    && Objects(g, f, SuGeologicHistory) == (if opens then {Blank(first)} else {})
    && (opens && EventReadable(fs) ==> HistoryLinked(g, fs, first))
  }

  lemma HistoryOpened(fs: Fields, first: nat, f: Node, history: Graph, ep: Graph, yb: Built, ob: Built, yna: Graph, ona: Graph)
    requires EventReadable(fs) && !f.Blank?
    requires history == {Triple(f, SuGeologicHistory, Blank(first))}
    requires LinkPiece(ep, Blank(first), SuEventProcess, fs.eventProcess)
    requires BoundPiece(yb, Blank(first), SuYoungerBound, fs.youngerBound, first + 1)
    requires BoundPiece(ob, Blank(first), SuOlderBound, fs.olderBound, yb.next)
    requires LinkPiece(yna, Blank(first), SuYoungerNamedAge, fs.youngerNamedAge)
    requires LinkPiece(ona, Blank(first), SuOlderNamedAge, fs.olderNamedAge)
    ensures HistoryBuilt(f, fs, first, true, history + ep + yb.graph + ob.graph + yna + ona, ob.next)
  {
    HistoryShaped(fs, first, f, history, ep, yb, ob, yna, ona);
    HistoryLinks(fs, first, f, history, ep, yb, ob, yna, ona);
    HistoryOpenedBlanks(first, f, history, ep, yb, ob, yna, ona);
    HistoryOpenedLink(first, f, history, ep, yb, ob, yna, ona);
  }

  lemma HistoryOpenedBlanks(first: nat, f: Node, history: Graph, ep: Graph, yb: Built, ob: Built, yna: Graph, ona: Graph)
    requires PiecesShaped(f, first, history, ep, yb.graph, first + 1, ob.graph, yb.next, yna, ona)
    requires first < yb.next <= ob.next
    requires yb.graph == {} || yb.next == first + 2
    requires ob.graph == {} || ob.next == yb.next + 1
    ensures first <= ob.next && BlanksWithin(history + ep + yb.graph + ob.graph + yna + ona, first, ob.next)
    ensures forall t | t in history + ep + yb.graph + ob.graph + yna + ona :: t.s.Blank? || t == Triple(f, SuGeologicHistory, Blank(first))
  {
    assert BlanksWithin(history + ep + yna + ona, first, ob.next);
    assert BlanksWithin(yb.graph, first, ob.next);
    assert BlanksWithin(ob.graph, first, ob.next);
  }

  lemma HistoryOpenedLink(first: nat, f: Node, history: Graph, ep: Graph, yb: Built, ob: Built, yna: Graph, ona: Graph)
    requires PiecesShaped(f, first, history, ep, yb.graph, first + 1, ob.graph, yb.next, yna, ona)
    ensures Objects(history + ep + yb.graph + ob.graph + yna + ona, f, SuGeologicHistory) == {Blank(first)}
  {
    ObjectsOfSix(history, ep, yb.graph, ob.graph, yna, ona, f, SuGeologicHistory);
    ObjectsNone(ep, f, SuGeologicHistory);
    ObjectsNone(yb.graph, f, SuGeologicHistory);
    ObjectsNone(ob.graph, f, SuGeologicHistory);
    ObjectsNone(yna, f, SuGeologicHistory);
    ObjectsNone(ona, f, SuGeologicHistory);
    assert Objects(history, f, SuGeologicHistory) == {Blank(first)};
  }

  /** The geologic-history node `Blank(first)` and what hangs off it
      (feature.py:104-196), created only when `opens` holds. */
  function History(u: StratUnit, first: nat, opens: bool): (r: Result<Built>)
    ensures r.Ok? <==> EventReadable(u.fields) && (HasEventData(u.fields) ==> opens)
    ensures r.Err? && EventReadable(u.fields) ==> r.error == UnboundLocal("ge")
    ensures r.Ok? ==> r.value.next == first + HistoryNodes(u.fields, opens)
    ensures r.Ok? ==> HistoryBuilt(IRI(u.uri), u.fields, first, opens, r.value.graph, r.value.next)
  {
    var f := IRI(u.uri);
    var fs := u.fields;
    var ge := if opens then Some(Blank(first)) else None;
    var history: Graph := if opens then {Triple(f, SuGeologicHistory, Blank(first))} else {};
    var ep :- HistoryLink(ge, SuEventProcess, fs.eventProcess);
    var yb :- Bound(ge, SuYoungerBound, fs.youngerBound, if opens then first + 1 else first);
    var ob :- Bound(ge, SuOlderBound, fs.olderBound, yb.next);
    var yna :- HistoryLink(ge, SuYoungerNamedAge, fs.youngerNamedAge);
    var ona :- HistoryLink(ge, SuOlderNamedAge, fs.olderNamedAge);
    var g := history + ep + yb.graph + ob.graph + yna + ona;
    assert HistoryBuilt(f, fs, first, opens, g, ob.next) by {
      if opens {
        assert LinkPiece(ep, Blank(first), SuEventProcess, fs.eventProcess);
        assert BoundPiece(yb, Blank(first), SuYoungerBound, fs.youngerBound, first + 1);
        assert BoundPiece(ob, Blank(first), SuOlderBound, fs.olderBound, yb.next);
        assert LinkPiece(yna, Blank(first), SuYoungerNamedAge, fs.youngerNamedAge);
        assert LinkPiece(ona, Blank(first), SuOlderNamedAge, fs.olderNamedAge);
        HistoryOpened(fs, first, f, history, ep, yb, ob, yna, ona);
      } else {
        assert g == {} && ob.next == first;
      }
    }
    Ok(Built(g, ob.next))
  }

  // ---------------------------------------------------------------------------
  // The mapping

  /** The su mapping with the condition under which `ge` is created as a
      parameter: the source uses `OpensHistoryAsWritten`, and any field
      attached to `ge` outside that condition meets an unbound `ge`. Blank
      nodes are numbered from `first`. */
  function SuGraphWith(u: StratUnit, first: nat, opens: bool): (r: Result<Built>)
    ensures r.Ok? <==> SuReadable(u.fields) && (HasEventData(u.fields) ==> opens)
    ensures r.Err? && SuReadable(u.fields) ==> r.error == UnboundLocal("ge")
    ensures r.Ok? ==> GeospGraph(u) <= r.value.graph
    ensures r.Ok? ==> first <= r.value.next && BlanksWithin(r.value.graph, first, r.value.next)
    ensures r.Ok? ==> r.value.next == first + HistoryNodes(u.fields, opens)
  {
    var d :- Description(u);
    var h :- History(u, first, opens);
    var hl :- HierarchyTriples(IRI(u.uri), u.fields.hierarchyLinks);
    assert BlanksWithin(d, first, h.next);
    assert BlanksWithin(hl, first, h.next);
    Ok(Built(d + h.graph + hl, h.next))
  }

  /** `to_su_graph` as written. */
  function SuGraphAsWritten(u: StratUnit, first: nat): (r: Result<Built>)
    ensures r.Ok? <==> SuReadable(u.fields) && (HasEventData(u.fields) ==> OpensHistoryAsWritten(u.fields))
  {
    SuGraphWith(u, first, OpensHistoryAsWritten(u.fields))
  }

  /** `to_su_graph` with `ge` created whenever some field is attached to it. */
  function SuGraph(u: StratUnit, first: nat): (r: Result<Built>)
    ensures r.Ok? <==> SuReadable(u.fields)
  {
    SuGraphWith(u, first, HasEventData(u.fields))
  }

  // ---------------------------------------------------------------------------
  // What the graph says

  lemma ObjectsUnion5(a: Graph, b: Graph, c: Graph, d: Graph, e: Graph, s: Node, p: string)
    ensures Objects(a + b + c + d + e, s, p)
      == Objects(a, s, p) + Objects(b, s, p) + Objects(c, s, p) + Objects(d, s, p) + Objects(e, s, p)
  {
    ObjectsUnion(a, b, s, p);
    ObjectsUnion(a + b, c, s, p);
    ObjectsUnion(a + b + c, d, s, p);
    ObjectsUnion(a + b + c + d, e, s, p);
  }

  /** Every triple of `g` has predicate `q`, so none has predicate `p != q`. */
  lemma OnlyPredicate(g: Graph, q: string, s: Node, p: string)
    requires forall t | t in g :: t.p == q
    requires p != q
    ensures Objects(g, s, p) == {}
  {
  }

  /** The four field links Description is made of. */
  lemma DescriptionParts(u: StratUnit)
    requires Description(u).Ok?
    ensures var f, fs := IRI(u.uri), u.fields;
      && FieldLink(f, SuObservationMethod, fs.observationMethod).Ok?
      && FieldLink(f, SuGeologicUnitType, fs.geologicUnitType).Ok?
      && FieldLink(f, SuDescriptionPurpose, fs.descriptionPurpose).Ok?
      && FieldLink(f, SuStratigraphicRank, fs.stratigraphicRank).Ok?
      && Description(u).value == GeospGraph(u) + FieldLink(f, SuObservationMethod, fs.observationMethod).value
        + FieldLink(f, SuGeologicUnitType, fs.geologicUnitType).value
        + FieldLink(f, SuDescriptionPurpose, fs.descriptionPurpose).value
        + FieldLink(f, SuStratigraphicRank, fs.stratigraphicRank).value
  {
  }

  /** Only the piece `x` of a union has `p` triples. */
  lemma PieceObjects(x: Graph, y1: Graph, q1: string, y2: Graph, q2: string, y3: Graph, q3: string,
                     z: Graph, s: Node, p: string)
    requires (forall t | t in y1 :: t.p == q1) && p != q1
    requires (forall t | t in y2 :: t.p == q2) && p != q2
    requires (forall t | t in y3 :: t.p == q3) && p != q3
    requires Objects(z, s, p) == {}
    ensures Objects(x + y1 + y2 + y3 + z, s, p) == Objects(x, s, p)
  {
    OnlyPredicate(y1, q1, s, p);
    OnlyPredicate(y2, q2, s, p);
    OnlyPredicate(y3, q3, s, p);
    ObjectsUnion5(x, y1, y2, y3, z, s, p);
  }

  lemma GeospOtherPredicates(u: StratUnit)
    ensures var g, f := GeospGraph(u), IRI(u.uri);
      && Objects(g, f, SuObservationMethod) == {} && Objects(g, f, SuGeologicUnitType) == {}
      && Objects(g, f, SuDescriptionPurpose) == {} && Objects(g, f, SuStratigraphicRank) == {}
  {
    var g, f := GeospGraph(u), IRI(u.uri);
    ObjectsNone(g, f, SuObservationMethod);
    ObjectsNone(g, f, SuGeologicUnitType);
    ObjectsNone(g, f, SuDescriptionPurpose);
    ObjectsNone(g, f, SuStratigraphicRank);
  }

  lemma DescriptionObjects(u: StratUnit)
    requires Description(u).Ok?
    ensures var d, f, fs := Description(u).value, IRI(u.uri), u.fields;
      && Objects(d, f, RdfType) == {IRI(GeoFeature)}
      && Objects(d, f, DctIsPartOf) == {IRI(DatasetUri)}
      && Objects(d, f, SuObservationMethod) == FirstIRI(fs.observationMethod)
      && Objects(d, f, SuGeologicUnitType) == FirstIRI(fs.geologicUnitType)
      && Objects(d, f, SuDescriptionPurpose) == FirstIRI(fs.descriptionPurpose)
      && Objects(d, f, SuStratigraphicRank) == FirstIRI(fs.stratigraphicRank)
  {
    var f, fs := IRI(u.uri), u.fields;
    DescriptionParts(u);
    var geo := GeospGraph(u);
    var om := FieldLink(f, SuObservationMethod, fs.observationMethod).value;
    var ut := FieldLink(f, SuGeologicUnitType, fs.geologicUnitType).value;
    var dp := FieldLink(f, SuDescriptionPurpose, fs.descriptionPurpose).value;
    var sr := FieldLink(f, SuStratigraphicRank, fs.stratigraphicRank).value;
    FiveFieldObjects(u, geo, om, ut, dp, sr);
  }

  lemma FiveFieldObjects(u: StratUnit, geo: Graph, om: Graph, ut: Graph, dp: Graph, sr: Graph)
    requires geo == GeospGraph(u)
    requires var fs := u.fields;
      && HasFirst(fs.observationMethod) && HasFirst(fs.geologicUnitType)
      && HasFirst(fs.descriptionPurpose) && HasFirst(fs.stratigraphicRank)
    requires var f, fs := IRI(u.uri), u.fields;
      && (forall t | t in om :: t.p == SuObservationMethod) && Objects(om, f, SuObservationMethod) == FirstIRI(fs.observationMethod)
      && (forall t | t in ut :: t.p == SuGeologicUnitType) && Objects(ut, f, SuGeologicUnitType) == FirstIRI(fs.geologicUnitType)
      && (forall t | t in dp :: t.p == SuDescriptionPurpose) && Objects(dp, f, SuDescriptionPurpose) == FirstIRI(fs.descriptionPurpose)
      && (forall t | t in sr :: t.p == SuStratigraphicRank) && Objects(sr, f, SuStratigraphicRank) == FirstIRI(fs.stratigraphicRank)
    ensures var d, f, fs := geo + om + ut + dp + sr, IRI(u.uri), u.fields;
      && Objects(d, f, RdfType) == {IRI(GeoFeature)}
      && Objects(d, f, DctIsPartOf) == {IRI(DatasetUri)}
      && Objects(d, f, SuObservationMethod) == FirstIRI(fs.observationMethod)
      && Objects(d, f, SuGeologicUnitType) == FirstIRI(fs.geologicUnitType)
      && Objects(d, f, SuDescriptionPurpose) == FirstIRI(fs.descriptionPurpose)
      && Objects(d, f, SuStratigraphicRank) == FirstIRI(fs.stratigraphicRank)
  {
    var f, d := IRI(u.uri), geo + om + ut + dp + sr;
    GeospOtherPredicates(u);
    OnlyPredicate(sr, SuStratigraphicRank, f, RdfType);
    PieceObjects(geo, om, SuObservationMethod, ut, SuGeologicUnitType, dp, SuDescriptionPurpose, sr, f, RdfType);
    OnlyPredicate(sr, SuStratigraphicRank, f, DctIsPartOf);
    PieceObjects(geo, om, SuObservationMethod, ut, SuGeologicUnitType, dp, SuDescriptionPurpose, sr, f, DctIsPartOf);
    assert d == om + ut + dp + sr + geo;
    PieceObjects(om, ut, SuGeologicUnitType, dp, SuDescriptionPurpose, sr, SuStratigraphicRank, geo, f, SuObservationMethod);
    assert d == ut + om + dp + sr + geo;
    PieceObjects(ut, om, SuObservationMethod, dp, SuDescriptionPurpose, sr, SuStratigraphicRank, geo, f, SuGeologicUnitType);
    assert d == dp + om + ut + sr + geo;
    PieceObjects(dp, om, SuObservationMethod, ut, SuGeologicUnitType, sr, SuStratigraphicRank, geo, f, SuDescriptionPurpose);
    assert d == sr + om + ut + dp + geo;
    PieceObjects(sr, om, SuObservationMethod, ut, SuGeologicUnitType, dp, SuDescriptionPurpose, geo, f, SuStratigraphicRank);
  }

  /** The three parts the su graph is the union of. */
  lemma SuGraphParts(u: StratUnit, first: nat, opens: bool)
    requires SuGraphWith(u, first, opens).Ok?
    ensures Description(u).Ok? && History(u, first, opens).Ok?
    ensures HierarchyTriples(IRI(u.uri), u.fields.hierarchyLinks).Ok?
    ensures SuGraphWith(u, first, opens).value == Built(
      Description(u).value + History(u, first, opens).value.graph + HierarchyTriples(IRI(u.uri), u.fields.hierarchyLinks).value,
      History(u, first, opens).value.next)
  {
  }

  /** A hierarchy link whose role is not `p` adds no `p` triple. */
  lemma HierarchyAvoids(u: StratUnit, p: string)
    requires HierarchyTriples(IRI(u.uri), u.fields.hierarchyLinks).Ok? && RoleFree(u.fields, p)
    ensures Objects(HierarchyTriples(IRI(u.uri), u.fields.hierarchyLinks).value, IRI(u.uri), p) == {}
  {
    var links := u.fields.hierarchyLinks;
    var hl := HierarchyTriples(IRI(u.uri), links).value;
    forall t | t in hl
      ensures t.p != p
    {
      var i :| 0 <= i < |links| && t == LinkTriple(IRI(u.uri), links[i]);
    }
    ObjectsNone(hl, IRI(u.uri), p);
  }

  /** Triples about the unit come from its description or its hierarchy
      links, apart from the one link to the history node. */
  lemma SuUnitObjects(u: StratUnit, first: nat, opens: bool, p: string)
    requires SuGraphWith(u, first, opens).Ok?
    requires RoleFree(u.fields, p) && p != SuGeologicHistory
    ensures Objects(SuGraphWith(u, first, opens).value.graph, IRI(u.uri), p) == Objects(Description(u).value, IRI(u.uri), p)
  {
    SuGraphParts(u, first, opens);
    HierarchyAvoids(u, p);
    var f := IRI(u.uri);
    var h := History(u, first, opens).value;
    assert HistoryBuilt(f, u.fields, first, opens, h.graph, h.next);
    PartsObjects(Description(u).value, h.graph, HierarchyTriples(f, u.fields.hierarchyLinks).value, f, p, first);
  }

  lemma PartsObjects(d: Graph, h: Graph, hl: Graph, f: Node, p: string, first: nat)
    requires !f.Blank? && p != SuGeologicHistory && Objects(hl, f, p) == {}
    requires forall t | t in h :: t.s.Blank? || t == Triple(f, SuGeologicHistory, Blank(first))
    ensures Objects(d + h + hl, f, p) == Objects(d, f, p)
  {
    ObjectsNone(h, f, p);
    ObjectsUnion(d, h, f, p);
    ObjectsUnion(d + h, hl, f, p);
  }

  /** The unit's type, dataset and four descriptive links (feature.py:76-102):
      one object each, the field's first IRI, or none when the field is
      absent, unless a hierarchy link reuses the predicate as its role. */
  lemma SuUnitFields(u: StratUnit, first: nat, opens: bool)
    requires SuGraphWith(u, first, opens).Ok?
    ensures var g, f, fs := SuGraphWith(u, first, opens).value.graph, IRI(u.uri), u.fields;
      && (RoleFree(fs, RdfType) ==> Objects(g, f, RdfType) == {IRI(GeoFeature)})
      && (RoleFree(fs, DctIsPartOf) ==> Objects(g, f, DctIsPartOf) == {IRI(DatasetUri)})
      && (RoleFree(fs, SuObservationMethod) ==> Objects(g, f, SuObservationMethod) == FirstIRI(fs.observationMethod))
      && (RoleFree(fs, SuGeologicUnitType) ==> Objects(g, f, SuGeologicUnitType) == FirstIRI(fs.geologicUnitType))
      && (RoleFree(fs, SuDescriptionPurpose) ==> Objects(g, f, SuDescriptionPurpose) == FirstIRI(fs.descriptionPurpose))
      && (RoleFree(fs, SuStratigraphicRank) ==> Objects(g, f, SuStratigraphicRank) == FirstIRI(fs.stratigraphicRank))
  {
    SuGraphParts(u, first, opens);
    DescriptionObjects(u);
    var fs := u.fields;
    if RoleFree(fs, RdfType) { SuUnitObjects(u, first, opens, RdfType); }
    if RoleFree(fs, DctIsPartOf) { SuUnitObjects(u, first, opens, DctIsPartOf); }
    if RoleFree(fs, SuObservationMethod) { SuUnitObjects(u, first, opens, SuObservationMethod); }
    if RoleFree(fs, SuGeologicUnitType) { SuUnitObjects(u, first, opens, SuGeologicUnitType); }
    if RoleFree(fs, SuDescriptionPurpose) { SuUnitObjects(u, first, opens, SuDescriptionPurpose); }
    if RoleFree(fs, SuStratigraphicRank) { SuUnitObjects(u, first, opens, SuStratigraphicRank); }
  }

  /** Every hierarchy link becomes a triple from the unit (feature.py:198-203). */
  lemma SuHierarchyLinks(u: StratUnit, first: nat, opens: bool)
    requires SuGraphWith(u, first, opens).Ok?
    ensures forall i | 0 <= i < |u.fields.hierarchyLinks| ::
      LinkWellFormed(u.fields.hierarchyLinks[i])
      && LinkTriple(IRI(u.uri), u.fields.hierarchyLinks[i]) in SuGraphWith(u, first, opens).value.graph
  {
    SuGraphParts(u, first, opens);
  }

  /** What the history node says survives the union with the unit's own
      triples, none of which has a blank subject. */
  lemma HistoryLinkedUnion(h: Graph, rest: Graph, fs: Fields, first: nat)
    requires EventReadable(fs) && HistoryLinked(h, fs, first)
    requires forall t | t in rest :: !t.s.Blank?
    ensures HistoryLinked(h + rest, fs, first)
  {
    var ge := Blank(first);
    OnlyFrom(h, rest, ge, SuEventProcess);
    OnlyFrom(h, rest, ge, SuYoungerNamedAge);
    OnlyFrom(h, rest, ge, SuOlderNamedAge);
    OnlyFrom(h, rest, ge, SuYoungerBound);
    OnlyFrom(h, rest, ge, SuOlderBound);
    if fs.youngerBound.Some? {
      QuantityNodeUnion(h, rest, Blank(first + 1), fs.youngerBound.value);
    }
    if fs.olderBound.Some? {
      QuantityNodeUnion(h, rest, OlderQuantity(fs, first), fs.olderBound.value);
    }
  }

  /** The unit links to the history node `Blank(first)` exactly when it is
      created, and the node carries the event process, the named ages and
      a quantity per bound (feature.py:104-196). */
  lemma SuHistoryNode(u: StratUnit, first: nat, opens: bool)
    requires SuGraphWith(u, first, opens).Ok?
    ensures var g, f, fs := SuGraphWith(u, first, opens).value.graph, IRI(u.uri), u.fields;
      && (RoleFree(fs, SuGeologicHistory) ==> Objects(g, f, SuGeologicHistory) == if opens then {Blank(first)} else {})
      && (opens ==> HistoryLinked(g, fs, first))
  {
    SuGraphParts(u, first, opens);
    var f, fs := IRI(u.uri), u.fields;
    var d, h := Description(u).value, History(u, first, opens).value;
    var hl := HierarchyTriples(f, fs.hierarchyLinks).value;
    assert HistoryBuilt(f, fs, first, opens, h.graph, h.next);
    assert forall t | t in d :: t.s == f && t.o.IRI? && t.p != SuGeologicHistory;
    assert forall t | t in hl :: t.s == f && t.o.IRI?;
    if RoleFree(fs, SuGeologicHistory) {
      HierarchyAvoids(u, SuGeologicHistory);
    }
    PartsHistory(d, h.graph, hl, f, fs, first, opens, RoleFree(fs, SuGeologicHistory));
  }

  lemma PartsHistory(d: Graph, h: Graph, hl: Graph, f: Node, fs: Fields, first: nat, opens: bool, roleFree: bool)
    requires !f.Blank? && EventReadable(fs)
    requires forall t | t in d :: t.s == f && t.o.IRI? && t.p != SuGeologicHistory
    requires forall t | t in hl :: t.s == f && t.o.IRI?
    requires roleFree ==> Objects(hl, f, SuGeologicHistory) == {}
    requires Objects(h, f, SuGeologicHistory) == (if opens then {Blank(first)} else {})
    requires opens ==> HistoryLinked(h, fs, first)
    ensures roleFree ==> Objects(d + h + hl, f, SuGeologicHistory) == if opens then {Blank(first)} else {}
    ensures opens ==> HistoryLinked(d + h + hl, fs, first)
  {
    assert d + h + hl == h + (d + hl);
    if roleFree {
      ObjectsNone(d, f, SuGeologicHistory);
      ObjectsUnion(d, hl, f, SuGeologicHistory);
      ObjectsUnion(h, d + hl, f, SuGeologicHistory);
    }
    if opens {
      HistoryLinkedUnion(h, d + hl, fs, first);
    }
  }

  /** Where the source creates the history node, it is created for a
      reason: `to_su_graph` as written succeeds only when it agrees with the
      corrected mapping. */
  lemma SuAsWrittenAgrees(u: StratUnit, first: nat)
    requires SuGraphAsWritten(u, first).Ok?
    ensures SuGraphAsWritten(u, first) == SuGraph(u, first)
  {
    assert OpensHistoryAsWritten(u.fields) == HasEventData(u.fields);
  }

  /** A unit with an older bound or older named age but no event process,
      younger bound or younger named age reaches `ge` before feature.py:105
      bound it: `to_su_graph` raises. The corrected mapping succeeds. */
  lemma SuOrphanOlderAge(u: StratUnit, first: nat)
    requires SuReadable(u.fields) && !OpensHistoryAsWritten(u.fields)
    requires u.fields.olderBound.Some? || u.fields.olderNamedAge.Some?
    ensures SuGraphAsWritten(u, first) == Err(UnboundLocal("ge"))
    ensures SuGraph(u, first).Ok? && Objects(SuGraph(u, first).value.graph, Blank(first), SuOlderNamedAge) == FirstIRI(u.fields.olderNamedAge)
  {
    SuHistoryNode(u, first, true);
  }
}
