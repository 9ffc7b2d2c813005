/** `StratUnit.to_loop3d_graph` (api/model/feature.py:207-460): the unit as a
    GSO `Group` taking part in a geologic event, with the event's process,
    its time interval, and the interval's end and start values. */
module Loop3dProfile {
  import opened Py
  import opened Rdf
  import opened StratUnits
  import opened SuProfile
  import opened Processes

  // ---------------------------------------------------------------------------
  // Conditions on the fetched fields

  /** Some age of the event is known: the condition of feature.py:350-353
      for the time interval. */
  predicate HasAge(fs: Fields) {
    fs.youngerNamedAge.Some? || fs.olderNamedAge.Some? || fs.youngerBound.Some? || fs.olderBound.Some?
  }

  /** Some bound is known: the condition of feature.py:376 for the range. */
  predicate HasRange(fs: Fields) {
    fs.youngerBound.Some? || fs.olderBound.Some?
  }

  /** Every field the event part reads can be read, the start value being
      read from `startSource`. */
  predicate Loop3dReadable(fs: Fields, startSource: Option<seq<string>>) {
    && HasFirst(fs.eventProcess) && HasFirst(fs.youngerNamedAge) && HasFirst(fs.olderNamedAge)
    && HasValueAndUnit(fs.youngerBound)
    && (fs.olderBound.Some? ==> startSource.Some? && |startSource.value| >= 2)
  }

  // ---------------------------------------------------------------------------
  // Pieces of the graph, one subject each

  /** The GSO unit of measure of a bound: Geoscience Australia's Ma becomes
      GSO's `ma`, any other unit is kept. */
  function Loop3dUnit(unit: string): string {
    if unit == UnitGaMa then LunitMa else unit
  }

  /** `v` is a `Time_Numeric_Value` and `Geologic_Time_Date` for the bound
      `b`, whose number is kept as written, and whose unit of measure is the
      next blank node, typed with the bound's unit. Neither node has other
      triples. */
  predicate TimeValueNode(g: Graph, v: nat, b: seq<string>)
    requires |b| >= 2
  {
    && OnlyPredicates(g, Blank(v), {RdfType, GsogHasDataValue, GsocHasUom})
    && OnlyPredicates(g, Blank(v + 1), {RdfType})
    && Objects(g, Blank(v), RdfType) == {IRI(GsocTimeNumericValue), IRI(GsocGeologicTimeDate)}
    && Objects(g, Blank(v), GsogHasDataValue) == {Lit(Text(b[0]), Some(XsdFloat))}
    && Objects(g, Blank(v), GsocHasUom) == {Blank(v + 1)}
    && Objects(g, Blank(v + 1), RdfType) == {IRI(Loop3dUnit(b[1]))}
  }

  /** Every subject of `g` is a blank node numbered in `[lo, hi)`. */
  predicate SubjectsWithin(g: Graph, lo: nat, hi: nat) {
    forall t | t in g :: t.s.Blank? && lo <= t.s.id < hi
  }

  /** A bound's value node `Blank(n)` and its unit node `Blank(n + 1)`
      (feature.py:385-421), reading the number and then the unit from `src`. */
  function TimeValue(src: Option<seq<string>>, n: nat): (r: Result<Built>)
    ensures r.Ok? <==> src.Some? && |src.value| >= 2
    ensures src.None? ==> r == Err(TypeError("'NoneType' object is not subscriptable"))
    ensures src.Some? && r.Err? ==> r.error == IndexError
    ensures r.Ok? ==> r.value.next == n + 2 && SubjectsWithin(r.value.graph, n, n + 2)
    ensures r.Ok? ==> BlanksWithin(r.value.graph, n, n + 2)
    ensures r.Ok? ==> TimeValueNode(r.value.graph, n, src.value)
  {
    var value :- ItemOf(src, 0);
    var unit :- ItemOf(src, 1);
    var v, uom := Blank(n), Blank(n + 1);
    var g := {Triple(v, RdfType, IRI(GsocTimeNumericValue)), Triple(v, RdfType, IRI(GsocGeologicTimeDate)),
              Triple(v, GsogHasDataValue, Lit(Text(value), Some(XsdFloat))), Triple(v, GsocHasUom, uom),
              Triple(uom, RdfType, IRI(Loop3dUnit(unit)))};
    assert Objects(g, v, RdfType) == {IRI(GsocTimeNumericValue), IRI(GsocGeologicTimeDate)};
    assert Objects(g, v, GsogHasDataValue) == {Lit(Text(value), Some(XsdFloat))};
    assert Objects(g, v, GsocHasUom) == {uom};
    assert Objects(g, uom, RdfType) == {IRI(Loop3dUnit(unit))};
    Ok(Built(g, n + 2))
  }

  /** The class the table gives the event process (feature.py:252-345),
      reading its first element when it is present. */
  function EventSubtype(ep: Option<seq<string>>): (r: Result<Option<string>>)
    ensures r.Ok? <==> HasFirst(ep)
    ensures r.Err? ==> r.error == IndexError
    ensures ep.None? ==> r == Ok(None)
    ensures ep.Some? && r.Ok? ==> r.value == ProcessSubtype(ep.value[0])
  {
    match ep
    case None => Ok(None)
    case Some(v) =>
      var e :- Item(v, 0);
      Ok(ProcessSubtype(e))
  }

  /** The blank nodes the range takes: the range node and two per bound. */
  function RangeNodes(fs: Fields): nat {
    if !HasRange(fs) then 0
    else 1 + (if fs.youngerBound.Some? then 2 else 0) + (if fs.olderBound.Some? then 2 else 0)
  }

  /** The blank nodes the time interval takes: its own and the range's. */
  function TemporalNodes(fs: Fields): nat {
    if !HasAge(fs) then 0 else 1 + RangeNodes(fs)
  }

  /** The start value's node: after the end value's two nodes, if any. */
  function StartNode(fs: Fields, n: nat): nat {
    if fs.youngerBound.Some? then n + 3 else n + 1
  }

  /** What the range node `Blank(n)` says in `g`: an end value for the
      younger bound and a start value read from `src` for the older one,
      and nothing else. */
  predicate RangeLinked(g: Graph, fs: Fields, n: nat, src: Option<seq<string>>)
    requires Loop3dReadable(fs, src)
  {
    && OnlyPredicates(g, Blank(n), {GsocHasEndValue, GsocHasStartValue})
    && (if fs.youngerBound.Some?
        then Objects(g, Blank(n), GsocHasEndValue) == {Blank(n + 1)} && TimeValueNode(g, n + 1, fs.youngerBound.value)
        else Objects(g, Blank(n), GsocHasEndValue) == {})
    && (if fs.olderBound.Some?
        then Objects(g, Blank(n), GsocHasStartValue) == {Blank(StartNode(fs, n))} && TimeValueNode(g, StartNode(fs, n), src.value)
        else Objects(g, Blank(n), GsocHasStartValue) == {})
  }

  /** The range node `Blank(n)` and its values (feature.py:376-459), present
      when a bound is; the start value is read from `src`. */
  function Range(fs: Fields, n: nat, src: Option<seq<string>>): (r: Result<Built>)
    ensures r.Ok? <==> HasValueAndUnit(fs.youngerBound) && (fs.olderBound.Some? ==> src.Some? && |src.value| >= 2)
    ensures r.Err? && HasValueAndUnit(fs.youngerBound) && src.None? ==> r == Err(TypeError("'NoneType' object is not subscriptable"))
    ensures !HasValueAndUnit(fs.youngerBound) ==> r == Err(IndexError)
    ensures r.Err? && src.Some? ==> r.error == IndexError
    ensures r.Ok? ==> n <= r.value.next && SubjectsWithin(r.value.graph, n, r.value.next) && BlanksWithin(r.value.graph, n, r.value.next)
    ensures r.Ok? && !HasRange(fs) ==> r.value == Built({}, n)
    ensures r.Ok? && HasRange(fs) ==> n < r.value.next
    ensures r.Ok? ==> r.value.next == n + RangeNodes(fs)
    ensures r.Ok? && HasRange(fs) && HasFirst(fs.eventProcess) && HasFirst(fs.youngerNamedAge) && HasFirst(fs.olderNamedAge) ==>
      RangeLinked(r.value.graph, fs, n, src)
  {
    if !HasRange(fs) then Ok(Built({}, n))
    else
      var tr := Blank(n);
      var end :- if fs.youngerBound.Some? then TimeValue(fs.youngerBound, n + 1) else Ok(Built({}, n + 1));
      var start :- if fs.olderBound.Some? then TimeValue(src, end.next) else Ok(Built({}, end.next));
      var endLink: Graph := if fs.youngerBound.Some? then {Triple(tr, GsocHasEndValue, Blank(n + 1))} else {};
      var startLink: Graph := if fs.olderBound.Some? then {Triple(tr, GsocHasStartValue, Blank(end.next))} else {};
      assert fs.youngerBound.Some? ==> ValuePiece(end, n + 1, fs.youngerBound.value);
      assert fs.olderBound.Some? ==> ValuePiece(start, end.next, src.value);
      RangeFacts(fs, n, src, end, start, endLink, startLink);
      Ok(Built(endLink + startLink + end.graph + start.graph, start.next))
  }

  /** `b` holds just the value node `Blank(n)` for bound `v` and its unit node. */
  predicate ValuePiece(b: Built, n: nat, v: seq<string>)
    requires |v| >= 2
  {
    b.next == n + 2 && SubjectsWithin(b.graph, n, n + 2) && BlanksWithin(b.graph, n, n + 2) && TimeValueNode(b.graph, n, v)
  }

  lemma RangeFacts(fs: Fields, n: nat, src: Option<seq<string>>, end: Built, start: Built, endLink: Graph, startLink: Graph)
    requires HasRange(fs) && HasValueAndUnit(fs.youngerBound) && (fs.olderBound.Some? ==> src.Some? && |src.value| >= 2)
    requires if fs.youngerBound.Some? then ValuePiece(end, n + 1, fs.youngerBound.value) else end == Built({}, n + 1)
    requires if fs.olderBound.Some? then ValuePiece(start, end.next, src.value) else start == Built({}, end.next)
    requires endLink == if fs.youngerBound.Some? then {Triple(Blank(n), GsocHasEndValue, Blank(n + 1))} else {}
    requires startLink == if fs.olderBound.Some? then {Triple(Blank(n), GsocHasStartValue, Blank(end.next))} else {}
    ensures var g := endLink + startLink + end.graph + start.graph;
      && n <= start.next && SubjectsWithin(g, n, start.next) && BlanksWithin(g, n, start.next)
      && (HasFirst(fs.eventProcess) && HasFirst(fs.youngerNamedAge) && HasFirst(fs.olderNamedAge) ==> RangeLinked(g, fs, n, src))
  {
    RangeShape(fs, n, src, end, start, endLink, startLink);
    RangeEnd(fs, n, src, end, start, endLink, startLink);
    RangeStart(fs, n, src, end, start, endLink, startLink);
  }

  lemma RangeShape(fs: Fields, n: nat, src: Option<seq<string>>, end: Built, start: Built, endLink: Graph, startLink: Graph)
    requires HasRange(fs) && HasValueAndUnit(fs.youngerBound) && (fs.olderBound.Some? ==> src.Some? && |src.value| >= 2)
    requires if fs.youngerBound.Some? then ValuePiece(end, n + 1, fs.youngerBound.value) else end == Built({}, n + 1)
    requires if fs.olderBound.Some? then ValuePiece(start, end.next, src.value) else start == Built({}, end.next)
    requires endLink == if fs.youngerBound.Some? then {Triple(Blank(n), GsocHasEndValue, Blank(n + 1))} else {}
    requires startLink == if fs.olderBound.Some? then {Triple(Blank(n), GsocHasStartValue, Blank(end.next))} else {}
    ensures var g := endLink + startLink + end.graph + start.graph;
      n <= start.next && SubjectsWithin(g, n, start.next) && BlanksWithin(g, n, start.next)
  {
    assert n < end.next <= start.next;
    assert SubjectsWithin(end.graph, n, start.next) && BlanksWithin(end.graph, n, start.next);
    assert SubjectsWithin(start.graph, n, start.next) && BlanksWithin(start.graph, n, start.next);
  }

  lemma RangeEnd(fs: Fields, n: nat, src: Option<seq<string>>, end: Built, start: Built, endLink: Graph, startLink: Graph)
    requires HasRange(fs) && HasValueAndUnit(fs.youngerBound) && (fs.olderBound.Some? ==> src.Some? && |src.value| >= 2)
    requires if fs.youngerBound.Some? then ValuePiece(end, n + 1, fs.youngerBound.value) else end == Built({}, n + 1)
    requires if fs.olderBound.Some? then ValuePiece(start, end.next, src.value) else start == Built({}, end.next)
    requires endLink == if fs.youngerBound.Some? then {Triple(Blank(n), GsocHasEndValue, Blank(n + 1))} else {}
    requires startLink == if fs.olderBound.Some? then {Triple(Blank(n), GsocHasStartValue, Blank(end.next))} else {}
    ensures var g := endLink + startLink + end.graph + start.graph;
      if fs.youngerBound.Some?
      then Objects(g, Blank(n), GsocHasEndValue) == {Blank(n + 1)} && TimeValueNode(g, n + 1, fs.youngerBound.value)
      else Objects(g, Blank(n), GsocHasEndValue) == {}
  {
    var g := endLink + startLink + end.graph + start.graph;
    var rest := startLink + end.graph + start.graph;
    assert g == endLink + rest;
    assert forall t | t in rest :: t.s != Blank(n) || t.p != GsocHasEndValue;
    OnlyFrom(endLink, rest, Blank(n), GsocHasEndValue);
    if fs.youngerBound.Some? {
      var others := endLink + startLink + start.graph;
      assert g == end.graph + others;
      assert forall t | t in others :: t.s != Blank(n + 1) && t.s != Blank(n + 2);
      TimeValueUnion(end.graph, others, n + 1, fs.youngerBound.value);
    }
  }

  lemma RangeStart(fs: Fields, n: nat, src: Option<seq<string>>, end: Built, start: Built, endLink: Graph, startLink: Graph)
    requires HasRange(fs) && HasValueAndUnit(fs.youngerBound) && (fs.olderBound.Some? ==> src.Some? && |src.value| >= 2)
    requires if fs.youngerBound.Some? then ValuePiece(end, n + 1, fs.youngerBound.value) else end == Built({}, n + 1)
    requires if fs.olderBound.Some? then ValuePiece(start, end.next, src.value) else start == Built({}, end.next)
    requires endLink == if fs.youngerBound.Some? then {Triple(Blank(n), GsocHasEndValue, Blank(n + 1))} else {}
    requires startLink == if fs.olderBound.Some? then {Triple(Blank(n), GsocHasStartValue, Blank(end.next))} else {}
    ensures var g := endLink + startLink + end.graph + start.graph;
      if fs.olderBound.Some?
      then Objects(g, Blank(n), GsocHasStartValue) == {Blank(StartNode(fs, n))} && TimeValueNode(g, StartNode(fs, n), src.value)
      else Objects(g, Blank(n), GsocHasStartValue) == {}
  {
    var g := endLink + startLink + end.graph + start.graph;
    assert end.next == StartNode(fs, n);
    var rest := endLink + end.graph + start.graph;
    assert g == startLink + rest;
    assert forall t | t in rest :: t.s != Blank(n) || t.p != GsocHasStartValue;
    OnlyFrom(startLink, rest, Blank(n), GsocHasStartValue);
    if fs.olderBound.Some? {
      var others := endLink + startLink + end.graph;
      assert g == start.graph + others;
      assert forall t | t in others :: t.s != Blank(end.next) && t.s != Blank(end.next + 1);
      TimeValueUnion(start.graph, others, end.next, src.value);
    }
  }

  /** A value node keeps its description when triples about other subjects are added. */
  lemma TimeValueUnion(x: Graph, rest: Graph, v: nat, b: seq<string>)
    requires |b| >= 2 && TimeValueNode(x, v, b)
    requires forall t | t in rest :: t.s != Blank(v) && t.s != Blank(v + 1)
    ensures TimeValueNode(x + rest, v, b)
  {
    OnlyFrom(x, rest, Blank(v), RdfType);
    OnlyFrom(x, rest, Blank(v), GsogHasDataValue);
    OnlyFrom(x, rest, Blank(v), GsocHasUom);
    OnlyFrom(x, rest, Blank(v + 1), RdfType);
  }

  /** What the time-interval node `Blank(n)` says in `g`: the named ages
      that finish and start it, and the range node when a bound is known,
      and nothing else. */
  predicate TemporalLinked(g: Graph, fs: Fields, n: nat, src: Option<seq<string>>)
    requires Loop3dReadable(fs, src)
  {
    && OnlyPredicates(g, Blank(n), {GsocTimeFinishedBy, GsocTimeStartedBy, GsocHasValue})
    && Objects(g, Blank(n), GsocTimeFinishedBy) == FirstIRI(fs.youngerNamedAge)
    && Objects(g, Blank(n), GsocTimeStartedBy) == FirstIRI(fs.olderNamedAge)
    && Objects(g, Blank(n), GsocHasValue) == (if HasRange(fs) then {Blank(n + 1)} else {})
    && (HasRange(fs) ==> RangeLinked(g, fs, n + 1, src))
  }

  /** The time-interval node `Blank(n)` (feature.py:350-459), present when
      an age is known. */
  function Temporal(fs: Fields, n: nat, src: Option<seq<string>>): (r: Result<Built>)
    ensures r.Ok? <==> (HasFirst(fs.youngerNamedAge) && HasFirst(fs.olderNamedAge)
      && HasValueAndUnit(fs.youngerBound) && (fs.olderBound.Some? ==> src.Some? && |src.value| >= 2))
    ensures (r.Err? && HasFirst(fs.youngerNamedAge) && HasFirst(fs.olderNamedAge) && HasValueAndUnit(fs.youngerBound)
      && src.None?) ==> r == Err(TypeError("'NoneType' object is not subscriptable"))
    ensures !(HasFirst(fs.youngerNamedAge) && HasFirst(fs.olderNamedAge) && HasValueAndUnit(fs.youngerBound)) ==> r == Err(IndexError)
    ensures r.Err? && src.Some? ==> r.error == IndexError
    ensures r.Ok? ==> n <= r.value.next && SubjectsWithin(r.value.graph, n, r.value.next) && BlanksWithin(r.value.graph, n, r.value.next)
    ensures r.Ok? && !HasAge(fs) ==> r.value == Built({}, n)
    ensures r.Ok? && HasAge(fs) ==> n < r.value.next
    ensures r.Ok? ==> r.value.next == n + TemporalNodes(fs)
    ensures r.Ok? && HasAge(fs) && HasFirst(fs.eventProcess) ==> TemporalLinked(r.value.graph, fs, n, src)
  {
    if !HasAge(fs) then Ok(Built({}, n))
    else
      var ti := Blank(n);
      var fin :- FieldLink(ti, GsocTimeFinishedBy, fs.youngerNamedAge);
      var sta :- FieldLink(ti, GsocTimeStartedBy, fs.olderNamedAge);
      var rg :- Range(fs, n + 1, src);
      var link: Graph := if HasRange(fs) then {Triple(ti, GsocHasValue, Blank(n + 1))} else {};
      TemporalFacts(fs, n, src, fin, sta, link, rg);
      Ok(Built(fin + sta + link + rg.graph, rg.next))
  }

  lemma TemporalFacts(fs: Fields, n: nat, src: Option<seq<string>>, fin: Graph, sta: Graph, link: Graph, rg: Built)
    requires HasFirst(fs.youngerNamedAge) && HasFirst(fs.olderNamedAge)
    requires HasValueAndUnit(fs.youngerBound) && (fs.olderBound.Some? ==> src.Some? && |src.value| >= 2)
    requires LinkPiece(fin, Blank(n), GsocTimeFinishedBy, fs.youngerNamedAge)
    requires LinkPiece(sta, Blank(n), GsocTimeStartedBy, fs.olderNamedAge)
    requires link == if HasRange(fs) then {Triple(Blank(n), GsocHasValue, Blank(n + 1))} else {}
    requires n + 1 <= rg.next && SubjectsWithin(rg.graph, n + 1, rg.next) && BlanksWithin(rg.graph, n + 1, rg.next)
    requires !HasRange(fs) ==> rg == Built({}, n + 1)
    requires HasRange(fs) ==> n + 1 < rg.next
    requires HasRange(fs) && HasFirst(fs.eventProcess) ==> RangeLinked(rg.graph, fs, n + 1, src)
    ensures var g := fin + sta + link + rg.graph;
      && n <= rg.next && SubjectsWithin(g, n, rg.next) && BlanksWithin(g, n, rg.next)
      && (HasFirst(fs.eventProcess) ==> TemporalLinked(g, fs, n, src))
  {
    TemporalShape(fs, n, src, fin, sta, link, rg);
    if HasFirst(fs.eventProcess) {
      TemporalLinks(fs, n, src, fin, sta, link, rg);
    }
  }

  lemma TemporalShape(fs: Fields, n: nat, src: Option<seq<string>>, fin: Graph, sta: Graph, link: Graph, rg: Built)
    requires HasFirst(fs.youngerNamedAge) && HasFirst(fs.olderNamedAge)
    requires HasValueAndUnit(fs.youngerBound) && (fs.olderBound.Some? ==> src.Some? && |src.value| >= 2)
    requires LinkPiece(fin, Blank(n), GsocTimeFinishedBy, fs.youngerNamedAge)
    requires LinkPiece(sta, Blank(n), GsocTimeStartedBy, fs.olderNamedAge)
    requires link == if HasRange(fs) then {Triple(Blank(n), GsocHasValue, Blank(n + 1))} else {}
    requires n + 1 <= rg.next && SubjectsWithin(rg.graph, n + 1, rg.next) && BlanksWithin(rg.graph, n + 1, rg.next)
    requires !HasRange(fs) ==> rg == Built({}, n + 1)
    requires HasRange(fs) ==> n + 1 < rg.next
    requires HasRange(fs) && HasFirst(fs.eventProcess) ==> RangeLinked(rg.graph, fs, n + 1, src)
    ensures var g := fin + sta + link + rg.graph;
      n <= rg.next && SubjectsWithin(g, n, rg.next) && BlanksWithin(g, n, rg.next)
  {
    assert SubjectsWithin(fin + sta, n, rg.next) && BlanksWithin(fin + sta, n, rg.next);
    assert SubjectsWithin(link, n, rg.next) && BlanksWithin(link, n, rg.next);
    assert SubjectsWithin(rg.graph, n, rg.next) && BlanksWithin(rg.graph, n, rg.next);
  }

  lemma TemporalLinks(fs: Fields, n: nat, src: Option<seq<string>>, fin: Graph, sta: Graph, link: Graph, rg: Built)
    requires HasFirst(fs.youngerNamedAge) && HasFirst(fs.olderNamedAge)
    requires HasValueAndUnit(fs.youngerBound) && (fs.olderBound.Some? ==> src.Some? && |src.value| >= 2)
    requires LinkPiece(fin, Blank(n), GsocTimeFinishedBy, fs.youngerNamedAge)
    requires LinkPiece(sta, Blank(n), GsocTimeStartedBy, fs.olderNamedAge)
    requires link == if HasRange(fs) then {Triple(Blank(n), GsocHasValue, Blank(n + 1))} else {}
    requires n + 1 <= rg.next && SubjectsWithin(rg.graph, n + 1, rg.next) && BlanksWithin(rg.graph, n + 1, rg.next)
    requires !HasRange(fs) ==> rg == Built({}, n + 1)
    requires HasRange(fs) ==> n + 1 < rg.next
    requires HasRange(fs) && HasFirst(fs.eventProcess) ==> RangeLinked(rg.graph, fs, n + 1, src)
    requires HasFirst(fs.eventProcess)
    ensures TemporalLinked(fin + sta + link + rg.graph, fs, n, src)
  {
    TemporalFinished(fs, n, src, fin, sta, link, rg);
    TemporalStarted(fs, n, src, fin, sta, link, rg);
    TemporalValue(fs, n, src, fin, sta, link, rg);
  }

  lemma TemporalFinished(fs: Fields, n: nat, src: Option<seq<string>>, fin: Graph, sta: Graph, link: Graph, rg: Built)
    requires HasFirst(fs.youngerNamedAge) && HasFirst(fs.olderNamedAge)
    requires HasValueAndUnit(fs.youngerBound) && (fs.olderBound.Some? ==> src.Some? && |src.value| >= 2)
    requires LinkPiece(fin, Blank(n), GsocTimeFinishedBy, fs.youngerNamedAge)
    requires LinkPiece(sta, Blank(n), GsocTimeStartedBy, fs.olderNamedAge)
    requires link == if HasRange(fs) then {Triple(Blank(n), GsocHasValue, Blank(n + 1))} else {}
    requires n + 1 <= rg.next && SubjectsWithin(rg.graph, n + 1, rg.next) && BlanksWithin(rg.graph, n + 1, rg.next)
    requires !HasRange(fs) ==> rg == Built({}, n + 1)
    requires HasRange(fs) ==> n + 1 < rg.next
    requires HasRange(fs) && HasFirst(fs.eventProcess) ==> RangeLinked(rg.graph, fs, n + 1, src)
    ensures Objects(fin + sta + link + rg.graph, Blank(n), GsocTimeFinishedBy) == FirstIRI(fs.youngerNamedAge)
  {
    var rest := sta + link + rg.graph;
    assert fin + sta + link + rg.graph == fin + rest;
    assert forall t | t in rest :: t.s != Blank(n) || t.p != GsocTimeFinishedBy;
    OnlyFrom(fin, rest, Blank(n), GsocTimeFinishedBy);
  }

  lemma TemporalStarted(fs: Fields, n: nat, src: Option<seq<string>>, fin: Graph, sta: Graph, link: Graph, rg: Built)
    requires HasFirst(fs.youngerNamedAge) && HasFirst(fs.olderNamedAge)
    requires HasValueAndUnit(fs.youngerBound) && (fs.olderBound.Some? ==> src.Some? && |src.value| >= 2)
    requires LinkPiece(fin, Blank(n), GsocTimeFinishedBy, fs.youngerNamedAge)
    requires LinkPiece(sta, Blank(n), GsocTimeStartedBy, fs.olderNamedAge)
    requires link == if HasRange(fs) then {Triple(Blank(n), GsocHasValue, Blank(n + 1))} else {}
    requires n + 1 <= rg.next && SubjectsWithin(rg.graph, n + 1, rg.next) && BlanksWithin(rg.graph, n + 1, rg.next)
    requires !HasRange(fs) ==> rg == Built({}, n + 1)
    requires HasRange(fs) ==> n + 1 < rg.next
    requires HasRange(fs) && HasFirst(fs.eventProcess) ==> RangeLinked(rg.graph, fs, n + 1, src)
    ensures Objects(fin + sta + link + rg.graph, Blank(n), GsocTimeStartedBy) == FirstIRI(fs.olderNamedAge)
  {
    var rest := fin + link + rg.graph;
    assert fin + sta + link + rg.graph == sta + rest;
    assert forall t | t in rest :: t.s != Blank(n) || t.p != GsocTimeStartedBy;
    OnlyFrom(sta, rest, Blank(n), GsocTimeStartedBy);
  }

  lemma TemporalValue(fs: Fields, n: nat, src: Option<seq<string>>, fin: Graph, sta: Graph, link: Graph, rg: Built)
    requires HasFirst(fs.youngerNamedAge) && HasFirst(fs.olderNamedAge)
    requires HasValueAndUnit(fs.youngerBound) && (fs.olderBound.Some? ==> src.Some? && |src.value| >= 2)
    requires LinkPiece(fin, Blank(n), GsocTimeFinishedBy, fs.youngerNamedAge)
    requires LinkPiece(sta, Blank(n), GsocTimeStartedBy, fs.olderNamedAge)
    requires link == if HasRange(fs) then {Triple(Blank(n), GsocHasValue, Blank(n + 1))} else {}
    requires n + 1 <= rg.next && SubjectsWithin(rg.graph, n + 1, rg.next) && BlanksWithin(rg.graph, n + 1, rg.next)
    requires !HasRange(fs) ==> rg == Built({}, n + 1)
    requires HasRange(fs) ==> n + 1 < rg.next
    requires HasRange(fs) && HasFirst(fs.eventProcess) ==> RangeLinked(rg.graph, fs, n + 1, src)
    requires HasFirst(fs.eventProcess)
    ensures Objects(fin + sta + link + rg.graph, Blank(n), GsocHasValue) == (if HasRange(fs) then {Blank(n + 1)} else {})
    ensures HasRange(fs) ==> RangeLinked(fin + sta + link + rg.graph, fs, n + 1, src)
  {
    var own := fin + sta + link;
    assert forall t | t in own :: t.s == Blank(n);
    assert forall t | t in rg.graph :: t.s.Blank? && n + 1 <= t.s.id;
    HasValuePiece(n, HasRange(fs), fin + sta, link, rg.graph);
    if HasRange(fs) {
      RangeLinkedUnion(rg.graph, own, fs, n + 1, src);
      assert fin + sta + link + rg.graph == rg.graph + own;
    }
  }

  /** Only `link` says what the time-interval node `Blank(n)` has as value. */
  lemma HasValuePiece(n: nat, ranged: bool, ends: Graph, link: Graph, range: Graph)
    requires forall t | t in ends :: t.p != GsocHasValue
    requires link == if ranged then {Triple(Blank(n), GsocHasValue, Blank(n + 1))} else {}
    requires forall t | t in range :: t.s.Blank? && n + 1 <= t.s.id
    ensures Objects(ends + link + range, Blank(n), GsocHasValue) == (if ranged then {Blank(n + 1)} else {})
  {
    assert ends + link + range == link + (ends + range);
    assert forall t | t in ends + range :: t.s != Blank(n) || t.p != GsocHasValue;
    OnlyFrom(link, ends + range, Blank(n), GsocHasValue);
    assert Objects(link, Blank(n), GsocHasValue) == (if ranged then {Blank(n + 1)} else {});
  }

  /** What the range node says survives adding triples about subjects
      numbered below it. */
  lemma RangeLinkedUnion(x: Graph, rest: Graph, fs: Fields, n: nat, src: Option<seq<string>>)
    requires Loop3dReadable(fs, src) && RangeLinked(x, fs, n, src)
    requires forall t | t in rest :: !t.s.Blank? || t.s.id < n
    ensures RangeLinked(x + rest, fs, n, src)
  {
    OnlyFrom(x, rest, Blank(n), GsocHasEndValue);
    OnlyFrom(x, rest, Blank(n), GsocHasStartValue);
    if fs.youngerBound.Some? {
      TimeValueUnion(x, rest, n + 1, fs.youngerBound.value);
    }
    if fs.olderBound.Some? {
      TimeValueUnion(x, rest, StartNode(fs, n), src.value);
    }
  }

  /** The IRIs the process node is typed with: `Geologic_Process`, and the
      class the table gives the event process, if any. */
  function ProcessClasses(ep: Option<seq<string>>): set<Node>
    requires HasFirst(ep)
  {
    SubtypeClasses(if ep.Some? then ProcessSubtype(ep.value[0]) else None)
  }

  function SubtypeClasses(sub: Option<string>): set<Node> {
    {IRI(GsogGeologicProcess)} + if sub.Some? then {IRI(sub.value)} else {}
  }

  /** What the event node `Blank(first)` and the process node
      `Blank(first + 1)`, typed with `classes`, say in `g`
      (feature.py:230-459), and nothing else. */
  predicate EventLinked(g: Graph, fs: Fields, first: nat, src: Option<seq<string>>, classes: set<Node>)
    requires Loop3dReadable(fs, src)
  {
    var ge, gp := Blank(first), Blank(first + 1);
    && OnlyPredicates(g, ge, {RdfType, GsocHasConstituent, GsocDirectTemporalOccupies})
    && OnlyPredicates(g, gp, {RdfType})
    && Objects(g, ge, RdfType) == {IRI(GsogGeologicEvent)}
    && Objects(g, ge, GsocHasConstituent) == {gp}
    && Objects(g, gp, RdfType) == classes
    && Objects(g, ge, GsocDirectTemporalOccupies) == (if HasAge(fs) then {Blank(first + 2)} else {})
    && (HasAge(fs) ==> TemporalLinked(g, fs, first + 2, src))
  }

  /** `to_loop3d_graph` with the field the start value is read from as a
      parameter; blank nodes are numbered from `first` in the order the
      source creates them. */
  function Loop3dGraphWith(u: StratUnit, first: nat, src: Option<seq<string>>): (r: Result<Built>)
    ensures r.Ok? <==> !OpensHistoryAsWritten(u.fields) || Loop3dReadable(u.fields, src)
    ensures (r.Err? && HasFirst(u.fields.eventProcess) && HasFirst(u.fields.youngerNamedAge) && HasFirst(u.fields.olderNamedAge)
      && HasValueAndUnit(u.fields.youngerBound) && src.None?) ==> r == Err(TypeError("'NoneType' object is not subscriptable"))
    ensures r.Err? && src.Some? ==> r.error == IndexError
    ensures OpensHistoryAsWritten(u.fields)
      && !(HasFirst(u.fields.eventProcess) && HasFirst(u.fields.youngerNamedAge)
           && HasFirst(u.fields.olderNamedAge) && HasValueAndUnit(u.fields.youngerBound))
      ==> r == Err(IndexError)
    ensures r.Ok? ==> first <= r.value.next && BlanksWithin(r.value.graph, first, r.value.next)
    ensures r.Ok? ==> r.value.next == first + if OpensHistoryAsWritten(u.fields) then 2 + TemporalNodes(u.fields) else 0
    ensures r.Ok? ==> forall t | t in r.value.graph :: t.s == IRI(u.uri) || (t.s.Blank? && first <= t.s.id < r.value.next)
    ensures r.Ok? ==> OnlyPredicates(r.value.graph, IRI(u.uri), {RdfType, GsocIsParticipantIn})
    ensures r.Ok? ==> Objects(r.value.graph, IRI(u.uri), RdfType) == {IRI(GsogGroup)}
    ensures r.Ok? ==> (Objects(r.value.graph, IRI(u.uri), GsocIsParticipantIn)
      == if OpensHistoryAsWritten(u.fields) then {Blank(first)} else {})
    ensures r.Ok? && OpensHistoryAsWritten(u.fields) ==>
      EventLinked(r.value.graph, u.fields, first, src, ProcessClasses(u.fields.eventProcess))
  {
    var f, fs := IRI(u.uri), u.fields;
    var group := {Triple(f, RdfType, IRI(GsogGroup))};
    if !OpensHistoryAsWritten(fs) then
      assert Objects(group, f, RdfType) == {IRI(GsogGroup)};
      assert Objects(group, f, GsocIsParticipantIn) == {};
      Ok(Built(group, first))
    else
      var sub :- EventSubtype(fs.eventProcess);
      var tm :- Temporal(fs, first + 2, src);
      assert SubtypeClasses(sub) == ProcessClasses(fs.eventProcess);
      Ok(Built(EventGraph(f, fs, first, src, sub, tm), tm.next))
  }

  /** The unit's group triple and its event part (feature.py:216-459): the
      event `Blank(first)`, its process `Blank(first + 1)` typed with `sub`
      when there is one, and the time interval `tm` built from
      `Blank(first + 2)` on. */
  function EventGraph(f: Node, fs: Fields, first: nat, src: Option<seq<string>>, sub: Option<string>, tm: Built): (g: Graph)
    requires Loop3dReadable(fs, src) && !f.Blank?
    requires first + 2 <= tm.next && SubjectsWithin(tm.graph, first + 2, tm.next) && BlanksWithin(tm.graph, first + 2, tm.next)
    requires HasAge(fs) ==> TemporalLinked(tm.graph, fs, first + 2, src)
    requires HasAge(fs) ==> first + 2 < tm.next
    ensures BlanksWithin(g, first, tm.next)
    ensures forall t | t in g :: t.s == f || (t.s.Blank? && first <= t.s.id < tm.next)
    ensures OnlyPredicates(g, f, {RdfType, GsocIsParticipantIn})
    ensures Objects(g, f, RdfType) == {IRI(GsogGroup)}
    ensures Objects(g, f, GsocIsParticipantIn) == {Blank(first)}
    ensures EventLinked(g, fs, first, src, SubtypeClasses(sub))
  {
    var ge, gp := Blank(first), Blank(first + 1);
    var unit := {Triple(f, RdfType, IRI(GsogGroup)), Triple(f, GsocIsParticipantIn, ge)};
    var event := {Triple(ge, RdfType, IRI(GsogGeologicEvent)), Triple(ge, GsocHasConstituent, gp)}
      + (if HasAge(fs) then {Triple(ge, GsocDirectTemporalOccupies, Blank(first + 2))} else {});
    var process := {Triple(gp, RdfType, IRI(GsogGeologicProcess))}
      + (if sub.Some? then {Triple(gp, RdfType, IRI(sub.value))} else {});
    Loop3dFacts(fs, first, src, f, unit, event, process, sub, tm);
    unit + event + process + tm.graph
  }

  /** The unit has only its two triples, and every other subject is a blank
      node numbered from `first`. */
  lemma Loop3dSubjects(f: Node, first: nat, unit: Graph, event: Graph, process: Graph, tm: Built)
    requires !f.Blank? && first + 2 <= tm.next
    requires unit == {Triple(f, RdfType, IRI(GsogGroup)), Triple(f, GsocIsParticipantIn, Blank(first))}
    requires forall t | t in event :: t.s == Blank(first)
    requires forall t | t in process :: t.s == Blank(first + 1)
    requires SubjectsWithin(tm.graph, first + 2, tm.next)
    ensures forall t | t in unit + event + process + tm.graph :: t.s == f || (t.s.Blank? && first <= t.s.id < tm.next)
    ensures OnlyPredicates(unit + event + process + tm.graph, f, {RdfType, GsocIsParticipantIn})
  {
  }

  lemma Loop3dFacts(fs: Fields, first: nat, src: Option<seq<string>>, f: Node, unit: Graph, event: Graph, process: Graph, sub: Option<string>, tm: Built)
    requires Loop3dReadable(fs, src) && !f.Blank?
    requires unit == {Triple(f, RdfType, IRI(GsogGroup)), Triple(f, GsocIsParticipantIn, Blank(first))}
    requires event == {Triple(Blank(first), RdfType, IRI(GsogGeologicEvent)), Triple(Blank(first), GsocHasConstituent, Blank(first + 1))}
      + (if HasAge(fs) then {Triple(Blank(first), GsocDirectTemporalOccupies, Blank(first + 2))} else {})
    requires process == {Triple(Blank(first + 1), RdfType, IRI(GsogGeologicProcess))}
      + (if sub.Some? then {Triple(Blank(first + 1), RdfType, IRI(sub.value))} else {})
    requires first + 2 <= tm.next && SubjectsWithin(tm.graph, first + 2, tm.next) && BlanksWithin(tm.graph, first + 2, tm.next)
    requires HasAge(fs) ==> TemporalLinked(tm.graph, fs, first + 2, src)
    requires HasAge(fs) ==> first + 2 < tm.next
    ensures first <= tm.next && BlanksWithin(unit + event + process + tm.graph, first, tm.next)
    ensures forall t | t in unit + event + process + tm.graph :: t.s == f || (t.s.Blank? && first <= t.s.id < tm.next)
    ensures OnlyPredicates(unit + event + process + tm.graph, f, {RdfType, GsocIsParticipantIn})
    ensures Objects(unit + event + process + tm.graph, f, RdfType) == {IRI(GsogGroup)}
    ensures Objects(unit + event + process + tm.graph, f, GsocIsParticipantIn) == {Blank(first)}
    ensures OnlyPredicates(unit + event + process + tm.graph, Blank(first), {RdfType, GsocHasConstituent, GsocDirectTemporalOccupies})
    ensures OnlyPredicates(unit + event + process + tm.graph, Blank(first + 1), {RdfType})
    ensures Objects(unit + event + process + tm.graph, Blank(first), RdfType) == {IRI(GsogGeologicEvent)}
    ensures Objects(unit + event + process + tm.graph, Blank(first), GsocHasConstituent) == {Blank(first + 1)}
    ensures Objects(unit + event + process + tm.graph, Blank(first + 1), RdfType) == SubtypeClasses(sub)
    ensures Objects(unit + event + process + tm.graph, Blank(first), GsocDirectTemporalOccupies)
      == (if HasAge(fs) then {Blank(first + 2)} else {})
    ensures HasAge(fs) ==> TemporalLinked(unit + event + process + tm.graph, fs, first + 2, src)
  {
    var hi := tm.next;
    UnitShape(f, first, unit, hi);
    EventShape(first, HasAge(fs), event, hi);
    ProcessShape(first + 1, sub, process, hi);
    TimeShape(tm.graph, first, hi);
    Loop3dSubjects(f, first, unit, event, process, tm);
    BlanksUnion(unit, event, first, hi);
    BlanksUnion(unit + event, process, first, hi);
    BlanksUnion(unit + event + process, tm.graph, first, hi);
    Loop3dUnitFacts(f, first, unit, event, process, tm.graph);
    Loop3dEventFacts(first, HasAge(fs), f, unit, event, process, tm.graph);
    Loop3dProcessFacts(first, sub, f, unit, event, process, tm.graph);
    if HasAge(fs) {
      Loop3dTemporalFacts(fs, first, src, f, unit, event, process, tm.graph);
    }
  }

  lemma BlanksUnion(a: Graph, b: Graph, lo: nat, hi: nat)
    requires BlanksWithin(a, lo, hi) && BlanksWithin(b, lo, hi)
    ensures BlanksWithin(a + b, lo, hi)
  {
  }

  lemma UnitShape(f: Node, first: nat, unit: Graph, hi: nat)
    requires !f.Blank? && first + 2 <= hi
    requires unit == {Triple(f, RdfType, IRI(GsogGroup)), Triple(f, GsocIsParticipantIn, Blank(first))}
    ensures forall t | t in unit :: t.s == f
    ensures BlanksWithin(unit, first, hi)
  {
  }

  lemma EventShape(first: nat, timed: bool, event: Graph, hi: nat)
    requires first + 2 <= hi && (timed ==> first + 2 < hi)
    requires event == {Triple(Blank(first), RdfType, IRI(GsogGeologicEvent)), Triple(Blank(first), GsocHasConstituent, Blank(first + 1))}
      + (if timed then {Triple(Blank(first), GsocDirectTemporalOccupies, Blank(first + 2))} else {})
    ensures forall t | t in event :: t.s == Blank(first)
    ensures BlanksWithin(event, first, hi)
  {
  }

  lemma ProcessShape(gp: nat, sub: Option<string>, process: Graph, hi: nat)
    requires gp < hi
    requires process == {Triple(Blank(gp), RdfType, IRI(GsogGeologicProcess))}
      + (if sub.Some? then {Triple(Blank(gp), RdfType, IRI(sub.value))} else {})
    ensures forall t | t in process :: t.s == Blank(gp)
    ensures BlanksWithin(process, gp, hi)
  {
  }

  lemma TimeShape(g: Graph, first: nat, hi: nat)
    requires first + 2 <= hi && SubjectsWithin(g, first + 2, hi) && BlanksWithin(g, first + 2, hi)
    ensures forall t | t in g :: t.s.Blank? && first + 2 <= t.s.id
    ensures BlanksWithin(g, first, hi)
  {
  }

  lemma Loop3dUnitFacts(f: Node, first: nat, unit: Graph, event: Graph, process: Graph, temporal: Graph)
    requires !f.Blank?
    requires unit == {Triple(f, RdfType, IRI(GsogGroup)), Triple(f, GsocIsParticipantIn, Blank(first))}
    requires forall t | t in event :: t.s == Blank(first)
    requires forall t | t in process :: t.s == Blank(first + 1)
    requires forall t | t in temporal :: t.s.Blank?
    ensures Objects(unit + event + process + temporal, f, RdfType) == {IRI(GsogGroup)}
    ensures Objects(unit + event + process + temporal, f, GsocIsParticipantIn) == {Blank(first)}
  {
    assert forall t | t in event + process + temporal :: t.s.Blank?;
    UnitPiece(f, first, unit, event + process + temporal);
    assert unit + event + process + temporal == unit + (event + process + temporal);
  }

  lemma UnitPiece(f: Node, first: nat, unit: Graph, rest: Graph)
    requires !f.Blank? && unit == {Triple(f, RdfType, IRI(GsogGroup)), Triple(f, GsocIsParticipantIn, Blank(first))}
    requires forall t | t in rest :: t.s.Blank?
    ensures Objects(unit + rest, f, RdfType) == {IRI(GsogGroup)}
    ensures Objects(unit + rest, f, GsocIsParticipantIn) == {Blank(first)}
  {
    OnlyFrom(unit, rest, f, RdfType);
    OnlyFrom(unit, rest, f, GsocIsParticipantIn);
    assert Objects(unit, f, RdfType) == {IRI(GsogGroup)};
    assert Objects(unit, f, GsocIsParticipantIn) == {Blank(first)};
  }

  lemma Loop3dEventFacts(first: nat, timed: bool, f: Node, unit: Graph, event: Graph, process: Graph, temporal: Graph)
    requires event == {Triple(Blank(first), RdfType, IRI(GsogGeologicEvent)), Triple(Blank(first), GsocHasConstituent, Blank(first + 1))}
      + (if timed then {Triple(Blank(first), GsocDirectTemporalOccupies, Blank(first + 2))} else {})
    requires !f.Blank?
    requires forall t | t in unit :: t.s == f
    requires forall t | t in process :: t.s == Blank(first + 1)
    requires forall t | t in temporal :: t.s.Blank? && first + 2 <= t.s.id
    ensures OnlyPredicates(unit + event + process + temporal, Blank(first), {RdfType, GsocHasConstituent, GsocDirectTemporalOccupies})
    ensures Objects(unit + event + process + temporal, Blank(first), RdfType) == {IRI(GsogGeologicEvent)}
    ensures Objects(unit + event + process + temporal, Blank(first), GsocHasConstituent) == {Blank(first + 1)}
    ensures Objects(unit + event + process + temporal, Blank(first), GsocDirectTemporalOccupies)
      == (if timed then {Blank(first + 2)} else {})
  {
    assert forall t | t in unit + process + temporal :: t.s != Blank(first);
    assert unit + event + process + temporal == event + (unit + process + temporal);
    EventPiece(first, timed, event, unit + process + temporal);
  }

  lemma EventPiece(first: nat, timed: bool, event: Graph, rest: Graph)
    requires event == {Triple(Blank(first), RdfType, IRI(GsogGeologicEvent)), Triple(Blank(first), GsocHasConstituent, Blank(first + 1))}
      + (if timed then {Triple(Blank(first), GsocDirectTemporalOccupies, Blank(first + 2))} else {})
    requires forall t | t in rest :: t.s != Blank(first)
    ensures OnlyPredicates(event + rest, Blank(first), {RdfType, GsocHasConstituent, GsocDirectTemporalOccupies})
    ensures Objects(event + rest, Blank(first), RdfType) == {IRI(GsogGeologicEvent)}
    ensures Objects(event + rest, Blank(first), GsocHasConstituent) == {Blank(first + 1)}
    ensures Objects(event + rest, Blank(first), GsocDirectTemporalOccupies) == (if timed then {Blank(first + 2)} else {})
  {
    var ge := Blank(first);
    OnlyFrom(event, rest, ge, RdfType);
    OnlyFrom(event, rest, ge, GsocHasConstituent);
    OnlyFrom(event, rest, ge, GsocDirectTemporalOccupies);
    assert Objects(event, ge, RdfType) == {IRI(GsogGeologicEvent)};
    assert Objects(event, ge, GsocHasConstituent) == {Blank(first + 1)};
    assert Objects(event, ge, GsocDirectTemporalOccupies) == (if timed then {Blank(first + 2)} else {});
  }

  lemma Loop3dProcessFacts(first: nat, sub: Option<string>, f: Node, unit: Graph, event: Graph, process: Graph, temporal: Graph)
    requires process == {Triple(Blank(first + 1), RdfType, IRI(GsogGeologicProcess))}
      + (if sub.Some? then {Triple(Blank(first + 1), RdfType, IRI(sub.value))} else {})
    requires !f.Blank?
    requires forall t | t in unit :: t.s == f
    requires forall t | t in event :: t.s == Blank(first)
    requires forall t | t in temporal :: t.s.Blank? && first + 2 <= t.s.id
    ensures OnlyPredicates(unit + event + process + temporal, Blank(first + 1), {RdfType})
    ensures Objects(unit + event + process + temporal, Blank(first + 1), RdfType) == SubtypeClasses(sub)
  {
    assert forall t | t in unit + event + temporal :: t.s != Blank(first + 1);
    assert unit + event + process + temporal == process + (unit + event + temporal);
    ProcessPiece(first + 1, sub, process, unit + event + temporal);
  }

  lemma ProcessPiece(gp: nat, sub: Option<string>, process: Graph, rest: Graph)
    requires process == {Triple(Blank(gp), RdfType, IRI(GsogGeologicProcess))}
      + (if sub.Some? then {Triple(Blank(gp), RdfType, IRI(sub.value))} else {})
    requires forall t | t in rest :: t.s != Blank(gp)
    ensures OnlyPredicates(process + rest, Blank(gp), {RdfType})
    ensures Objects(process + rest, Blank(gp), RdfType)
      == {IRI(GsogGeologicProcess)} + (if sub.Some? then {IRI(sub.value)} else {})
  {
    OnlyFrom(process, rest, Blank(gp), RdfType);
    assert Objects(process, Blank(gp), RdfType) == {IRI(GsogGeologicProcess)} + (if sub.Some? then {IRI(sub.value)} else {});
  }

  lemma Loop3dTemporalFacts(fs: Fields, first: nat, src: Option<seq<string>>, f: Node, unit: Graph, event: Graph, process: Graph, temporal: Graph)
    requires Loop3dReadable(fs, src) && TemporalLinked(temporal, fs, first + 2, src)
    requires !f.Blank?
    requires forall t | t in unit :: t.s == f
    requires forall t | t in event :: t.s == Blank(first)
    requires forall t | t in process :: t.s == Blank(first + 1)
    ensures TemporalLinked(unit + event + process + temporal, fs, first + 2, src)
  {
    var own := unit + event + process;
    assert unit + event + process + temporal == temporal + own;
    assert forall t | t in own :: !t.s.Blank? || t.s.id < first + 2;
    TemporalLinkedUnion(temporal, own, fs, first + 2, src);
  }

  /** What the time-interval node says survives adding triples about
      subjects numbered below it. */
  lemma TemporalLinkedUnion(x: Graph, rest: Graph, fs: Fields, n: nat, src: Option<seq<string>>)
    requires Loop3dReadable(fs, src) && TemporalLinked(x, fs, n, src)
    requires forall t | t in rest :: !t.s.Blank? || t.s.id < n
    ensures TemporalLinked(x + rest, fs, n, src)
  {
    OnlyFrom(x, rest, Blank(n), GsocTimeFinishedBy);
    OnlyFrom(x, rest, Blank(n), GsocTimeStartedBy);
    OnlyFrom(x, rest, Blank(n), GsocHasValue);
    if HasRange(fs) {
      RangeLinkedUnion(x, rest, fs, n + 1, src);
    }
  }

  // ---------------------------------------------------------------------------
  // The mapping as written and as intended

  /** `to_loop3d_graph` as written: the start value's number and unit are
      read from the younger bound (feature.py:443 and 455-457), so an older
      bound without a younger one cannot be mapped. */
  function Loop3dGraphAsWritten(u: StratUnit, first: nat): (r: Result<Built>)
    ensures r.Ok? <==> (!OpensHistoryAsWritten(u.fields)
      || (HasFirst(u.fields.eventProcess) && HasFirst(u.fields.youngerNamedAge) && HasFirst(u.fields.olderNamedAge)
          && HasValueAndUnit(u.fields.youngerBound) && (u.fields.olderBound.Some? ==> u.fields.youngerBound.Some?)))
    ensures (OpensHistoryAsWritten(u.fields) && HasFirst(u.fields.eventProcess) && HasFirst(u.fields.youngerNamedAge)
      && HasFirst(u.fields.olderNamedAge) && u.fields.youngerBound.None? && u.fields.olderBound.Some?)
      ==> r == Err(TypeError("'NoneType' object is not subscriptable"))
  {
    Loop3dGraphWith(u, first, u.fields.youngerBound)
  }

  /** `to_loop3d_graph` with the start value read from the older bound. */
  function Loop3dGraph(u: StratUnit, first: nat): (r: Result<Built>)
    ensures r.Ok? <==> (!OpensHistoryAsWritten(u.fields)
      || (HasFirst(u.fields.eventProcess) && HasFirst(u.fields.youngerNamedAge) && HasFirst(u.fields.olderNamedAge)
          && HasValueAndUnit(u.fields.youngerBound) && HasValueAndUnit(u.fields.olderBound)))
  {
    Loop3dGraphWith(u, first, u.fields.olderBound)
  }

  /** The blank-node number of the range `tr` in the graph of
      `Loop3dGraphWith(u, first, src)`: after `ge`, `gp` and `ti`. */
  function RangeNode(first: nat): nat { first + 3 }

  /** The start value of the mapped unit carries the number and unit of
      `src`: the older bound for `Loop3dGraph`. */
  lemma {:induction false} Loop3dStartValue(u: StratUnit, first: nat, src: Option<seq<string>>)
    requires OpensHistoryAsWritten(u.fields) && u.fields.olderBound.Some? && Loop3dReadable(u.fields, src)
    ensures Loop3dGraphWith(u, first, src).Ok?
    ensures var g, n := Loop3dGraphWith(u, first, src).value.graph, StartNode(u.fields, RangeNode(first));
      && Objects(g, Blank(RangeNode(first)), GsocHasStartValue) == {Blank(n)}
      && Objects(g, Blank(n), GsogHasDataValue) == {Lit(Text(src.value[0]), Some(XsdFloat))}
      && Objects(g, Blank(n + 1), RdfType) == {IRI(Loop3dUnit(src.value[1]))}
  {
    var g, fs := Loop3dGraphWith(u, first, src).value.graph, u.fields;
    assert EventLinked(g, fs, first, src, ProcessClasses(fs.eventProcess));
    assert TemporalLinked(g, fs, first + 2, src);
    assert RangeLinked(g, fs, first + 3, src);
  }

  /** The corrected mapping gives the start value the older bound's number
      and unit. */
  lemma Loop3dOlderBoundValue(u: StratUnit, first: nat)
    requires OpensHistoryAsWritten(u.fields) && u.fields.olderBound.Some? && Loop3dReadable(u.fields, u.fields.olderBound)
    ensures Loop3dGraph(u, first).Ok?
    ensures var g, n := Loop3dGraph(u, first).value.graph, StartNode(u.fields, RangeNode(first));
      && Objects(g, Blank(RangeNode(first)), GsocHasStartValue) == {Blank(n)}
      && Objects(g, Blank(n), GsogHasDataValue) == {Lit(Text(u.fields.olderBound.value[0]), Some(XsdFloat))}
      && Objects(g, Blank(n + 1), RdfType) == {IRI(Loop3dUnit(u.fields.olderBound.value[1]))}
  {
    Loop3dStartValue(u, first, u.fields.olderBound);
  }

  /** As written, the start value repeats the younger bound's number and
      unit: the end and the start of the range coincide. */
  lemma Loop3dStartRepeatsEnd(u: StratUnit, first: nat)
    requires OpensHistoryAsWritten(u.fields) && u.fields.olderBound.Some? && Loop3dReadable(u.fields, u.fields.youngerBound)
    ensures Loop3dGraphAsWritten(u, first).Ok?
    ensures var g, n := Loop3dGraphAsWritten(u, first).value.graph, StartNode(u.fields, RangeNode(first));
      && Objects(g, Blank(RangeNode(first)), GsocHasEndValue) == {Blank(RangeNode(first) + 1)}
      && Objects(g, Blank(n), GsogHasDataValue) == Objects(g, Blank(RangeNode(first) + 1), GsogHasDataValue)
      && Objects(g, Blank(n), GsogHasDataValue) == {Lit(Text(u.fields.youngerBound.value[0]), Some(XsdFloat))}
  {
    var g, fs := Loop3dGraphAsWritten(u, first).value.graph, u.fields;
    Loop3dStartValue(u, first, fs.youngerBound);
    assert TemporalLinked(g, fs, first + 2, fs.youngerBound);
    assert RangeLinked(g, fs, first + 3, fs.youngerBound);
  }

  /** A unit whose bounds are 66 Ma and 145 Ma. */
  function CretaceousFields(): Fields {
    Fields("", None, None, None, None, None, Some(["66", UnitGaMa]), Some(["145", UnitGaMa]), None, None, [])
  }

  /** For bounds of 66 Ma and 145 Ma, the graph as written says the range
      starts at 66; the corrected one says 145. */
  lemma Loop3dCretaceousRange(u: StratUnit)
    requires u.fields == CretaceousFields()
    ensures Loop3dGraphAsWritten(u, 0).Ok? && Loop3dGraph(u, 0).Ok?
    ensures Objects(Loop3dGraphAsWritten(u, 0).value.graph, Blank(6), GsogHasDataValue) == {Lit(Text("66"), Some(XsdFloat))}
    ensures Objects(Loop3dGraph(u, 0).value.graph, Blank(6), GsogHasDataValue) == {Lit(Text("145"), Some(XsdFloat))}
  {
    Loop3dStartRepeatsEnd(u, 0);
    Loop3dOlderBoundValue(u, 0);
  }

  /** The range does not read `src` when there is no older bound. */
  lemma RangeIgnoresSource(fs: Fields, n: nat, src: Option<seq<string>>, other: Option<seq<string>>)
    requires fs.olderBound.None?
    ensures Range(fs, n, src) == Range(fs, n, other)
  {
  }

  lemma TemporalIgnoresSource(fs: Fields, n: nat, src: Option<seq<string>>, other: Option<seq<string>>)
    requires fs.olderBound.None?
    ensures Temporal(fs, n, src) == Temporal(fs, n, other)
  {
    RangeIgnoresSource(fs, n + 1, src, other);
  }

  lemma Loop3dIgnoresSource(u: StratUnit, first: nat, src: Option<seq<string>>, other: Option<seq<string>>)
    requires u.fields.olderBound.None?
    ensures Loop3dGraphWith(u, first, src) == Loop3dGraphWith(u, first, other)
  {
    TemporalIgnoresSource(u.fields, first + 2, src, other);
  }

  /** Without an older bound the two mappings agree; with a readable one,
      wherever the mapping as written succeeds the corrected one does too. */
  lemma Loop3dAsWrittenAgrees(u: StratUnit, first: nat)
    requires Loop3dGraphAsWritten(u, first).Ok?
    ensures HasValueAndUnit(u.fields.olderBound) ==> Loop3dGraph(u, first).Ok?
    ensures u.fields.olderBound.None? ==> Loop3dGraphAsWritten(u, first) == Loop3dGraph(u, first)
  {
    if u.fields.olderBound.None? {
      Loop3dIgnoresSource(u, first, u.fields.youngerBound, u.fields.olderBound);
    }
  }
}
