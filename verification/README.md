# aust-strat-api: the StratUnit core in Dafny

A model of the part of the Australian Stratigraphic Units API that turns a
stratigraphic unit into a resource. A unit is named by an IRI ending in
`/SU<number>`. Its fields come from Geoscience Australia's WFS. It is served
under one of four profiles:

- **geosp**: a GeoSPARQL feature.
- **su**: the stratigraphic-unit ontology, with a geologic-history node
  carrying the event process, named ages and `qudt:Quantity` bounds.
- **loop3d**: the Loop3D GSO ontology, with a geologic event, its process
  typed through the event-process table, and a time interval with a
  numeric range.
- **gsmlb**: the original GeoSciML XML. That is the intent; as written the
  branch raises TypeError (see Findings).

It also models the WFS helpers:

- parsing the feature count;
- the triples of the unit index;
- `safe_list_get`;
- the `featureid` request parameter;
- the five-key record of `get_strat_unit`.

Modules, one per file, follow the program's structure:

| module | file | what it holds |
|---|---|---|
| `Py` | py.dfy | The Python behaviour the code relies on: `Result` with Python exception kinds, subscripting and dict lookup, `str.split`, `str.replace`, `int()` on decimal numerals. |
| `Rdf` | rdf.dfy | Triples and graphs as sets, and `Objects`. `Built` stands in for rdflib's `BNode()`: a graph plus the next unused blank-node number. Also the vocabulary. |
| `StratUnits` | strat_units.dfy | `StratUnit.__init__` and `to_geosp_graph`. |
| `SuProfile` | su_profile.dfy | `to_su_graph`. |
| `Processes` | processes.dfy | The event-process to GSO-process table, as two datatypes and a total map between them. |
| `Loop3dProfile` | loop3d_profile.dfy | `to_loop3d_graph`. |
| `WfsUtils` | wfs_utils.dfy | The string and graph logic of api/wfs_utils.py. |
| `Renderer` | renderer.dfy | `StratUnitRenderer.__init__`, `render` and `_render_rdf`. |

How Python maps onto the model:

- Every Python exception the code can raise is an `Err` of `Result`. Errors
  come in Python's evaluation order. An absent field is `None`, so `field[0]`
  on it is a TypeError. A short list is an IndexError. Reading `ge` before it
  is bound is an UnboundLocalError.
- The WFS fetch, rdflib's iteration order over `g.subjects(...)` and the base
  `Renderer`'s content negotiation are parameters.
- Blank nodes are numbered from a given `first`, in the order the source
  calls `BNode()`.

## Model

| member | source | states |
|---|---|---|
| StratUnits.Identifier | api/model/feature.py:19 | `uri.split("/SU")[1]` fails with IndexError exactly when the URI has no "/SU". Otherwise it is the text delimited by the first "/SU" and the next one (or the end), and holds no "/SU". |
| StratUnits.IdentifierOfUnitUri | api/model/feature.py:19 | Round trip: the identifier of `prefix + "/SU" + id` is `id` whenever neither part contains "/SU". |
| StratUnits.NewStratUnit | api/model/feature.py:11-38 | Construction succeeds iff the URI has a "/SU" and the fetch of "GA.GeologicProvince." + identifier succeeds. The unit keeps its URI and the fetched fields. Its first link is the items link titled with the unit's title, followed by exactly the caller's other links. |
| StratUnits.GeospGraph | api/model/feature.py:40-60 | The geosp graph has exactly two triples, both about the unit: it is a `geo:Feature`, and it is `dcterms:isPartOf` the sus dataset and nothing else. |
| SuProfile.FieldLink | api/model/feature.py:76-102 | A field link succeeds iff the field is absent or has a first element. It then links the subject to that first IRI and to nothing else. |
| SuProfile.HistoryLink | api/model/feature.py:113-118 | A link from `ge` is empty for an absent field. A present field with `ge` unbound is UnboundLocal("ge"). |
| SuProfile.Quantity | api/model/feature.py:121-145 | A bound's quantity node exists iff the bound has a value and a unit. It is a `qudt:Quantity`. A bound in Ma gets its number times a million as value and years as unit. Any other bound keeps its number and unit. The node has exactly these three triples and nothing else. |
| SuProfile.Bound | api/model/feature.py:120-182 | A bound is built before `ge` is read: a present bound without a value and a unit is an IndexError, whether or not `ge` is bound. A readable bound with `ge` unbound is UnboundLocal("ge"). An absent bound adds nothing; a readable one adds one fresh quantity node and its link from `ge`, and nothing else. |
| SuProfile.HierarchyTriples | api/model/feature.py:198-203 | Succeeds iff every hierarchy link has a role and a target. The result is exactly one (unit, role, target) triple per link. |
| SuProfile.Description | api/model/feature.py:76-102 | The four descriptive links succeed iff each field is absent or non-empty. They extend the geosp graph with triples only about the unit, IRI-valued and never `geologicHistory`. |
| SuProfile.DescriptionObjects | api/model/feature.py:62-102 | The description gives the unit one type, one dataset, and for each descriptive field exactly its first IRI (none when absent). |
| SuProfile.History | api/model/feature.py:104-196 | The history part succeeds iff its fields are readable and `ge` is created whenever a field is attached to it; otherwise the error is UnboundLocal("ge"). Its blank nodes are fresh. The unit links to `Blank(first)` exactly when `ge` is created, and then the node carries the event process, named ages and bounds. The history node has no triples but these. |
| SuProfile.SuGraphWith | api/model/feature.py:62-205 | `to_su_graph` with the creation of `ge` as a parameter succeeds iff all fields read are readable and `ge` exists whenever history data exists. It contains the geosp graph, and all its blank nodes are fresh. It takes exactly one blank node for `ge`, when it is created, and one per bound. |
| SuProfile.SuGraphAsWritten | api/model/feature.py:62-205 | As written, `to_su_graph` succeeds iff the fields are readable and any history data implies the guard of line 105 (event process, younger bound or younger named age). |
| SuProfile.SuGraph | api/model/feature.py:62-205 | With `ge` created for any history field, `to_su_graph` succeeds exactly when every field it reads is readable. |
| SuProfile.SuUnitFields | api/model/feature.py:76-102 | In the whole su graph the unit has type `geo:Feature`, the sus dataset, and each descriptive field's first IRI. This holds unless a hierarchy link reuses that predicate as its role. |
| SuProfile.SuHierarchyLinks | api/model/feature.py:198-203 | Every hierarchy link appears as a triple from the unit in the su graph. |
| SuProfile.SuHistoryNode | api/model/feature.py:104-196 | Unless a hierarchy link uses `su:geologicHistory` as its role, the unit's only `geologicHistory` object is `Blank(first)` when `ge` is created and none otherwise. The node links exactly the first event process, younger/older named age and quantity of each bound, and has no other triples. |
| SuProfile.HistoryLinks | api/model/feature.py:113-196 | The six pieces of an opened history node together say what `HistoryLinked` requires of the union. |
| SuProfile.HistoryOlderBound | api/model/feature.py:152-182 | The older bound's quantity node follows the younger one's when there is one. It is the only `olderBound` object of `ge` and carries the older bound's value and unit. |
| SuProfile.SuAsWrittenAgrees | api/model/feature.py:105-196 | Wherever `to_su_graph` as written succeeds, it yields the same graph as the corrected mapping. |
| SuProfile.SuOrphanOlderAge | api/model/feature.py:105-196 | A readable unit with only older history data makes the source raise UnboundLocal("ge"). The corrected mapping succeeds and records the older named age on the history node. |
| Processes.ProcessSubtype | api/model/feature.py:252-345 | `geologic_processes.get(iri)` finds a class iff the IRI is the event-process namespace followed by a local name the table lists. The class is the GSO class the table maps that name to. |
| Processes.UnmappedNeverProduced | api/model/feature.py:253-338 | No event process is typed with a GSPR class whose entry the table leaves commented out. |
| Loop3dProfile.TimeValue | api/model/feature.py:385-421 | A value node exists iff the source list is present with a value and a unit. Absent, it is a TypeError; short, an IndexError. It is a `Time_Numeric_Value` and `Geologic_Time_Date` with the number as written and a unit node typed GSO `ma` for Geoscience Australia's Ma, otherwise the unit IRI. The two nodes have no other triples. |
| Loop3dProfile.EventSubtype | api/model/feature.py:252-345 | The subtype lookup reads `eventProcess[0]` only when the field is present, and then gives the table's class. |
| Loop3dProfile.Range | api/model/feature.py:376-459 | The range succeeds iff the younger bound is readable and, with an older bound, the start source is readable. A present younger bound without value and unit is an IndexError, raised before the source is read. It is empty without bounds. With bounds, the range node links the end value of the younger bound and the start value read from the source. The range node has no other triples, and the range takes exactly one blank node plus two per bound. |
| Loop3dProfile.Temporal | api/model/feature.py:350-459 | The time interval exists iff some age or bound is present. It links the named ages as finished/started-by and has a value iff some bound is present. Errors follow the source's read order: a present but empty named age or a present younger bound without value and unit is an IndexError, raised before the start source is read; only then does an absent source give TypeError. The interval node has no other triples, and the interval takes exactly its own blank node plus the range's. |
| Loop3dProfile.Loop3dGraphWith | api/model/feature.py:207-460 | With the start value's source as a parameter, `to_loop3d_graph` succeeds iff the guard of line 222 is false or every read field is readable; under the guard a present but empty event process or named age, or a present younger bound without value and unit, is an IndexError. The unit is a `Group`. It participates in `Blank(first)` exactly when the guard holds, and then the event and process nodes say what the fields say. Nothing else is in the graph: every subject is the unit, with only its type and participation, or one of the blank nodes created, whose number is fixed by the fields, and each of those has only the triples listed for it. |
| Loop3dProfile.EventGraph | api/model/feature.py:216-459 | The group, event and process triples plus the time interval: blank nodes stay in range, and the event, process typing and interval links are exactly as read. |
| Loop3dProfile.Loop3dGraphAsWritten | api/model/feature.py:207-460 | As written, the mapping fails with TypeError for an older bound without a younger bound, since it reads `youngerBound[0]` for the start value. Otherwise it succeeds iff the fields are readable. |
| Loop3dProfile.Loop3dGraph | api/model/feature.py:207-460 | Reading the start value from the older bound, the mapping succeeds iff the guard is false or every field, both bounds included, is readable. |
| Loop3dProfile.Loop3dOlderBoundValue | api/model/feature.py:423-459 | In the corrected mapping the range's start value carries the older bound's number and unit. |
| Loop3dProfile.Loop3dStartRepeatsEnd | api/model/feature.py:440-459 | As written, the start value's number is the end value's, the younger bound's. |
| Loop3dProfile.Loop3dCretaceousRange | api/model/feature.py:423-459 | For bounds of 66 and 145 Ma the as-written graph starts the range at 66, the corrected one at 145. |
| Loop3dProfile.Loop3dIgnoresSource | api/model/feature.py:376-459 | Without an older bound the mapping does not depend on where the start value would be read from. |
| Loop3dProfile.Loop3dAsWrittenAgrees | api/model/feature.py:207-460 | Wherever the source succeeds, the corrected mapping succeeds too, given a readable older bound. Without an older bound the two give the same graph. |
| WfsUtils.SafeListGet | api/wfs_utils.py:71-75 | `safe_list_get` gives `ls[idx]` for an index in range, counting negative ones from the end, and the default otherwise. |
| WfsUtils.SafeListGetFromEnd | api/wfs_utils.py:71-75 | A negative index `i - len(ls)` reaches the same element as `i`. One past either end gives the default. |
| WfsUtils.NumberOfFeatures | api/wfs_utils.py:11-21 | The count is IndexError when the response has no `numberOfFeatures="`. It succeeds iff the text between the first marker and the next quote is a non-empty decimal numeral, and is then that numeral's value; any other text is a ValueError. |
| WfsUtils.NumberOfFeaturesOf | api/wfs_utils.py:21 | Round trip: a response with `numberOfFeatures="<n>"` after a marker-free prefix parses to `n`. |
| WfsUtils.IndexFid | api/wfs_utils.py:45-47 | An index fid is "SU" followed by the fid with "StratigraphicUnit." removed. It is no longer than "SU" plus the attribute, and equals "SU" plus the attribute when there is nothing to remove. |
| WfsUtils.IndexFidOfNumber | api/wfs_utils.py:45-47 | The fid `StratigraphicUnit.<n>` becomes `SU<n>`. |
| WfsUtils.IndexEntry | api/wfs_utils.py:44-64 | A member needs a fid and a name, else IndexError. It contributes three triples about `gfs:SU<n>`: a `strat:Unit`, with the fid as identifier and the name as title. |
| WfsUtils.IndexGraph | api/wfs_utils.py:44-64 | The index succeeds iff every member is indexable. It holds every member's triples and nothing else. |
| WfsUtils.IndexUriIdentifier | api/wfs_utils.py:45-49 | The URI the index gives unit `n` leads `StratUnit.__init__` back to the identifier `n`. |
| WfsUtils.FeatureIdParam | api/wfs_utils.py:85 | The `featureid` parameter is "asud.gsml.geologicunit." followed by the province id: it starts with that prefix and is exactly the id longer. |
| WfsUtils.FeatureIdRoundTrip | api/wfs_utils.py:85 | The province id is recovered from the `featureid` parameter after its prefix. |
| WfsUtils.GetStratUnitRecord | api/wfs_utils.py:100-106 | The record exists iff all five XPath results are non-empty. It has exactly the five keys, each the first match. |
| WfsUtils.RecordAttribute | api/model/feature.py:23-24 | After the record's keys are set as attributes, reading `self.<name>` gives the record's value for a key and raises AttributeError for any other name `__init__` does not set. |
| WfsUtils.RecordLookups | api/wfs_utils.py:100-106 | The record has the key "title", which `__init__` reads for the items link, but not "geologicUnitType", "stratigraphicRank" or "eventProcess". So once its keys are set as attributes, the graph builders' reads of those attributes (feature.py:83, 97, 105, 222) raise AttributeError. |
| Renderer.LastMember | api/model/feature.py:488-492 | The item loop fails iff making some member into a unit fails. Otherwise some unit is found iff some item is part of the collection, and the unit kept is the one made from the last such item in iteration order. |
| Renderer.ResolveFeature | api/model/feature.py:478-492 | No subject with the collection id raises "You have entered an unknown Collection ID". Otherwise the lookup succeeds iff `StratUnit(str(s))` succeeds for every subject `s` with the item id that is part of the collection chosen, the last subject with the collection id in iteration order. The unit found is `StratUnit(str(s))` of the last such item in iteration order. No unit found means no item is part of that collection. |
| Renderer.ResolveUnique | api/model/feature.py:478-492 | With one collection and one member of it with the item id, the lookup finds that member whatever the iteration order. |
| Renderer.NewRenderer | api/model/feature.py:463-497 | gsmlb skips the lookup. Every other profile, whatever its token, succeeds iff the lookup succeeds, holds the unit the lookup found, keeps the other links, and raises for an unknown collection. |
| Renderer.RenderRdf | api/model/feature.py:528-539 | Status 200 iff the media type is a JSON one or an RDF one, serialising the graph: as JSON-LD for JSON types, in the requested media type otherwise. Otherwise 400 text/plain with the rejection message. |
| Renderer.RejectionNamesMediaType | api/model/feature.py:535-539 | The rejection message quotes the requested media type, which can be read back between the first two quotes. |
| Renderer.GsmlbResponseAsWritten | api/model/feature.py:503-508 | As written the gsmlb branch raises TypeError, passing `return_original_xml` to a `get_strat_unit` that takes no such argument. |
| Renderer.GsmlbResponse | api/model/feature.py:503-508 | The corrected gsmlb response is 200 application/xml of the original record of the province id: "GA.GeologicProvince." followed by the feature id with every "SU" removed. |
| Renderer.GsmlbAsksForUnitNumber | api/model/feature.py:505 | For a feature id `SU<n>` the gsmlb branch asks for the same province id as `StratUnit.__init__` does for a URI ending in `/SU<n>`. |
| Renderer.Render | api/model/feature.py:499-515 | `render` as written. A base response is returned as is; other profiles give `None`. gsmlb raises TypeError. A missing feature is an error. su gives the HTML page, or, through `_render_rdf`, the as-written su graph, succeeding iff that graph builds and otherwise raising UnboundLocal("ge") for readable fields. loop3d succeeds iff the as-written loop3d graph builds and serves it through `_render_rdf`. |
| Renderer.RenderCorrected | api/model/feature.py:499-515 | `render` with the three findings corrected: gsmlb serves the original XML, su serves the corrected su graph and succeeds iff the fields are readable, loop3d serves the corrected loop3d graph. The other branches are those of `render`. |
| Renderer.RenderAgrees | api/model/feature.py:499-515 | Wherever `render` as written succeeds, the corrected render gives the same response, given no older bound in the loop3d case. |
| Renderer.OnlyGeospRendersNothing | api/model/feature.py:499-515 | Among the four profiles, `render` falls through to `None` exactly for geosp. |
| Py.SplitSecondOf | api/model/feature.py:19 | `split(sep)[1]` returns the piece placed after a separator-free prefix, whether followed by the end or another separator. |
| Py.ParseDecimal | api/wfs_utils.py:21 | `int(str(n)) == n` for every natural number. |

## Left out

- HTTP requests, XML parsing and XPath evaluation: the fetched values are parameters (`fetch`, `FeatureMember`, `UnitMatches`).
- Writing the index to `stratunits-index.ttl` and the `print`: I/O.
- The `__main__` block of api/wfs_utils.py: scripts, not library behaviour.
- Serialisation to Turtle, JSON-LD and the other RDF formats: a response body records the format and the graph.
- The base `Renderer` of pyLDAPI (profile and media-type negotiation, headers, alternates view) is not part of this model. Its outcome is a parameter of `Render`.
- The `strat_unit.html` template: the HTML response records the unit and links it is rendered with.
- `get_graph()` and the contents of the data graph: a parameter.
- rdflib's iteration order over `g.subjects(...)`: a parameter (`Enumerates`).
- Namespace binding (`g.bind`): prefixes do not change the graph.
- `float(...) * 1000000` in to_su_graph: the value is kept symbolic as `Scaled(text, factor)`. Floating point is out of scope.
- SuProfile.Quantity: does not model the ValueError that `float()` raises for a bound in Ma whose number is not numeric. The number is never parsed.
- Blank-node identity: rdflib's fresh `BNode()` is a numbered `Blank(n)`. Properties are stated for numbering from any `first`.
- Py.ParseInt: accepts plain decimal numerals only. Python's `int()` also takes signs, surrounding whitespace and underscores, none of which the WFS count carries.
- Loop3dAsWrittenAgrees: states agreement only when the older bound is readable or absent. An unreadable older bound is never read by the source as written, so the two can differ there.
- `setattr` of the fetched record's keys: the attributes the builders read are the fields of `Fields`. The record of `get_strat_unit` uses other keys (`RecordLookups` shows that the builders' attribute reads would raise AttributeError), so the fetch is a parameter returning `Fields`.
- `LANDING_PAGE_URL` and the rest of api/config.py: the landing page is a parameter.
- `_render_su_html`'s headers: not modelled, as with all response headers.
- The `RelType` and `MediaType` constants come from api/model/link.py, which is not part of this model: the two values the code uses ("items", "application/json") are constants of `StratUnits`.
- `str(s)` of a blank-node subject: rdflib labels blank nodes with generated hex strings; `NodeText` writes `Blank(n)` as "N" plus the decimal `n`. Neither contains "/SU", so `StratUnit` fails on both the same way.
- The WFS fetch and the landing page that `StratUnit.__init__` uses are parameters of `ResolveFeature` and `NewRenderer`.
- Renderer.RenderAgrees: states agreement for loop3d only without an older bound, as `Loop3dAsWrittenAgrees` does; with an older bound the corrected graph starts the range at the older bound and so differs.

## Findings

| source | as written | input that shows it | evidently intended | confidence | as-written member | corrected member |
|---|---|---|---|---|---|---|
| api/model/feature.py:105 | `ge` is created only for an event process, younger bound or younger named age. The older bound (152-182) and older named age (191-196) are still attached to `ge`. | A unit whose only history field is `olderNamedAge` (or `olderBound`): reading `ge` raises UnboundLocalError. | Create the history node whenever any of the five history fields is present. | high, not executed | SuProfile.SuOrphanOlderAge | SuProfile.SuGraph |
| api/model/feature.py:443, 456 | The start value of the time range takes its number and unit from `youngerBound`, not `olderBound`. | Bounds 66 Ma (younger) and 145 Ma (older): the range starts and ends at 66. An older bound with no younger bound raises TypeError. | Read the start value from `olderBound`. | high, not executed | Loop3dProfile.Loop3dCretaceousRange | Loop3dProfile.Loop3dOlderBoundValue |
| api/model/feature.py:505 | The gsmlb branch calls `get_strat_unit(..., return_original_xml=True)`, but `get_strat_unit` (api/wfs_utils.py:78) takes only `province_id`. | Any request with profile gsmlb: TypeError for the unexpected keyword argument. | Respond with the original GeoSciML XML of the unit. | high, not executed | Renderer.GsmlbResponseAsWritten | Renderer.GsmlbResponse, Renderer.RenderCorrected |
