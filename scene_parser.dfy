/** The scene parser: turns the diagram editor's elements into a roster of
    parsed agents (one per live rectangle, diamond or ellipse) and the
    connections between them (one per live arrow bound at both ends to such
    shapes), plus the undirected neighbour query over those connections. */
module SceneParser {
  import opened JsRuntime
  import opened Types

  /** One diagram element. A binding is the `elementId` of the element an
      arrow end is attached to; `isDeleted` is the soft-delete flag (absent
      reads as false). */
  datatype Element = Element(
    id: string,
    kind: string,
    geometry: Geometry,
    containerId: Option<string>,
    text: Option<string>,
    startBinding: Option<string>,
    endBinding: Option<string>,
    isDeleted: bool)

  datatype ParsedAgent = ParsedAgent(id: string, name: string, geometry: Geometry)

  datatype ParsedConnection = ParsedConnection(fromId: string, toId: string)

  datatype ParsedTeam = ParsedTeam(agents: seq<ParsedAgent>, connections: seq<ParsedConnection>)

  predicate IsActive(e: Element) { !e.isDeleted }

  predicate IsShape(e: Element) { e.kind == "rectangle" || e.kind == "diamond" || e.kind == "ellipse" }

  predicate IsText(e: Element) { e.kind == "text" }

  predicate IsArrow(e: Element) { e.kind == "arrow" }

  /** The live agent shapes, in input order. */
  function Shapes(els: seq<Element>): seq<Element> {
    Filter(Filter(els, IsActive), IsShape)
  }

  /** An agent's display name: the text of the first live text element
      contained in the shape, or "Agent " and the first four characters of
      the shape's id when that text is absent or empty; then trimmed. */
  function AgentName(shape: Element, texts: seq<Element>): (r: string)
    ensures (forall j :: 0 <= j < |texts| ==> texts[j].containerId != Some(shape.id))
            ==> r == Trim("Agent " + SlicePrefix(shape.id, 4))
    ensures forall i :: 0 <= i < |texts| && texts[i].containerId == Some(shape.id)
                        && (forall j :: 0 <= j < i ==> texts[j].containerId != Some(shape.id)) ==>
      r == Trim(if Truthy(texts[i].text) then texts[i].text.value else "Agent " + SlicePrefix(shape.id, 4))
  {
    var bound := Find(texts, (t: Element) => t.containerId == Some(shape.id));
    var raw := if bound.Some? && Truthy(bound.value.text) then bound.value.text.value
               else "Agent " + SlicePrefix(shape.id, 4);
    Trim(raw)
  }

  /** A display name is already trimmed: it has no leading or trailing
      white space left to remove. */
  lemma AgentNameTrimmed(shape: Element, texts: seq<Element>)
    ensures Trim(AgentName(shape, texts)) == AgentName(shape, texts)
  {
    var bound := Find(texts, (t: Element) => t.containerId == Some(shape.id));
    TrimIdempotent(if bound.Some? && Truthy(bound.value.text) then bound.value.text.value
                   else "Agent " + SlicePrefix(shape.id, 4));
  }

  /** An arrow whose two ends are bound to (non-empty) ids in `ids`. */
  predicate Links(a: Element, ids: set<string>) {
    Truthy(a.startBinding) && Truthy(a.endBinding) &&
    a.startBinding.value in ids && a.endBinding.value in ids
  }

  function ToConnection(a: Element): ParsedConnection
    requires a.startBinding.Some? && a.endBinding.Some?
  {
    ParsedConnection(a.startBinding.value, a.endBinding.value)
  }

  /** The connections of the arrows that link two shapes in `ids`, in arrow
      order, each from its start binding to its end binding. */
  function ConnectionsOf(arrows: seq<Element>, ids: set<string>): (r: seq<ParsedConnection>)
    ensures |r| <= |arrows|
    ensures forall c :: c in r ==> c.fromId in ids && c.toId in ids
    ensures forall i :: 0 <= i < |arrows| && Links(arrows[i], ids) ==> ToConnection(arrows[i]) in r
    ensures forall c :: c in r ==> exists a :: a in arrows && Links(a, ids) && c == ToConnection(a)
  {
    if arrows == [] then []
    else
      var rest := ConnectionsOf(arrows[1..], ids);
      assert forall a :: a in arrows[1..] ==> a in arrows;
      if Links(arrows[0], ids) then [ToConnection(arrows[0])] + rest else rest
  }

  /** The connections of consecutive runs of arrows are concatenated, so the
      connections keep arrow order and count every linking arrow once. */
  lemma {:induction false} ConnectionsOfConcat(a: seq<Element>, b: seq<Element>, ids: set<string>)
    ensures ConnectionsOf(a + b, ids) == ConnectionsOf(a, ids) + ConnectionsOf(b, ids)
  {
    if a == [] {
      assert a + b == b;
    } else {
      assert (a + b)[1..] == a[1..] + b;
      ConnectionsOfConcat(a[1..], b, ids);
    }
  }

  /** One arrow gives its own connection when it links two shapes of `ids`,
      and none otherwise. */
  lemma ConnectionsOfOne(a: Element, ids: set<string>)
    ensures ConnectionsOf([a], ids) == if Links(a, ids) then [ToConnection(a)] else []
  {
    assert [a][1..] == [];
  }

  function AgentIds(p: ParsedTeam): set<string> {
    set a | a in p.agents :: a.id
  }

  /** The parsed agents of the given shapes, in order. */
  function ParseAgents(shapes: seq<Element>, texts: seq<Element>): (r: seq<ParsedAgent>)
    ensures |r| == |shapes|
    ensures forall i :: 0 <= i < |shapes| ==>
      r[i] == ParsedAgent(shapes[i].id, AgentName(shapes[i], texts), shapes[i].geometry)
  {
    if shapes == [] then []
    else [ParsedAgent(shapes[0].id, AgentName(shapes[0], texts), shapes[0].geometry)]
         + ParseAgents(shapes[1..], texts)
  }

  /** The parse of the live (not soft-deleted) elements. */
  function ParseLive(active: seq<Element>): (p: ParsedTeam)
    ensures |p.agents| == |Filter(active, IsShape)|
    ensures forall i :: 0 <= i < |p.agents| ==>
      && p.agents[i].id == Filter(active, IsShape)[i].id
      && p.agents[i].geometry == Filter(active, IsShape)[i].geometry
      && p.agents[i].name == AgentName(Filter(active, IsShape)[i], Filter(active, IsText))
    ensures |p.connections| <= |Filter(active, IsArrow)|
    ensures forall c :: c in p.connections ==> c.fromId in AgentIds(p) && c.toId in AgentIds(p)
  {
    var agents := ParseAgents(Filter(active, IsShape), Filter(active, IsText));
    // The source builds this set from the shapes' ids, which are the agents' ids.
    var ids := set a | a in agents :: a.id;
    ParsedTeam(agents, ConnectionsOf(Filter(active, IsArrow), ids))
  }

  /** `parseExcalidrawScene`: soft-deleted elements are dropped first. */
  function ParseScene(els: seq<Element>): (p: ParsedTeam)
    ensures |p.agents| == |Shapes(els)|
    ensures forall i :: 0 <= i < |p.agents| ==> p.agents[i].id == Shapes(els)[i].id
    ensures forall c :: c in p.connections ==> c.fromId in AgentIds(p) && c.toId in AgentIds(p)
  {
    ParseLive(Filter(els, IsActive))
  }

  /** Every parsed agent comes from a live shape element. */
  lemma {:induction false} AgentsAreLiveShapes(els: seq<Element>, i: nat)
    requires i < |ParseScene(els).agents|
    ensures exists e :: e in els && !e.isDeleted && IsShape(e) && e.id == ParseScene(els).agents[i].id
  {
    var sh := Shapes(els);
    assert sh[i] in Filter(els, IsActive) && IsShape(sh[i]);
    assert sh[i] in els && IsActive(sh[i]);
  }

  /** A soft-deleted element, wherever it sits, changes nothing in the parse. */
  lemma {:induction false} DeletedElementIgnored(before: seq<Element>, d: Element, after: seq<Element>)
    requires d.isDeleted
    ensures ParseScene(before + [d] + after) == ParseScene(before + after)
  {
    FilterConcat(before + [d], after, IsActive);
    FilterConcat(before, [d], IsActive);
    FilterConcat(before, after, IsActive);
    assert [d][1..] == [];
    assert Filter([d], IsActive) == [];
    assert Filter(before + [d], IsActive) == Filter(before, IsActive);
    assert Filter(before + [d] + after, IsActive) == Filter(before + after, IsActive);
  }

  /** `agentIdsFromParsed` over a list of connections: for each connection
      touching `id`, in order, its other end. */
  function NeighboursIn(conns: seq<ParsedConnection>, id: string): (r: seq<string>)
    ensures |r| <= |conns|
    ensures forall c :: c in conns && c.fromId == id ==> c.toId in r
    ensures forall c :: c in conns && c.toId == id ==> c.fromId in r
  {
    if conns == [] then []
    else
      var c := conns[0];
      (if c.fromId == id then [c.toId] else if c.toId == id then [c.fromId] else [])
      + NeighboursIn(conns[1..], id)
  }

  /** The neighbours of `id` in a parse: one entry per connection touching
      it, in connection order, duplicates kept. */
  function Neighbours(p: ParsedTeam, id: string): (r: seq<string>)
    ensures |r| <= |p.connections|
    ensures forall c :: c in p.connections && c.fromId == id ==> c.toId in r
    ensures forall c :: c in p.connections && c.toId == id ==> c.fromId in r
  {
    NeighboursIn(p.connections, id)
  }

  /** The neighbours of consecutive runs of connections are concatenated. */
  lemma {:induction false} NeighboursInConcat(a: seq<ParsedConnection>, b: seq<ParsedConnection>, id: string)
    ensures NeighboursIn(a + b, id) == NeighboursIn(a, id) + NeighboursIn(b, id)
  {
    if a == [] {
      assert a + b == b;
    } else {
      assert (a + b)[1..] == a[1..] + b;
      NeighboursInConcat(a[1..], b, id);
    }
  }

  /** One connection contributes its other end when it starts at `id`, its
      start when it only ends at `id`, and nothing otherwise. */
  lemma NeighboursInOne(c: ParsedConnection, id: string)
    ensures NeighboursIn([c], id) ==
      if c.fromId == id then [c.toId] else if c.toId == id then [c.fromId] else []
  {
    assert [c][1..] == [];
  }

  /** Two ids are joined by some connection, in either direction. */
  ghost predicate Joined(conns: seq<ParsedConnection>, a: string, b: string) {
    exists c :: c in conns && ((c.fromId == a && c.toId == b) || (c.toId == a && c.fromId == b))
  }

  /** The neighbour query ignores direction: `x` is a neighbour of `a`
      exactly when some connection joins them, either way round. */
  lemma {:induction false} NeighbourIffJoined(conns: seq<ParsedConnection>, a: string, x: string)
    ensures x in NeighboursIn(conns, a) <==> Joined(conns, a, x)
  {
    if conns != [] {
      var c := conns[0];
      NeighbourIffJoined(conns[1..], a, x);
      assert forall d :: d in conns[1..] ==> d in conns;
      if Joined(conns, a, x) && !Joined(conns[1..], a, x) {
        var d :| d in conns && ((d.fromId == a && d.toId == x) || (d.toId == a && d.fromId == x));
        assert d == c;
      }
    }
  }

  /** Hence the neighbour relation is symmetric. */
  lemma NeighbourSymmetric(p: ParsedTeam, a: string, b: string)
    ensures b in Neighbours(p, a) <==> a in Neighbours(p, b)
  {
    NeighbourIffJoined(p.connections, a, b);
    NeighbourIffJoined(p.connections, b, a);
  }

  /** A neighbour in a parsed scene is always the id of a parsed agent. */
  lemma NeighboursAreAgents(els: seq<Element>, a: string, x: string)
    requires x in Neighbours(ParseScene(els), a)
    ensures x in AgentIds(ParseScene(els))
  {
    NeighbourIffJoined(ParseScene(els).connections, a, x);
  }
}
