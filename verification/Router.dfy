/** The route trie and the linear scan it replaced. */
module Routing {
  import opened Orders

  /** A segment of a registered path: literal text, or a `:name` parameter. */
  datatype Piece = Lit(text: string) | Param

  type Pattern = seq<Piece>

  /** Handlers are opaque: a number stands for one. */
  type Handler = nat

  datatype Route = Route(verb: string, pattern: Pattern, handler: Handler)

  /** Where the first segment of a path ends. */
  function Cut(path: string): (n: nat)
    ensures n <= |path| && '/' !in path[..n] && (n < |path| ==> path[n] == '/')
  {
    if path == "" || path[0] == '/' then 0 else 1 + Cut(path[1..])
  }

  /** The non-empty parts between slashes. */
  function Segments(path: string): seq<string>
    decreases |path|
  {
    if path == "" then []
    else if path[0] == '/' then Segments(path[1..])
    else [path[..Cut(path)]] + Segments(path[Cut(path)..])
  }

  function Upper(verb: string): string {
    seq(|verb|, i requires 0 <= i < |verb| => if 'a' <= verb[i] <= 'z' then 'A' + (verb[i] - 'a') else verb[i])
  }

  function PieceOf(segment: string): Piece {
    if segment != "" && segment[0] == ':' then Param else Lit(segment)
  }

  function PatternOf(path: string): Pattern {
    var segments := Segments(path);
    seq(|segments|, i requires 0 <= i < |segments| => PieceOf(segments[i]))
  }

  predicate Matches(p: Pattern, segments: seq<string>) {
    |p| == |segments| && forall i | 0 <= i < |p| :: p[i].Param? || p[i].text == segments[i]
  }

  function FirstIndex(routes: seq<Route>, ok: Route -> bool): (r: Option<nat>)
    ensures r.Some? ==> r.value < |routes| && ok(routes[r.value]) && forall j | 0 <= j < r.value :: !ok(routes[j])
    ensures r.None? ==> forall j | 0 <= j < |routes| :: !ok(routes[j])
  {
    if routes == [] then None
    else
      var n := |routes| - 1;
      var r := FirstIndex(routes[..n], ok);
      if r.Some? then r else if ok(routes[n]) then Some(n) else None
  }

  /** The linear scan: the first registered route that matches. */
  function FirstMatching(routes: seq<Route>, verb: string, segments: seq<string>): Option<nat> {
    FirstIndex(routes, (r: Route) => r.verb == verb && Matches(r.pattern, segments))
  }

  /** The first registered route with exactly this pattern. */
  function FirstExact(routes: seq<Route>, verb: string, p: Pattern): Option<nat> {
    FirstIndex(routes, (r: Route) => r.verb == verb && r.pattern == p)
  }

  /** The trie has a node at `p`: some route goes through it. */
  ghost predicate IsNode(routes: seq<Route>, verb: string, p: Pattern) {
    exists i :: 0 <= i < |routes| && routes[i].verb == verb && p <= routes[i].pattern
  }

  /** The descent from node `p`: a static child wins over a parameter, and nothing is undone. */
  ghost function Walk(routes: seq<Route>, verb: string, p: Pattern, segments: seq<string>): Option<Pattern>
    decreases |segments|
  {
    if segments == [] then Some(p)
    else if IsNode(routes, verb, p + [Lit(segments[0])]) then Walk(routes, verb, p + [Lit(segments[0])], segments[1..])
    else if IsNode(routes, verb, p + [Param]) then Walk(routes, verb, p + [Param], segments[1..])
    else None
  }

  /** The route whose handler the trie returns. */
  ghost function Found(routes: seq<Route>, verb: string, segments: seq<string>): Option<nat> {
    if !IsNode(routes, verb, []) then None
    else
      var end := Walk(routes, verb, [], segments);
      if end.None? then None else FirstExact(routes, verb, end.value)
  }

  // ---- Paths and verbs ----------------------------------------------------------------------------------

  lemma {:induction false} CutBefore(a: string, b: string)
    requires '/' !in a
    ensures Cut(a + "/" + b) == |a| && Cut(a) == |a|
  {
    if a != "" {
      assert a == [a[0]] + a[1..] && a[0] in a;
      CutBefore(a[1..], b);
      assert (a + "/" + b)[1..] == a[1..] + "/" + b;
    }
  }

  lemma SegmentsUnfold(path: string)
    ensures Segments(path) == if path == "" then [] else if path[0] == '/' then Segments(path[1..])
      else [path[..Cut(path)]] + Segments(path[Cut(path)..])
    ensures path != "" && path[0] != '/' ==> 0 < Cut(path) <= |path|
  {
  }

  /** The first segment of a path is the first segment of what it begins. */
  lemma CutOfPrefix(a: string, b: string)
    requires a != "" && a[0] != '/'
    ensures 0 < Cut(a) <= |a| && Cut(a + "/" + b) == Cut(a)
    ensures (a + "/" + b)[..Cut(a)] == a[..Cut(a)] && (a + "/" + b)[Cut(a)..] == a[Cut(a)..] + "/" + b
  {
    var n := Cut(a);
    var rest := if n < |a| then a[n + 1..] + "/" + b else b;
    CutBefore(a[..n], rest);
    assert a + "/" + b == a[..n] + "/" + rest;
  }

  /** A path is split at its slashes and nowhere else, and empty parts do not count. */
  lemma {:induction false} SegmentsSplit(a: string, b: string)
    ensures Segments(a + "/" + b) == Segments(a) + Segments(b)
    decreases |a|
  {
    hide Segments, Cut;
    var path := a + "/" + b;
    SegmentsUnfold(path);
    SegmentsUnfold(a);
    if a == "" {
      assert path[1..] == b;
    } else if a[0] == '/' {
      assert path[1..] == a[1..] + "/" + b;
      SegmentsSplit(a[1..], b);
    } else {
      CutOfPrefix(a, b);
      SegmentsSplit(a[Cut(a)..], b);
    }
  }

  /** A part without slashes is one segment, unless it is empty. */
  lemma OneSegment(part: string)
    requires '/' !in part
    ensures Segments(part) == if part == "" then [] else [part]
  {
    if part != "" {
      assert part[0] in part;
      CutBefore(part, "");
      assert part[..|part|] == part && part[|part|..] == "";
    }
  }

  lemma {:induction false} SegmentsAreParts(path: string, i: nat)
    requires i < |Segments(path)|
    ensures Segments(path)[i] != "" && '/' !in Segments(path)[i]
    decreases |path|
  {
    if path[0] == '/' {
      SegmentsAreParts(path[1..], i);
    } else if i > 0 {
      SegmentsAreParts(path[Cut(path)..], i - 1);
    }
  }

  /** A registered path matches a requested one exactly when they have as many segments and each
      registered one starts with a colon or is the requested one. */
  lemma PathMatchesIff(registered: string, path: string)
    ensures Matches(PatternOf(registered), Segments(path))
            <==> var r, q := Segments(registered), Segments(path);
                 |r| == |q| && forall i | 0 <= i < |r| :: ":" <= r[i] || r[i] == q[i]
  {
    var r, q := Segments(registered), Segments(path);
    forall i | 0 <= i < |r| ensures PieceOf(r[i]).Param? <==> ":" <= r[i] {
    }
  }

  /** Equal characters, or the same ASCII letter. */
  predicate SameLetter(c: char, d: char) {
    c == d || ('a' <= c <= 'z' && d as int == c as int - 32) || ('a' <= d <= 'z' && c as int == d as int - 32)
  }

  /** Verbs are registered without regard to case, and under their capitals: one without lower-case
      letters as it is. */
  lemma VerbsAgreeIff(v: string, w: string)
    ensures Upper(v) == v <==> forall i | 0 <= i < |v| :: !('a' <= v[i] <= 'z')
    ensures Upper(v) == Upper(w) <==> |v| == |w| && forall i | 0 <= i < |v| :: SameLetter(v[i], w[i])
  {
    forall i | 0 <= i < |v| && Upper(v) == v ensures !('a' <= v[i] <= 'z') {
      assert Upper(v)[i] == v[i];
    }
    if Upper(v) == Upper(w) {
      assert |v| == |Upper(v)| == |Upper(w)| == |w|;
      forall i | 0 <= i < |v| ensures SameLetter(v[i], w[i]) {
        assert Upper(v)[i] == Upper(w)[i];
      }
    }
  }

  // ---- Trie against scan ------------------------------------------------------------------------------

  lemma {:induction false} WalkMatches(routes: seq<Route>, verb: string, p: Pattern, segments: seq<string>)
    ensures var end := Walk(routes, verb, p, segments);
      end.Some? ==> p <= end.value && Matches(end.value[|p|..], segments)
    decreases |segments|
  {
    if segments != [] {
      var lit, rest := p + [Lit(segments[0])], segments[1..];
      if IsNode(routes, verb, lit) {
        WalkMatches(routes, verb, lit, rest);
        MatchesCons(Walk(routes, verb, p, segments), p, Lit(segments[0]), segments);
      } else if IsNode(routes, verb, p + [Param]) {
        WalkMatches(routes, verb, p + [Param], rest);
        MatchesCons(Walk(routes, verb, p, segments), p, Param, segments);
      }
    }
  }

  lemma MatchesCons(end: Option<Pattern>, p: Pattern, piece: Piece, segments: seq<string>)
    requires segments != [] && (piece.Param? || piece.text == segments[0])
    requires end.Some? ==> p + [piece] <= end.value && Matches(end.value[|p| + 1..], segments[1..])
    ensures end.Some? ==> p <= end.value && Matches(end.value[|p|..], segments)
  {
    if end.Some? {
      var tail := end.value[|p|..];
      assert tail[0] == end.value[|p|] == piece;
      assert tail[1..] == end.value[|p| + 1..];
      forall i | 0 <= i < |tail| ensures tail[i].Param? || tail[i].text == segments[i] {
        if i > 0 {
          assert tail[i] == tail[1..][i - 1] && segments[i] == segments[1..][i - 1];
        }
      }
    }
  }

  /** Whatever the trie returns is a registered route that matches the path, and the first
      registered with its pattern. */
  lemma FoundMatches(routes: seq<Route>, verb: string, segments: seq<string>)
    ensures var f := Found(routes, verb, segments);
      f.Some? ==>
        && f.value < |routes| && routes[f.value].verb == verb && Matches(routes[f.value].pattern, segments)
        && (forall j | 0 <= j < f.value :: routes[j].verb != verb || routes[j].pattern != routes[f.value].pattern)
  {
    var end := Walk(routes, verb, [], segments);
    WalkMatches(routes, verb, [], segments);
    assert end.Some? ==> end.value[0..] == end.value;
  }

  /** On the way along `p`, from position `k` on, a static sibling takes the path away from a
      parameter of `p`. */
  ghost predicate Shadowed(routes: seq<Route>, verb: string, p: Pattern, segments: seq<string>, k: nat)
    requires |p| == |segments|
  {
    exists i :: k <= i < |p| && p[i].Param? && IsNode(routes, verb, p[..i] + [Lit(segments[i])])
  }

  lemma {:induction false} WalkFollows(routes: seq<Route>, verb: string, p: Pattern, segments: seq<string>, k: nat)
    requires k <= |p| && Matches(p, segments) && IsNode(routes, verb, p)
    ensures Walk(routes, verb, p[..k], segments[k..]) == Some(p) <==> !Shadowed(routes, verb, p, segments, k)
    decreases |p| - k
  {
    if k == |p| {
      assert p[..k] == p;
    } else {
      var here, rest := p[..k], segments[k..];
      assert rest[0] == segments[k] && rest[1..] == segments[k + 1..];
      assert p[..k + 1] == here + [p[k]];
      NodePrefix(routes, verb, p, k + 1);
      WalkFollows(routes, verb, p, segments, k + 1);
      if p[k].Param? && IsNode(routes, verb, here + [Lit(segments[k])]) {
        WalkMatches(routes, verb, here + [Lit(segments[k])], segments[k + 1..]);
        assert Walk(routes, verb, here, rest) == Walk(routes, verb, here + [Lit(segments[k])], segments[k + 1..]);
        WalkStays(routes, verb, here + [Lit(segments[k])], segments[k + 1..], p);
      } else {
        ShadowedFrom(routes, verb, p, segments, k);
        assert Walk(routes, verb, here, rest) == Walk(routes, verb, p[..k + 1], segments[k + 1..]);
      }
    }
  }

  lemma WalkStays(routes: seq<Route>, verb: string, q: Pattern, segments: seq<string>, p: Pattern)
    requires !(q <= p)
    ensures Walk(routes, verb, q, segments) != Some(p)
  {
    WalkMatches(routes, verb, q, segments);
  }

  lemma ShadowedFrom(routes: seq<Route>, verb: string, p: Pattern, segments: seq<string>, k: nat)
    requires k < |p| == |segments| && !(p[k].Param? && IsNode(routes, verb, p[..k] + [Lit(segments[k])]))
    ensures Shadowed(routes, verb, p, segments, k) <==> Shadowed(routes, verb, p, segments, k + 1)
  {
  }

  lemma NodePrefix(routes: seq<Route>, verb: string, p: Pattern, k: nat)
    requires IsNode(routes, verb, p) && k <= |p|
    ensures IsNode(routes, verb, p[..k])
  {
    var i :| 0 <= i < |routes| && routes[i].verb == verb && p <= routes[i].pattern;
    assert p[..k] <= routes[i].pattern;
  }

  lemma RouteIsNode(routes: seq<Route>, i: nat)
    requires i < |routes|
    ensures IsNode(routes, routes[i].verb, routes[i].pattern)
  {
  }

  /** The trie returns the first registered matching route exactly when no static sibling shadows
      a parameter on that route's way; with no matching route it returns nothing. */
  lemma TrieAgreesIff(routes: seq<Route>, verb: string, segments: seq<string>)
    ensures var first := FirstMatching(routes, verb, segments);
      Found(routes, verb, segments) == first
      <==> (first.Some? ==> !Shadowed(routes, verb, routes[first.value].pattern, segments, 0))
  {
    var first := FirstMatching(routes, verb, segments);
    FoundMatches(routes, verb, segments);
    if first.Some? {
      var p := routes[first.value].pattern;
      assert p <= p;
      NodePrefix(routes, verb, p, 0);
      WalkFollows(routes, verb, p, segments, 0);
      assert p[..0] == [] && segments[0..] == segments;
    }
  }

  /** No node has both a static child and a parameter child. */
  ghost predicate Unmixed(routes: seq<Route>) {
    forall verb, p, text :: IsNode(routes, verb, p + [Lit(text)]) ==> !IsNode(routes, verb, p + [Param])
  }

  lemma UnmixedNotShadowed(routes: seq<Route>, verb: string, p: Pattern, segments: seq<string>)
    requires Unmixed(routes) && IsNode(routes, verb, p) && |p| == |segments|
    ensures !Shadowed(routes, verb, p, segments, 0)
  {
    hide IsNode;
    forall i | 0 <= i < |p| && p[i].Param? ensures !IsNode(routes, verb, p[..i] + [Lit(segments[i])]) {
      assert p[..i] + [Param] == p[..i + 1];
      NodePrefix(routes, verb, p, i + 1);
    }
  }

  /** Without mixed nodes the trie is the linear scan, on every path. */
  lemma UnmixedTrieIsLinear(routes: seq<Route>, verb: string, segments: seq<string>)
    requires Unmixed(routes)
    ensures Found(routes, verb, segments) == FirstMatching(routes, verb, segments)
  {
    var first := FirstMatching(routes, verb, segments);
    TrieAgreesIff(routes, verb, segments);
    if first.Some? {
      RouteIsNode(routes, first.value);
      UnmixedNotShadowed(routes, verb, routes[first.value].pattern, segments);
    }
    hide *;
  }

  /** A later static route takes a path from an earlier parameter route. */
  lemma LaterStaticWins()
    ensures var routes := [Route("GET", [Param], 0), Route("GET", [Lit("a")], 1)];
      FirstMatching(routes, "GET", ["a"]) == Some(0) && Found(routes, "GET", ["a"]) == Some(1)
  {
    var routes, node := [Route("GET", [Param], 0), Route("GET", [Lit("a")], 1)], [] + [Lit("a")];
    assert Matches(routes[0].pattern, ["a"]);
    assert node == [Lit("a")] == routes[1].pattern && [] <= routes[0].pattern;
    assert IsNode(routes, "GET", []) && IsNode(routes, "GET", node);
    assert Walk(routes, "GET", node, ["a"][1..]) == Some(node);
  }

  /** A static sibling leaves a path unmatched that a parameter route matches: no backtracking. */
  lemma NoBacktracking()
    ensures var routes := [Route("GET", [Lit("a"), Lit("b")], 0), Route("GET", [Param, Lit("c")], 1)];
      FirstMatching(routes, "GET", ["a", "c"]) == Some(1) && Found(routes, "GET", ["a", "c"]) == None
  {
    var routes := [Route("GET", [Lit("a"), Lit("b")], 0), Route("GET", [Param, Lit("c")], 1)];
    var segments := ["a", "c"];
    assert "b"[0] != "c"[0];
    assert routes[0].pattern[1].text != segments[1];
    assert Matches(routes[1].pattern, segments) && !Matches(routes[0].pattern, segments);
    TrieAgreesIff(routes, "GET", segments);
    FoundMatches(routes, "GET", segments);
    assert routes[1].pattern[..0] + [Lit("a")] <= routes[0].pattern;
    assert Shadowed(routes, "GET", routes[1].pattern, segments, 0);
  }

  // ---- The linked nodes -----------------------------------------------------------------------------------

  /** A node of the trie. */
  class RouteNode {
    var children: map<string, RouteNode>
    var paramChild: RouteNode?
    var handler: Option<Handler>

    constructor ()
      ensures children == map[] && paramChild == null && handler == None
    {
      children, paramChild, handler := map[], null, None;
    }
  }

  /** Where a node sits: the verb of its tree and the pattern leading to it. */
  datatype Address = Address(verb: string, pattern: Pattern)

  lemma UnderInjective(a: Address, x: Piece, b: Address, y: Piece)
    ensures Under(a, x) == Under(b, y) <==> a == b && x == y
  {
    if Under(a, x) == Under(b, y) {
      assert a.pattern == Under(a, x).pattern[..|a.pattern|];
      assert b.pattern == Under(b, y).pattern[..|b.pattern|];
    }
  }

  ghost function Under(a: Address, piece: Piece): Address { a.(pattern := a.pattern + [piece]) }

  /** The outgoing links of one node. */
  datatype Links = Links(children: map<string, RouteNode>, paramChild: RouteNode?)

  type Nodes = map<Address, RouteNode>

  /** The links at `a` lead to the nodes one piece further, and to nothing else. */
  ghost predicate LeadsOn(nodes: Nodes, a: Address, l: Links) {
    && (forall text :: text in l.children <==> Under(a, Lit(text)) in nodes)
    && (forall text | text in l.children :: l.children[text] == nodes[Under(a, Lit(text))])
    && (l.paramChild != null <==> Under(a, Param) in nodes)
    && (l.paramChild != null ==> l.paramChild == nodes[Under(a, Param)])
  }

  /** The nodes form the trees they stand for, without sharing. */
  ghost predicate Trees(trees: map<string, RouteNode>, nodes: Nodes) {
    && (forall verb :: verb in trees <==> Address(verb, []) in nodes)
    && (forall verb | verb in trees :: trees[verb] == nodes[Address(verb, [])])
    && (forall a, b | a in nodes && b in nodes && a != b :: nodes[a] != nodes[b])
    && (forall a, piece :: Under(a, piece) in nodes ==> a in nodes)
  }

  ghost predicate AllLeadOn(nodes: Nodes, links: map<Address, Links>) {
    forall a | a in nodes :: a in links && LeadsOn(nodes, a, links[a])
  }

  ghost function Extended(l: Links, piece: Piece, child: RouteNode): Links {
    if piece.Param? then l.(paramChild := child) else l.(children := l.children[piece.text := child])
  }

  lemma ChildTrees(trees: map<string, RouteNode>, nodes: Nodes, a: Address, piece: Piece, child: RouteNode)
    requires Trees(trees, nodes) && a in nodes && child !in nodes.Values
    ensures Trees(trees, nodes[Under(a, piece) := child])
  {
    var c := Under(a, piece);
    forall b, p | Under(b, p) == c ensures b == a {
      UnderInjective(a, piece, b, p);
    }
  }

  lemma ChildLeadsOn(nodes: Nodes, links: map<Address, Links>, a: Address, piece: Piece, child: RouteNode, b: Address)
    requires AllLeadOn(nodes, links) && a in nodes && Under(a, piece) !in nodes && b in nodes
    ensures LeadsOn(nodes[Under(a, piece) := child], b, if b == a then Extended(links[a], piece, child) else links[b])
  {
    assert LeadsOn(nodes, b, links[b]);
    forall p ensures Under(b, p) == Under(a, piece) <==> b == a && p == piece {
      UnderInjective(b, p, a, piece);
    }
  }

  lemma LeafLeadsOn(nodes: Nodes, c: Address, child: RouteNode)
    requires c !in nodes && forall a, piece :: Under(a, piece) in nodes ==> a in nodes
    ensures LeadsOn(nodes[c := child], c, Links(map[], null))
  {
    forall p ensures Under(c, p) !in nodes[c := child] {
      assert |Under(c, p).pattern| != |c.pattern|;
    }
  }

  /** A new child under `a` keeps every node leading to the right nodes. */
  lemma ChildKeepsLinks(nodes: Nodes, links: map<Address, Links>, a: Address, piece: Piece, child: RouteNode)
    requires AllLeadOn(nodes, links) && a in nodes && Under(a, piece) !in nodes
    requires forall a, piece :: Under(a, piece) in nodes ==> a in nodes
    ensures AllLeadOn(nodes[Under(a, piece) := child],
                      links[a := Extended(links[a], piece, child)][Under(a, piece) := Links(map[], null)])
  {
    var c := Under(a, piece);
    var nodes', links' := nodes[c := child], links[a := Extended(links[a], piece, child)][c := Links(map[], null)];
    LeafLeadsOn(nodes, c, child);
    forall b | b in nodes' ensures LeadsOn(nodes', b, links'[b]) {
      if b != c {
        ChildLeadsOn(nodes, links, a, piece, child, b);
      }
    }
  }

  lemma RootTrees(trees: map<string, RouteNode>, nodes: Nodes, verb: string, root: RouteNode)
    requires Trees(trees, nodes) && root !in nodes.Values
    ensures Trees(trees[verb := root], nodes[Address(verb, []) := root])
  {
    var c: Address := Address(verb, []);
    forall b: Address, p ensures Under(b, p) != c {
      assert |Under(b, p).pattern| > 0;
    }
  }

  /** A new root does too. */
  lemma RootKeepsLinks(nodes: Nodes, links: map<Address, Links>, verb: string, root: RouteNode)
    requires AllLeadOn(nodes, links) && Address(verb, []) !in nodes
    requires forall a, piece :: Under(a, piece) in nodes ==> a in nodes
    ensures AllLeadOn(nodes[Address(verb, []) := root], links[Address(verb, []) := Links(map[], null)])
  {
    var c: Address := Address(verb, []);
    var nodes', links' := nodes[c := root], links[c := Links(map[], null)];
    LeafLeadsOn(nodes, c, root);
    forall b | b in nodes' ensures LeadsOn(nodes', b, links'[b]) {
      if b != c {
        RootLeadsOn(nodes, b, links[b], verb, root);
      }
    }
  }

  lemma RootLeadsOn(nodes: Nodes, b: Address, l: Links, verb: string, root: RouteNode)
    requires LeadsOn(nodes, b, l)
    ensures LeadsOn(nodes[Address(verb, []) := root], b, l)
  {
    forall p ensures Under(b, p) != Address(verb, []) {
      assert |Under(b, p).pattern| > 0;
    }
  }

  lemma ChildGrows(trees: map<string, RouteNode>, nodes: Nodes, links: map<Address, Links>, a: Address, piece: Piece,
                      child: RouteNode)
    requires Trees(trees, nodes) && AllLeadOn(nodes, links) && a in nodes && Under(a, piece) !in nodes
      && child !in nodes.Values
    ensures Trees(trees, nodes[Under(a, piece) := child])
    ensures AllLeadOn(nodes[Under(a, piece) := child],
                      links[a := Extended(links[a], piece, child)][Under(a, piece) := Links(map[], null)])
  {
    ChildTrees(trees, nodes, a, piece, child);
    ChildKeepsLinks(nodes, links, a, piece, child);
  }

  lemma RootGrows(trees: map<string, RouteNode>, nodes: Nodes, links: map<Address, Links>, verb: string,
                     root: RouteNode)
    requires Trees(trees, nodes) && AllLeadOn(nodes, links) && verb !in trees && root !in nodes.Values
    ensures Trees(trees[verb := root], nodes[Address(verb, []) := root])
    ensures AllLeadOn(nodes[Address(verb, []) := root], links[Address(verb, []) := Links(map[], null)])
  {
    RootTrees(trees, nodes, verb, root);
    RootKeepsLinks(nodes, links, verb, root);
  }

  /** The nodes that hold a handler. */
  ghost function Leaves(handlers: map<Address, Option<Handler>>): set<Address> {
    set a | a in handlers && handlers[a].Some?
  }

  ghost function HandlerOf(routes: seq<Route>, i: Option<nat>): Option<Handler>
    requires i.Some? ==> i.value < |routes|
  {
    if i.Some? then Some(routes[i.value].handler) else None
  }

  /** There is a node for every prefix of a registered pattern, and it holds the handler of the
      first route registered with exactly that pattern. */
  ghost predicate Holds(routes: seq<Route>, handlers: map<Address, Option<Handler>>) {
    && (forall a: Address :: a in handlers <==> IsNode(routes, a.verb, a.pattern))
    && (forall a: Address | a in handlers :: handlers[a] == HandlerOf(routes, FirstExact(routes, a.verb, a.pattern)))
  }

  /** `handlers` with empty nodes for the first `i` pieces of a pattern. */
  ghost predicate Grown(before: map<Address, Option<Handler>>, handlers: map<Address, Option<Handler>>, verb: string,
                        p: Pattern, i: nat) {
    && (forall a: Address :: a in handlers <==> a in before || (a.verb == verb && a.pattern <= p && |a.pattern| <= i))
    && (forall a: Address | a in handlers :: handlers[a] == if a in before then before[a] else None)
  }

  /** `handlers` with an empty node at `a`, unless there is one. */
  ghost function WithNode(handlers: map<Address, Option<Handler>>, a: Address): map<Address, Option<Handler>> {
    if a in handlers then handlers else handlers[a := None]
  }

  lemma GrownRoot(before: map<Address, Option<Handler>>, verb: string, p: Pattern)
    ensures Grown(before, WithNode(before, Address(verb, [])), verb, p, 0)
  {
  }

  lemma GrownNext(before: map<Address, Option<Handler>>, handlers: map<Address, Option<Handler>>, verb: string,
                  p: Pattern, i: nat)
    requires Grown(before, handlers, verb, p, i) && i < |p|
    ensures Grown(before, WithNode(handlers, Address(verb, p[..i + 1])), verb, p, i + 1)
  {
    forall q: Pattern ensures q <= p && |q| <= i + 1 <==> (q <= p && |q| <= i) || q == p[..i + 1] {
    }
  }

  lemma FirstIndexSnoc(routes: seq<Route>, r: Route, ok: Route -> bool)
    ensures FirstIndex(routes + [r], ok)
            == if FirstIndex(routes, ok).Some? then FirstIndex(routes, ok) else if ok(r) then Some(|routes|) else None
  {
    assert (routes + [r])[..|routes|] == routes;
  }

  lemma IsNodeSnoc(routes: seq<Route>, r: Route, verb: string, p: Pattern)
    ensures IsNode(routes + [r], verb, p) <==> IsNode(routes, verb, p) || (r.verb == verb && p <= r.pattern)
  {
    var routes' := routes + [r];
    if IsNode(routes, verb, p) {
      var i :| 0 <= i < |routes| && routes[i].verb == verb && p <= routes[i].pattern;
      assert routes'[i] == routes[i];
    }
    assert routes'[|routes|] == r;
  }

  /** The handler map after registering `r`: its node is filled if it was empty. */
  ghost function Filled(handlers: map<Address, Option<Handler>>, r: Route): map<Address, Option<Handler>>
    requires Address(r.verb, r.pattern) in handlers
  {
    var a := Address(r.verb, r.pattern);
    if handlers[a].None? then handlers[a := Some(r.handler)] else handlers
  }

  lemma PatternPieces(path: string)
    ensures |PatternOf(path)| == |Segments(path)|
    ensures forall i | 0 <= i < |PatternOf(path)| :: PatternOf(path)[i] == PieceOf(Segments(path)[i])
  {
  }

  lemma RegisterHolds(routes: seq<Route>, before: map<Address, Option<Handler>>,
                      handlers: map<Address, Option<Handler>>, r: Route)
    requires Holds(routes, before) && Grown(before, handlers, r.verb, r.pattern, |r.pattern|)
    ensures Address(r.verb, r.pattern) in handlers && Holds(routes + [r], Filled(handlers, r))
  {
    var here: Address := Address(r.verb, r.pattern);
    assert here.pattern <= r.pattern;
    forall a: Address
      ensures a in handlers <==> IsNode(routes + [r], a.verb, a.pattern)
      ensures a in handlers ==>
        Filled(handlers, r)[a] == HandlerOf(routes + [r], FirstExact(routes + [r], a.verb, a.pattern))
    {
      IsNodeSnoc(routes, r, a.verb, a.pattern);
      FirstIndexSnoc(routes, r, (x: Route) => x.verb == a.verb && x.pattern == a.pattern);
      NoExactWithoutNode(routes, a);
    }
  }

  lemma NoExactWithoutNode(routes: seq<Route>, a: Address)
    ensures FirstExact(routes, a.verb, a.pattern).Some? ==> IsNode(routes, a.verb, a.pattern)
  {
    var first := FirstExact(routes, a.verb, a.pattern);
    if first.Some? {
      RouteIsNode(routes, first.value);
    }
  }

  lemma RegisterCounts(before: map<Address, Option<Handler>>, handlers: map<Address, Option<Handler>>, r: Route)
    requires Grown(before, handlers, r.verb, r.pattern, |r.pattern|) && Address(r.verb, r.pattern) in handlers
    ensures |Leaves(Filled(handlers, r))|
            == |Leaves(before)| + if handlers[Address(r.verb, r.pattern)].None? then 1 else 0
  {
    var here: Address := Address(r.verb, r.pattern);
    assert Leaves(handlers) == Leaves(before);
    if handlers[here].None? {
      assert Leaves(Filled(handlers, r)) == Leaves(handlers) + {here};
    }
  }

  class HttpRouter {
    var trees: map<string, RouteNode>
    var size: nat
    ghost var routes: seq<Route>
    ghost var nodes: Nodes

    ghost function LinksOf(): map<Address, Links>
      reads this, nodes.Values
    {
      map a | a in nodes :: Links(nodes[a].children, nodes[a].paramChild)
    }

    ghost function Handlers(): map<Address, Option<Handler>>
      reads this, nodes.Values
    {
      map a | a in nodes :: nodes[a].handler
    }

    ghost predicate Linked()
      reads this, nodes.Values
    {
      Trees(trees, nodes) && AllLeadOn(nodes, LinksOf())
    }

    ghost predicate Valid()
      reads this, nodes.Values
    {
      Linked() && Holds(routes, Handlers()) && size == |Leaves(Handlers())|
    }

    constructor ()
      ensures Valid() && routes == [] && size == 0
    {
      trees, size, routes := map[], 0, [];
      nodes := map[];
    }

    /** What the links of the node at `a` lead to. */
    lemma Here(a: Address, piece: Piece)
      requires Linked() && a in nodes
      ensures Under(a, piece) != a && forall b | b in nodes && b != a :: nodes[b] != nodes[a]
      ensures var node, c := nodes[a], Under(a, piece);
        && (piece.Param? ==>
              (node.paramChild != null <==> c in nodes) && (node.paramChild != null ==> node.paramChild == nodes[c]))
        && (piece.Lit? ==> (piece.text in node.children <==> c in nodes))
        && (piece.Lit? && c in nodes ==> node.children[piece.text] == nodes[c])
    {
      assert LeadsOn(nodes, a, LinksOf()[a]);
      assert |Under(a, piece).pattern| != |a.pattern|;
    }

    lemma Apart(a: Address)
      requires Linked() && a in nodes
      ensures forall b | b in nodes && b != a :: nodes[b] != nodes[a]
    {
      Here(a, Param);
    }

    lemma Roots(verb: string)
      requires Linked()
      ensures verb in trees <==> Address(verb, []) in nodes
      ensures verb in trees ==> trees[verb] == nodes[Address(verb, [])]
    {
    }

    /** The root of a verb's tree, created on first use. */
    method RootOf(verb: string) returns (root: RouteNode)
      requires Linked()
      modifies this`trees, this`nodes
      ensures Linked() && nodes == old(nodes)[Address(verb, []) := root]
      ensures if Address(verb, []) in old(nodes) then root == old(nodes)[Address(verb, [])]
              else fresh(root) && root.handler == None
    {
      hide Trees, AllLeadOn;
      ghost var a := Address(verb, []);
      Roots(verb);
      if verb in trees {
        root := trees[verb];
        assert nodes == nodes[a := root];
      } else {
        root := new RouteNode();
        ghost var links := LinksOf();
        RootGrows(trees, nodes, links, verb, root);
        trees, nodes := trees[verb := root], nodes[a := root];
        assert LinksOf() == links[a := Links(map[], null)];
      }
    }

    /** Hangs a new node under `a` for a parameter. */
    method AttachParam(node: RouteNode, ghost a: Address) returns (child: RouteNode)
      requires Linked() && a in nodes && node == nodes[a] && Under(a, Param) !in nodes
      modifies this`nodes, node`paramChild
      ensures Linked() && nodes == old(nodes)[Under(a, Param) := child]
      ensures fresh(child) && child.handler == None
    {
      hide Trees, AllLeadOn, Under;
      Here(a, Param);
      ghost var c, links := Under(a, Param), LinksOf();
      child := new RouteNode();
      ChildGrows(trees, nodes, links, a, Param, child);
      node.paramChild := child;
      nodes := nodes[c := child];
      assert LinksOf() == links[a := Extended(links[a], Param, child)][c := Links(map[], null)];
    }

    /** Hangs a new node under `a` for a literal segment. */
    method AttachStatic(node: RouteNode, text: string, ghost a: Address) returns (child: RouteNode)
      requires Linked() && a in nodes && node == nodes[a] && Under(a, Lit(text)) !in nodes
      modifies this`nodes, node`children
      ensures Linked() && nodes == old(nodes)[Under(a, Lit(text)) := child]
      ensures fresh(child) && child.handler == None
    {
      hide Trees, AllLeadOn, Under;
      Here(a, Lit(text));
      ghost var c, links := Under(a, Lit(text)), LinksOf();
      child := new RouteNode();
      ChildGrows(trees, nodes, links, a, Lit(text), child);
      node.children := node.children[text := child];
      nodes := nodes[c := child];
      assert LinksOf() == links[a := Extended(links[a], Lit(text), child)][c := Links(map[], null)];
    }

    /** The node one segment further, created if it is missing. */
    method ChildOf(node: RouteNode, segment: string, ghost a: Address, ghost c: Address) returns (child: RouteNode)
      requires Linked() && a in nodes && node == nodes[a] && c == Under(a, PieceOf(segment))
      modifies this`nodes, node`children, node`paramChild
      ensures Linked() && nodes == old(nodes)[c := child]
      ensures if c in old(nodes) then child == old(nodes)[c] else fresh(child) && child.handler == None
    {
      Here(a, PieceOf(segment));
      hide Linked, Under;
      if segment != "" && segment[0] == ':' {
        if node.paramChild == null {
          child := AttachParam(node, a);
        } else {
          child := node.paramChild;
          assert nodes == nodes[c := child];
        }
      } else if segment !in node.children {
        child := AttachStatic(node, segment, a);
      } else {
        child := node.children[segment];
        assert nodes == nodes[c := child];
      }
    }

    /** The node at the end of a pattern, with any missing nodes on the way. */
    method NodeFor(verb: string, segments: seq<string>, ghost p: Pattern) returns (node: RouteNode)
      requires Linked() && |p| == |segments| && forall i | 0 <= i < |p| :: p[i] == PieceOf(segments[i])
      modifies this`trees, this`nodes, nodes.Values`children, nodes.Values`paramChild
      ensures Linked() && Grown(old(Handlers()), Handlers(), verb, p, |p|)
      ensures Address(verb, p) in nodes && node == nodes[Address(verb, p)]
      ensures fresh(nodes.Values - old(nodes.Values))
    {
      hide Linked, Grown;
      ghost var before := Handlers();
      GrownRoot(before, verb, p);
      node := RootOf(verb);
      assert Handlers() == WithNode(before, Address(verb, []));
      for i := 0 to |segments|
        invariant Linked() && Grown(before, Handlers(), verb, p, i)
        invariant Address(verb, p[..i]) in nodes && node == nodes[Address(verb, p[..i])]
        invariant fresh(nodes.Values - old(nodes.Values))
      {
        ghost var a, c := Address(verb, p[..i]), Address(verb, p[..i + 1]);
        ghost var handlers := Handlers();
        GrownNext(before, handlers, verb, p, i);
        assert p[..i + 1] == p[..i] + [p[i]];
        node := ChildOf(node, segments[i], a, c);
        assert Handlers() == WithNode(handlers, c);
      }
      assert p[..|p|] == p;
    }

    /** Puts the handler at its node unless there is one. */
    method Fill(node: RouteNode, r: Route)
      requires Linked() && Address(r.verb, r.pattern) in nodes && node == nodes[Address(r.verb, r.pattern)]
      requires Holds(routes + [r], Filled(Handlers(), r))
      requires |Leaves(Filled(Handlers(), r))| == size + if Handlers()[Address(r.verb, r.pattern)].None? then 1 else 0
      modifies this`size, this`routes, node`handler
      ensures Valid() && routes == old(routes) + [r]
    {
      hide Trees, AllLeadOn, Holds, Leaves;
      Apart(Address(r.verb, r.pattern));
      ghost var links, handlers := LinksOf(), Handlers();
      if node.handler.None? {
        node.handler := Some(r.handler);
        size := size + 1;
      }
      routes := routes + [r];
      assert LinksOf() == links;
      assert Handlers() == Filled(handlers, r);
    }

    /** Registers a route; the first handler of a pattern stays. */
    method Add(verb: string, path: string, handler: Handler) returns (ok: bool)
      requires Valid()
      modifies this, nodes.Values
      ensures Valid()
      ensures ok <==> path != "" && path[0] == '/'
      ensures routes == if ok then old(routes) + [Route(Upper(verb), PatternOf(path), handler)] else old(routes)
      ensures fresh(nodes.Values - old(nodes.Values))
    {
      hide Linked, Holds, Leaves, Grown, Segments, Filled, Upper, PatternOf, Handlers;
      if path == "" || path[0] != '/' {
        return false;
      }
      PatternPieces(path);
      var r := Route(Upper(verb), PatternOf(path), handler);
      ghost var before := Handlers();
      var node := NodeFor(r.verb, Segments(path), r.pattern);
      RegisterHolds(routes, before, Handlers(), r);
      RegisterCounts(before, Handlers(), r);
      Fill(node, r);
      ok := true;
    }

    /** The root of a verb's tree, if any route has that verb. */
    lemma Root(verb: string)
      requires Valid()
      ensures verb in trees <==> IsNode(routes, verb, [])
      ensures verb in trees ==> Address(verb, []) in nodes && trees[verb] == nodes[Address(verb, [])]
    {
      var root: Address := Address(verb, []);
      assert root in nodes <==> IsNode(routes, root.verb, root.pattern);
    }

    /** One link followed is one step of the walk. */
    lemma Turn(verb: string, at: Pattern, segment: string, rest: seq<string>)
      requires Valid() && Address(verb, at) in nodes
      ensures var node, end := nodes[Address(verb, at)], Walk(routes, verb, at, [segment] + rest);
        if segment in node.children then
          Address(verb, at + [Lit(segment)]) in nodes
            && node.children[segment] == nodes[Address(verb, at + [Lit(segment)])]
          && end == Walk(routes, verb, at + [Lit(segment)], rest)
        else if node.paramChild != null then
          Address(verb, at + [Param]) in nodes && node.paramChild == nodes[Address(verb, at + [Param])]
          && end == Walk(routes, verb, at + [Param], rest)
        else end == None
    {
      var a: Address := Address(verb, at);
      assert LeadsOn(nodes, a, LinksOf()[a]);
      var lit, param := Under(a, Lit(segment)), Under(a, Param);
      assert lit in nodes <==> IsNode(routes, lit.verb, lit.pattern);
      assert param in nodes <==> IsNode(routes, param.verb, param.pattern);
      assert ([segment] + rest)[1..] == rest;
    }

    /** The walk over the path has come to node `at` with the path's rest from `start` ahead. */
    ghost predicate OnWay(verb: string, path: string, at: Pattern, start: nat)
      reads this
    {
      && start <= |path| && Address(verb, at) in nodes
      && Walk(routes, verb, [], Segments(path)) == Walk(routes, verb, at, Segments(path[start..]))
    }

    ghost predicate Answers(verb: string, path: string, found: Option<Handler>)
      reads this
    {
      var f := Found(routes, verb, Segments(path));
      found == if f.Some? then Some(routes[f.value].handler) else None
    }

    lemma Depart(verb: string, path: string)
      requires Valid()
      ensures if verb in trees
        then OnWay(verb, path, [], 0) && trees[verb] == nodes[Address(verb, [])]
        else Answers(verb, path, None)
    {
      Root(verb);
      assert path[0..] == path;
    }

    lemma PassSlash(verb: string, path: string, at: Pattern, start: nat)
      requires OnWay(verb, path, at, start) && start < |path| && path[start] == '/'
      ensures OnWay(verb, path, at, start + 1)
    {
      SkipSlash(path, start);
    }

    lemma PassSegment(verb: string, path: string, at: Pattern, start: nat)
      requires Valid() && OnWay(verb, path, at, start) && start < |path| && path[start] != '/'
      ensures var node, end := nodes[Address(verb, at)], start + Cut(path[start..]);
        var segment, next := path[start..end], if end == |path| then end else end + 1;
        if segment in node.children then
          OnWay(verb, path, at + [Lit(segment)], next)
            && node.children[segment] == nodes[Address(verb, at + [Lit(segment)])]
        else if node.paramChild != null then
          OnWay(verb, path, at + [Param], next) && node.paramChild == nodes[Address(verb, at + [Param])]
        else Answers(verb, path, None)
    {
      NextSegment(path, start);
      var end := start + Cut(path[start..]);
      Turn(verb, at, path[start..end], Segments(path[if end == |path| then end else end + 1..]));
    }

    lemma HandlerAt(a: Address)
      requires Valid() && a in nodes
      ensures IsNode(routes, a.verb, a.pattern)
      ensures nodes[a].handler == HandlerOf(routes, FirstExact(routes, a.verb, a.pattern))
    {
      hide Linked, IsNode, FirstExact;
      assert a in Handlers();
    }

    /** The handler at the end of the walk is the found route's. */
    lemma Arrive(verb: string, path: string, at: Pattern)
      requires Valid() && OnWay(verb, path, at, |path|)
      ensures Answers(verb, path, nodes[Address(verb, at)].handler)
    {
      hide Valid, IsNode, FirstExact;
      HandlerAt(Address(verb, at));
      NodePrefix(routes, verb, at, 0);
      assert path[|path|..] == "";
    }

    /** Descends from the root along the segments of the path, at most one node per segment. */
    method Match(verb: string, path: string) returns (found: Option<Handler>)
      requires Valid()
      ensures Answers(verb, path, found)
    {
      hide Valid, OnWay, Answers;
      Depart(verb, path);
      if verb !in trees {
        return None;
      }
      var node := trees[verb];
      ghost var at: Pattern := [];
      var start := 0;
      while start < |path|
        invariant start <= |path| && OnWay(verb, path, at, start)
        invariant Address(verb, at) in nodes && node == nodes[Address(verb, at)]
      {
        if path[start] == '/' {
          PassSlash(verb, path, at, start);
          start := start + 1;
          continue;
        }
        PassSegment(verb, path, at, start);
        var end := start + Cut(path[start..]);
        var segment := path[start..end];
        if segment in node.children {
          node, at := node.children[segment], at + [Lit(segment)];
        } else if node.paramChild != null {
          node, at := node.paramChild, at + [Param];
        } else {
          return None;
        }
        start := if end == |path| then end else end + 1;
      }
      Arrive(verb, path, at);
      found := node.handler;
    }
  }

  lemma SkipSlash(path: string, start: nat)
    requires start < |path| && path[start] == '/'
    ensures Segments(path[start..]) == Segments(path[start + 1..])
  {
    assert path[start..][1..] == path[start + 1..];
  }

  lemma NextSegment(path: string, start: nat)
    requires start < |path| && path[start] != '/'
    ensures var end := start + Cut(path[start..]);
      && start < end <= |path|
      && Segments(path[start..]) == [path[start..end]] + Segments(path[if end == |path| then end else end + 1..])
  {
    hide *;
    var rest, n := path[start..], Cut(path[start..]);
    SegmentsUnfold(rest);
    assert rest[..n] == path[start..start + n] && rest[n..] == path[start + n..];
    if start + n < |path| {
      assert path[start + n] == rest[n];
      SkipSlash(path, start + n);
    }
  }
}
