/** The grounding enumerator: `apply_grounding`, `find_groundings`, `approximate_groundings`
    (questionanswering/construction/staged_generation.py) and the relation whitelist filters. */
module Grounding {

  import opened Options
  import opened Lists
  import opened Graphs

  // ---------------------------------------------------------------------------------------
  // apply_grounding
  // ---------------------------------------------------------------------------------------

  /** The value `apply_grounding` leaves on edge `i`: `e2{i}` sets the right-hand entity,
      `hop{i}v` the hop (up if the edge has a `hopUp` key, down otherwise), and the first of
      `r{i}d`, `r{i}r`, `r{i}v` present sets the relation and the edge type. */
  function GroundEdge(e: Edge, i: nat, gr: Grounding): Edge {
    var withEntity := if E2(i) in gr then e.(rightkbID := Some(gr[E2(i)])) else e;
    var withHop :=
      if Hop(i) !in gr then withEntity
      else if withEntity.hopUp.Present? then withEntity.(hopUp := Present(Some(gr[Hop(i)])))
      else withEntity.(hopDown := Present(Some(gr[Hop(i)])));
    if Rel(i, RoleDirect) in gr then withHop.(kbID := Some(gr[Rel(i, RoleDirect)]), edgeType := Some(Direct))
    else if Rel(i, RoleReverse) in gr then withHop.(kbID := Some(gr[Rel(i, RoleReverse)]), edgeType := Some(Reverse))
    else if Rel(i, RoleVStructure) in gr then withHop.(kbID := Some(gr[Rel(i, RoleVStructure)]), edgeType := Some(VStructure))
    else withHop
  }

  /** The graph `apply_grounding(g, gr)` returns. */
  function Grounded(g: Graph, gr: Grounding): Graph {
    Copy(g).(edgeSet := seq(|g.edgeSet|, i requires 0 <= i < |g.edgeSet| => GroundEdge(g.edgeSet[i], i, gr)))
  }

  /** `apply_grounding`: copies the graph and writes the grounding on the copy's edges, one
      edge at a time. */
  method ApplyGrounding(g: Graph, gr: Grounding) returns (grounded: Graph)
    ensures grounded == Grounded(g, gr)
  {
    grounded := Copy(g);
    var i := 0;
    while i < |grounded.edgeSet|
      invariant i <= |grounded.edgeSet| == |g.edgeSet|
      invariant grounded == Copy(g).(edgeSet := grounded.edgeSet)
      invariant forall j :: 0 <= j < i ==> grounded.edgeSet[j] == GroundEdge(g.edgeSet[j], j, gr)
      invariant forall j :: i <= j < |g.edgeSet| ==> grounded.edgeSet[j] == g.edgeSet[j]
    {
      var edge := grounded.edgeSet[i];
      if E2(i) in gr {
        edge := edge.(rightkbID := Some(gr[E2(i)]));
      }
      if Hop(i) in gr {
        if edge.hopUp.Present? {
          edge := edge.(hopUp := Present(Some(gr[Hop(i)])));
        } else {
          edge := edge.(hopDown := Present(Some(gr[Hop(i)])));
        }
      }
      if Rel(i, RoleDirect) in gr {
        edge := edge.(kbID := Some(gr[Rel(i, RoleDirect)]), edgeType := Some(Direct));
      } else if Rel(i, RoleReverse) in gr {
        edge := edge.(kbID := Some(gr[Rel(i, RoleReverse)]), edgeType := Some(Reverse));
      } else if Rel(i, RoleVStructure) in gr {
        edge := edge.(kbID := Some(gr[Rel(i, RoleVStructure)]), edgeType := Some(VStructure));
      }
      grounded := grounded.(edgeSet := grounded.edgeSet[i := edge]);
      i := i + 1;
    }
  }

  /** Some variable of the grounding names edge `i`. */
  predicate Mentions(gr: Grounding, i: nat) {
    E2(i) in gr || Hop(i) in gr || Rel(i, RoleDirect) in gr || Rel(i, RoleReverse) in gr ||
    Rel(i, RoleVStructure) in gr
  }

  /** What a grounding does to each edge: the relation key with the highest priority sets
      `kbID` and `type`, `e2{i}` sets `rightkbID`, `hop{i}v` sets `hopUp` if that key is present
      and `hopDown` otherwise; every other key of the edge, every unmentioned edge, the edge
      count, the tokens and the filter stay as they were, and the entities are dropped. */
  lemma GroundedEdges(g: Graph, gr: Grounding)
    ensures var r := Grounded(g, gr);
      |r.edgeSet| == |g.edgeSet| && r.entities == [] && r.tokens == g.tokens && r.filter == g.filter &&
      forall i :: 0 <= i < |g.edgeSet| ==>
        var e, f := g.edgeSet[i], r.edgeSet[i];
        (!Mentions(gr, i) ==> f == e) &&
        f.canonicalRight == e.canonicalRight &&
        (Rel(i, RoleDirect) in gr ==> f.edgeType == Some(Direct) && f.kbID == Some(gr[Rel(i, RoleDirect)])) &&
        (Rel(i, RoleDirect) !in gr && Rel(i, RoleReverse) in gr ==>
          f.edgeType == Some(Reverse) && f.kbID == Some(gr[Rel(i, RoleReverse)])) &&
        (Rel(i, RoleDirect) !in gr && Rel(i, RoleReverse) !in gr && Rel(i, RoleVStructure) in gr ==>
          f.edgeType == Some(VStructure) && f.kbID == Some(gr[Rel(i, RoleVStructure)])) &&
        (Rel(i, RoleDirect) !in gr && Rel(i, RoleReverse) !in gr && Rel(i, RoleVStructure) !in gr ==>
          f.edgeType == e.edgeType && f.kbID == e.kbID) &&
        f.rightkbID == (if E2(i) in gr then Some(gr[E2(i)]) else e.rightkbID) &&
        f.hopUp == (if Hop(i) in gr && e.hopUp.Present? then Present(Some(gr[Hop(i)])) else e.hopUp) &&
        f.hopDown == (if Hop(i) in gr && !e.hopUp.Present? then Present(Some(gr[Hop(i)])) else e.hopDown)
  {
  }

  /** The value a grounded edge list holds for a grounding variable: the inverse of
      `apply_grounding`. */
  function ReadKey(es: seq<Edge>, k: Key): Option<Id> {
    if k.i >= |es| then None
    else
      var e := es[k.i];
      match k
      case Rel(_, role) => if e.edgeType == Some(role.AsType()) then e.kbID else None
      case Hop(_) => if e.hopUp.Get().Some? then e.hopUp.Get() else e.hopDown.Get()
      case E2(_) => e.rightkbID
  }

  /** Every variable name that can refer to one of the first `n` edges. */
  function KeysBelow(n: nat): set<Key> {
    (set i | 0 <= i < n :: Rel(i, RoleDirect)) + (set i | 0 <= i < n :: Rel(i, RoleReverse)) +
    (set i | 0 <= i < n :: Rel(i, RoleVStructure)) + (set i | 0 <= i < n :: Hop(i)) +
    (set i | 0 <= i < n :: E2(i))
  }

  /** The grounding that a grounded edge list encodes. */
  function ReadGrounding(es: seq<Edge>): Grounding {
    map k | k in KeysBelow(|es|) && ReadKey(es, k).Some? :: ReadKey(es, k).value
  }

  /** An edge that `apply_grounding` has not touched yet: no relation, type, entity or hop value. */
  predicate IsSkeletonEdge(e: Edge) {
    e.edgeType.None? && e.kbID.None? && e.rightkbID.None? && e.hopUp.Get().None? && e.hopDown.Get().None?
  }

  /** A grounding as the knowledge base produces it for `n` edges: every variable names an
      existing edge, and at most one relation variable per edge. */
  ghost predicate WellFormed(gr: Grounding, n: nat) {
    (forall k :: k in gr ==> k.i < n) &&
    (forall i, r1, r2 :: Rel(i, r1) in gr && Rel(i, r2) in gr ==> r1 == r2)
  }

  /** Reading one variable back from a grounded skeleton gives the grounding's value for it. */
  lemma ReadKeyGrounded(g: Graph, gr: Grounding, k: Key)
    requires forall i :: 0 <= i < |g.edgeSet| ==> IsSkeletonEdge(g.edgeSet[i])
    requires WellFormed(gr, |g.edgeSet|)
    requires k.i < |g.edgeSet|
    ensures ReadKey(Grounded(g, gr).edgeSet, k) == if k in gr then Some(gr[k]) else None
  {
    var es := Grounded(g, gr).edgeSet;
    var e, f := g.edgeSet[k.i], es[k.i];
    assert f == GroundEdge(e, k.i, gr);
    assert IsSkeletonEdge(e);
    match k
    case Rel(i, role) =>
      if k in gr {
        assert Rel(i, RoleDirect) in gr ==> role == RoleDirect;
        assert Rel(i, RoleReverse) in gr ==> role == RoleReverse;
      }
    case Hop(i) =>
    case E2(i) =>
  }

  lemma KeysBelowMember(n: nat, k: Key)
    ensures k in KeysBelow(n) <==> k.i < n
  {
    if k.i < n {
      match k
      case Rel(i, role) => {
        match role
        case RoleDirect => assert k in (set j | 0 <= j < n :: Rel(j, RoleDirect));
        case RoleReverse => assert k in (set j | 0 <= j < n :: Rel(j, RoleReverse));
        case RoleVStructure => assert k in (set j | 0 <= j < n :: Rel(j, RoleVStructure));
      }
      case Hop(i) => assert k in (set j | 0 <= j < n :: Hop(j));
      case E2(i) => assert k in (set j | 0 <= j < n :: E2(j));
    }
  }

  /** Round trip: applying a well-formed grounding to a skeleton and reading the edges' `type`,
      `kbID`, `rightkbID` and hops back gives exactly the grounding. */
  lemma GroundingRoundTrip(g: Graph, gr: Grounding)
    requires forall i :: 0 <= i < |g.edgeSet| ==> IsSkeletonEdge(g.edgeSet[i])
    requires WellFormed(gr, |g.edgeSet|)
    ensures ReadGrounding(Grounded(g, gr).edgeSet) == gr
  {
    var es := Grounded(g, gr).edgeSet;
    var m := ReadGrounding(es);
    forall k | k in gr ensures k in m && m[k] == gr[k] {
      KeysBelowMember(|es|, k);
      ReadKeyGrounded(g, gr, k);
    }
    forall k | k in m ensures k in gr {
      KeysBelowMember(|es|, k);
      ReadKeyGrounded(g, gr, k);
    }
  }

  /** The doctests of `apply_grounding`. */
  lemma ApplyGroundingExamples()
    ensures Grounded(Graph([EmptyEdge], [], [], None), map[Rel(0, RoleDirect) := "P31v"])
         == Graph([EmptyEdge.(edgeType := Some(Direct), kbID := Some("P31v"))], [], [], None)
    ensures Grounded(Graph([EmptyEdge.(hopUp := Present(None))], [], [], None),
                     map[Rel(0, RoleVStructure) := "P31v", Hop(0) := "P131v"])
         == Graph([EmptyEdge.(edgeType := Some(VStructure), kbID := Some("P31v"), hopUp := Slot<Id>.Present(Some("P131v")))], [], [], None)
    ensures Grounded(Graph([EmptyEdge, EmptyEdge], [], [], None),
                     map[Rel(1, RoleDirect) := "P39v", Rel(0, RoleVStructure) := "P31v", E2(0) := "Q18"])
         == Graph([EmptyEdge.(edgeType := Some(VStructure), kbID := Some("P31v"), rightkbID := Some("Q18")),
                   EmptyEdge.(edgeType := Some(Direct), kbID := Some("P39v"))], [], [], None)
    ensures Grounded(Graph([EmptyEdge], [], [], None), map[Rel(0, RoleVStructure) := "P31v"])
         == Graph([EmptyEdge.(edgeType := Some(VStructure), kbID := Some("P31v"))], [], [], None)
    ensures var done := EmptyEdge.(edgeType := Some(VStructure), kbID := Some("P31v"), hopUp := Slot<Id>.Present(Some("P131v")));
      Grounded(Graph([done], [], [], None), map[]) == Graph([done], [], [], None)
    ensures Grounded(Graph([], [], [], None), map[]) == Graph([], [], [], None)
  {
  }

  // ---------------------------------------------------------------------------------------
  // find_groundings
  // ---------------------------------------------------------------------------------------

  /** `itertools.product(*[['direct', 'reverse']] * k)`. */
  function TypeCombos(k: nat): seq<seq<EdgeType>> {
    Product(seq(k, _ => [Direct, Reverse]))
  }

  lemma {:induction false} TypeCombosUnfold(k: nat)
    requires k > 0
    ensures TypeCombos(k) == PrependEach([Direct, Reverse], TypeCombos(k - 1))
  {
    assert seq(k, _ => [Direct, Reverse])[1..] == seq(k - 1, _ => [Direct, Reverse]);
  }

  lemma {:induction false} TypeCombosCount(k: nat)
    ensures |TypeCombos(k)| == Pow2(k)
  {
    if k > 0 {
      TypeCombosCount(k - 1);
      TypeCombosUnfold(k);
    }
  }

  /** There are `2 ** k` combinations; those of `k + 1` free edges are, in order, the
      combinations of the last `k` with the first edge direct, then the same with it reversed. */
  lemma TypeCombosOrder(k: nat)
    ensures |TypeCombos(k)| == Pow2(k)
    ensures |TypeCombos(k + 1)| == 2 * |TypeCombos(k)|
    ensures forall j :: 0 <= j < |TypeCombos(k)| ==>
      TypeCombos(k + 1)[j] == [Direct] + TypeCombos(k)[j] &&
      TypeCombos(k + 1)[|TypeCombos(k)| + j] == [Reverse] + TypeCombos(k)[j]
  {
    TypeCombosCount(k);
    TypeCombosCount(k + 1);
    TypeCombosUnfold(k + 1);
    var ps := TypeCombos(k);
    var rest := PrependEach([Reverse], ps);
    assert PrependEach([Direct, Reverse], ps) == seq(|ps|, j requires 0 <= j < |ps| => [Direct] + ps[j]) + rest;
    assert rest == seq(|ps|, j requires 0 <= j < |ps| => [Reverse] + ps[j]) + PrependEach([], ps);
  }

  /** A combination is produced exactly when it is `k` long and holds only `direct`/`reverse`. */
  lemma TypeCombosMember(k: nat, c: seq<EdgeType>)
    ensures c in TypeCombos(k) <==> |c| == k && forall i :: 0 <= i < k ==> c[i] == Direct || c[i] == Reverse
  {
    var ls := seq(k, _ => [Direct, Reverse]);
    ProductMember(ls, c);
    if |c| == k {
      forall i | 0 <= i < k ensures c[i] in ls[i] <==> c[i] == Direct || c[i] == Reverse {
        assert ls[i] == [Direct, Reverse];
      }
    }
  }

  /** Writes the types of `combo`, in order, on the free edges of `es`. */
  function TagFree(es: seq<Edge>, combo: seq<EdgeType>): seq<Edge> {
    if es == [] then []
    else if es[0].IsFree() && combo != [] then [es[0].(edgeType := Some(combo[0]))] + TagFree(es[1..], combo[1..])
    else [es[0]] + TagFree(es[1..], combo)
  }

  /** Tagging keeps the edge count, leaves the grounded edges alone, and gives the free edge
      with `m` free edges before it the `m`-th type of the combination. */
  lemma {:induction false} TagFreeAt(es: seq<Edge>, combo: seq<EdgeType>)
    requires |combo| == |FreeEdges(es)|
    ensures |TagFree(es, combo)| == |es|
    ensures forall i :: 0 <= i < |es| && !es[i].IsFree() ==> TagFree(es, combo)[i] == es[i]
    ensures forall i :: 0 <= i < |es| && es[i].IsFree() ==>
      |FreeEdges(es[..i])| < |combo| &&
      TagFree(es, combo)[i] == es[i].(edgeType := Some(combo[|FreeEdges(es[..i])|]))
  {
    TagFreeLength(es, combo);
    forall i | 0 <= i < |es|
      ensures !es[i].IsFree() ==> TagFree(es, combo)[i] == es[i]
      ensures es[i].IsFree() ==>
        |FreeEdges(es[..i])| < |combo| && TagFree(es, combo)[i] == es[i].(edgeType := Some(combo[|FreeEdges(es[..i])|]))
    {
      TagFreeIndex(es, combo, i);
    }
  }

  /** What tagging does at position `i` of `es`. */
  predicate TagFreeIndexFacts(es: seq<Edge>, combo: seq<EdgeType>, i: nat)
    requires i < |es| && |TagFree(es, combo)| == |es|
  {
    (!es[i].IsFree() ==> TagFree(es, combo)[i] == es[i]) &&
    (es[i].IsFree() ==>
       |FreeEdges(es[..i])| < |combo| &&
       TagFree(es, combo)[i] == es[i].(edgeType := Some(combo[|FreeEdges(es[..i])|])))
  }

  lemma {:induction false} TagFreeLength(es: seq<Edge>, combo: seq<EdgeType>)
    ensures |TagFree(es, combo)| == |es|
  {
    if es != [] {
      TagFreeLength(es[1..], if es[0].IsFree() && combo != [] then combo[1..] else combo);
    }
  }

  lemma {:induction false} TagFreeIndex(es: seq<Edge>, combo: seq<EdgeType>, i: nat)
    requires |combo| == |FreeEdges(es)| && i < |es|
    ensures |TagFree(es, combo)| == |es| && TagFreeIndexFacts(es, combo, i)
  {
    TagFreeLength(es, combo);
    assert es == [es[0]] + es[1..];
    FreeEdgesAppend([es[0]], es[1..]);
    assert FreeEdges([es[0]]) == if es[0].IsFree() then [es[0]] else [] by {
      assert [es[0]][1..] == [];
    }
    if i == 0 {
      assert es[..0] == [];
    } else {
      var rest := if es[0].IsFree() then combo[1..] else combo;
      TagFreeIndex(es[1..], rest, i - 1);
      assert es[..i] == [es[0]] + es[1..][..i - 1];
      FreeEdgesAppend([es[0]], es[1..][..i - 1]);
      assert TagFree(es, combo)[i] == TagFree(es[1..], rest)[i - 1];
    }
  }

  lemma {:induction false} FreeEdgesAppend(a: seq<Edge>, b: seq<Edge>)
    ensures FreeEdges(a + b) == FreeEdges(a) + FreeEdges(b)
  {
    if a == [] {
      assert a + b == b;
    } else {
      assert (a + b)[1..] == a[1..] + b;
      FreeEdgesAppend(a[1..], b);
    }
  }

  /** The inner loop of `find_groundings`: tags the free edges of a copy, one at a time. */
  method TagFreeEdges(es: seq<Edge>, combo: seq<EdgeType>) returns (tagged: seq<Edge>)
    ensures tagged == TagFree(es, combo)
  {
    tagged := [];
    var i, c := 0, 0;
    while i < |es|
      invariant i <= |es| && c <= |combo|
      invariant tagged + TagFree(es[i..], combo[c..]) == TagFree(es, combo)
    {
      assert es[i..][1..] == es[i + 1..];
      if es[i].IsFree() && c < |combo| {
        assert combo[c..][1..] == combo[c + 1..];
        tagged := tagged + [es[i].(edgeType := Some(combo[c]))];
        c := c + 1;
      } else {
        tagged := tagged + [es[i]];
      }
      i := i + 1;
    }
  }

  /** Some free edge carries a hop key. */
  predicate HopOnFree(es: seq<Edge>) {
    exists e :: e in FreeEdges(es) && e.HasHop()
  }

  /** A copy of `g` whose free edges carry the types of `combo`. */
  function Tagged(g: Graph, combo: seq<EdgeType>): Graph {
    Copy(g).(edgeSet := TagFree(g.edgeSet, combo))
  }

  /** The graphs `find_groundings` hands to the knowledge base, in call order: `g` itself when
      no free edge has a hop, else one tagged copy per type combination; then, with a marker
      word in the question and exactly one free edge, a copy whose free edge is a v-structure. */
  function QueriedGraphs(markers: set<string>, g: Graph): seq<Graph> {
    var k := |FreeEdges(g.edgeSet)|;
    var combos := TypeCombos(k);
    (if !HopOnFree(g.edgeSet) then [g] else seq(|combos|, j requires 0 <= j < |combos| => Tagged(g, combos[j]))) +
    (if HasMarker(markers, g.tokens) && k == 1 then [Tagged(g, [VStructure])] else [])
  }

  /** The concatenated results of querying each graph. */
  function QueryAll(env: Env, gs: seq<Graph>): seq<Grounding> {
    if gs == [] then [] else env.queryGroundings(gs[0]) + QueryAll(env, gs[1..])
  }

  lemma {:induction false} QueryAllAppend(env: Env, a: seq<Graph>, b: seq<Graph>)
    ensures QueryAll(env, a + b) == QueryAll(env, a) + QueryAll(env, b)
  {
    if a == [] {
      assert a + b == b;
    } else {
      assert (a + b)[1..] == a[1..] + b;
      QueryAllAppend(env, a[1..], b);
    }
  }

  /** The groundings `find_groundings(g)` returns. */
  function FoundGroundings(env: Env, g: Graph): seq<Grounding> {
    QueryAll(env, QueriedGraphs(env.markers, g))
  }

  /** `find_groundings`. */
  method FindGroundings(env: Env, g: Graph) returns (results: seq<Grounding>)
    ensures results == FoundGroundings(env, g)
  {
    results := [];
    var k := |FreeEdges(g.edgeSet)|;
    var combos := TypeCombos(k);
    ghost var queried: seq<Graph>;
    if !HopOnFree(g.edgeSet) {
      results := results + env.queryGroundings(g);
      queried := [g];
      assert results == QueryAll(env, queried);
    } else {
      var j := 0;
      while j < |combos|
        invariant j <= |combos|
        invariant results == QueryAll(env, seq(j, m requires 0 <= m < j => Tagged(g, combos[m])))
      {
        var t := Copy(g);
        var tagged := TagFreeEdges(t.edgeSet, combos[j]);
        var prefix := seq(j, m requires 0 <= m < j => Tagged(g, combos[m]));
        assert seq(j + 1, m requires 0 <= m < j + 1 => Tagged(g, combos[m])) == prefix + [Tagged(g, combos[j])];
        QueryAllAppend(env, prefix, [Tagged(g, combos[j])]);
        results := results + env.queryGroundings(t.(edgeSet := tagged));
        j := j + 1;
      }
      queried := seq(|combos|, m requires 0 <= m < |combos| => Tagged(g, combos[m]));
      assert queried == seq(j, m requires 0 <= m < j => Tagged(g, combos[m]));
    }
    if HasMarker(env.markers, g.tokens) && k == 1 {
      var t := Copy(g);
      var tagged := TagFreeEdges(t.edgeSet, [VStructure]);
      QueryAllAppend(env, queried, [Tagged(g, [VStructure])]);
      results := results + env.queryGroundings(t.(edgeSet := tagged));
      queried := queried + [Tagged(g, [VStructure])];
    }
    assert queried == QueriedGraphs(env.markers, g);
  }

  /** How many queries `find_groundings` makes and on what: one on `g` itself when no free edge
      has a hop, otherwise `2 ** k` on copies whose free edges carry the `j`-th combination of
      `itertools.product` order and whose grounded edges are untouched; one more on a
      v-structure copy exactly when a marker word is present and one edge is free. */
  lemma FindGroundingsQueries(markers: set<string>, g: Graph)
    ensures var q := QueriedGraphs(markers, g);
      var k := |FreeEdges(g.edgeSet)|;
      var extra := HasMarker(markers, g.tokens) && k == 1;
      |q| == (if HopOnFree(g.edgeSet) then Pow2(k) else 1) + (if extra then 1 else 0) &&
      (!HopOnFree(g.edgeSet) ==> q[0] == g) &&
      (HopOnFree(g.edgeSet) ==> forall j :: 0 <= j < Pow2(k) ==>
        q[j] == Copy(g).(edgeSet := TagFree(g.edgeSet, TypeCombos(k)[j])) &&
        |q[j].edgeSet| == |g.edgeSet| &&
        forall i :: 0 <= i < |g.edgeSet| && !g.edgeSet[i].IsFree() ==> q[j].edgeSet[i] == g.edgeSet[i]) &&
      (extra ==> q[|q| - 1] == Copy(g).(edgeSet := TagFree(g.edgeSet, [VStructure])))
  {
    var k := |FreeEdges(g.edgeSet)|;
    TypeCombosCount(k);
    if HopOnFree(g.edgeSet) {
      forall j | 0 <= j < Pow2(k)
        ensures |TagFree(g.edgeSet, TypeCombos(k)[j])| == |g.edgeSet|
        ensures forall i :: 0 <= i < |g.edgeSet| && !g.edgeSet[i].IsFree() ==> TagFree(g.edgeSet, TypeCombos(k)[j])[i] == g.edgeSet[i]
      {
        TypeCombosMember(k, TypeCombos(k)[j]);
        TagFreeAt(g.edgeSet, TypeCombos(k)[j]);
      }
    }
  }

  /** `find_groundings` returns the results of its queries concatenated in call order. */
  lemma FindGroundingsConcat(env: Env, g: Graph)
    ensures var q := QueriedGraphs(env.markers, g);
      |q| > 0 && FoundGroundings(env, g) == env.queryGroundings(q[0]) + QueryAll(env, q[1..])
  {
    FindGroundingsQueries(env.markers, g);
    var k := |FreeEdges(g.edgeSet)|;
    assert Pow2(k) > 0 by { Pow2Positive(k); }
  }

  lemma {:induction false} Pow2Positive(k: nat)
    ensures Pow2(k) > 0
  {
    if k > 0 {
      Pow2Positive(k - 1);
    }
  }

  // ---------------------------------------------------------------------------------------
  // approximate_groundings
  // ---------------------------------------------------------------------------------------

  /** The edges of grounded one-edge graphs that have a `kbID` whose base is whitelisted. */
  function WhitelistedFirstEdges(whitelist: set<string>, gs: seq<Graph>): (r: seq<Edge>)
    ensures forall i :: 0 <= i < |r| ==> r[i].kbID.Some? && BaseOf(r[i].kbID.value) in whitelist
    ensures |r| <= |gs|
  {
    if gs == [] then []
    else
      var h := gs[0];
      (if |h.edgeSet| > 0 && h.edgeSet[0].kbID.Some? && BaseOf(h.edgeSet[0].kbID.value) in whitelist
       then [h.edgeSet[0]] else []) + WhitelistedFirstEdges(whitelist, gs[1..])
  }

  /** `[apply_grounding(t, p) for p in ps]`. */
  function GroundEach(t: Graph, ps: seq<Grounding>): (r: seq<Graph>)
    ensures |r| == |ps|
  {
    seq(|ps|, i requires 0 <= i < |ps| => Grounded(t, ps[i]))
  }

  /** The candidate edges `approximate_groundings` collects for one edge: the whitelisted
      groundings of the edge alone for a free edge, the edge itself for a grounded one. */
  function EdgeOptions(env: Env, e: Edge): seq<Edge> {
    if e.IsFree() then
      var t := Graph([e], [], [], None);
      WhitelistedFirstEdges(env.whitelist, GroundEach(t, env.queryGroundings(t)))
    else [e]
  }

  /** The list of per-edge candidate lists. */
  function CandidateLists(env: Env, es: seq<Edge>): (r: seq<seq<Edge>>)
    ensures |r| == |es|
  {
    seq(|es|, i requires 0 <= i < |es| => EdgeOptions(env, es[i]))
  }

  /** The graphs `approximate_groundings(g)` returns. */
  function Approximated(env: Env, g: Graph): seq<Graph> {
    var combos := Product(CandidateLists(env, g.edgeSet));
    seq(|combos|, j requires 0 <= j < |combos| => Copy(g).(edgeSet := combos[j]))
  }

  /** `approximate_groundings`. */
  method ApproximateGroundings(env: Env, g: Graph) returns (groundings: seq<Graph>)
    ensures groundings == Approximated(env, g)
  {
    var separate: seq<seq<Edge>> := [];
    var i := 0;
    while i < |g.edgeSet|
      invariant i <= |g.edgeSet|
      invariant separate == CandidateLists(env, g.edgeSet)[..i]
    {
      var edge := g.edgeSet[i];
      if edge.IsFree() {
        var t := Graph([edge], [], [], None);
        var edgeGroundings := GroundEach(t, env.queryGroundings(t));
        separate := separate + [WhitelistedFirstEdges(env.whitelist, edgeGroundings)];
      } else {
        separate := separate + [[edge]];
      }
      i := i + 1;
    }
    assert separate == CandidateLists(env, g.edgeSet);
    var combos := Product(separate);
    groundings := [];
    var j := 0;
    while j < |combos|
      invariant j <= |combos|
      invariant groundings == seq(j, m requires 0 <= m < j => Copy(g).(edgeSet := combos[m]))
    {
      var newG := Copy(g);
      newG := newG.(edgeSet := combos[j]);
      groundings := groundings + [newG];
      j := j + 1;
    }
  }

  /** The number of results is the product of the per-edge candidate counts (a grounded edge
      counts once). */
  lemma ApproximatedCount(env: Env, g: Graph)
    ensures |Approximated(env, g)| == LengthProduct(CandidateLists(env, g.edgeSet))
    ensures forall i :: 0 <= i < |g.edgeSet| && !g.edgeSet[i].IsFree() ==> |CandidateLists(env, g.edgeSet)[i]| == 1
  {
  }

  /** The results are exactly the copies of `g` that pick, edge by edge, one candidate: every
      result keeps the edge count, keeps each grounded edge at its position, and has on each free
      position an edge whose `kbID` base is whitelisted. */
  lemma ApproximatedMember(env: Env, g: Graph, r: Graph)
    ensures r in Approximated(env, g) <==>
      r == Copy(g).(edgeSet := r.edgeSet) && |r.edgeSet| == |g.edgeSet| &&
      forall i :: 0 <= i < |g.edgeSet| ==> r.edgeSet[i] in EdgeOptions(env, g.edgeSet[i])
    ensures r in Approximated(env, g) ==>
      forall i :: 0 <= i < |g.edgeSet| ==>
        (!g.edgeSet[i].IsFree() ==> r.edgeSet[i] == g.edgeSet[i]) &&
        (g.edgeSet[i].IsFree() ==> r.edgeSet[i].kbID.Some? && BaseOf(r.edgeSet[i].kbID.value) in env.whitelist)
  {
    var ls := CandidateLists(env, g.edgeSet);
    var combos := Product(ls);
    ProductMember(ls, r.edgeSet);
    if r in Approximated(env, g) {
      var j :| 0 <= j < |combos| && r == Copy(g).(edgeSet := combos[j]);
      assert r.edgeSet in combos;
      forall i | 0 <= i < |g.edgeSet| && g.edgeSet[i].IsFree()
        ensures r.edgeSet[i].kbID.Some? && BaseOf(r.edgeSet[i].kbID.value) in env.whitelist
      {
        var cands := EdgeOptions(env, g.edgeSet[i]);
        assert r.edgeSet[i] in cands;
        var m :| 0 <= m < |cands| && cands[m] == r.edgeSet[i];
      }
    }
    if r == Copy(g).(edgeSet := r.edgeSet) && |r.edgeSet| == |g.edgeSet| &&
       forall i :: 0 <= i < |g.edgeSet| ==> r.edgeSet[i] in EdgeOptions(env, g.edgeSet[i])
    {
      assert r.edgeSet in combos;
      var j :| 0 <= j < |combos| && combos[j] == r.edgeSet;
      assert Approximated(env, g)[j] == r;
    }
  }

  // ---------------------------------------------------------------------------------------
  // The relation whitelist filters
  // ---------------------------------------------------------------------------------------

  /** One edge's test in the whitelist filters: `e.get("kbID")[:-1] in whitelist`, which
      raises (`None`) on an edge without `kbID`; with `exempt`, a `time` or `v-structure` edge
      passes without looking at its `kbID`. */
  function EdgeCheck(whitelist: set<string>, exempt: bool, e: Edge): Option<bool> {
    if exempt && (e.edgeType == Some(Time) || e.edgeType == Some(VStructure)) then Some(true)
    else if e.kbID.None? then None
    else Some(BaseOf(e.kbID.value) in whitelist)
  }

  /** `all(...)` over the edges: stops at the first edge that fails, raises at the first edge
      that raises before that. */
  function AllEdgesCheck(whitelist: set<string>, exempt: bool, es: seq<Edge>): Option<bool> {
    if es == [] then Some(true)
    else match EdgeCheck(whitelist, exempt, es[0])
      case None => None
      case Some(false) => Some(false)
      case Some(true) => AllEdgesCheck(whitelist, exempt, es[1..])
  }

  /** Every edge passes: its `kbID` base is whitelisted (or, with `exempt`, it is a `time` or
      `v-structure` edge). */
  predicate Whitelisted(whitelist: set<string>, exempt: bool, g: Graph) {
    forall e :: e in g.edgeSet ==>
      (exempt && (e.edgeType == Some(Time) || e.edgeType == Some(VStructure))) ||
      (e.kbID.Some? && BaseOf(e.kbID.value) in whitelist)
  }

  /** The list comprehension of the filter: raises (`None`) as soon as one graph's test raises. */
  function WhitelistFilter(whitelist: set<string>, exempt: bool, gs: seq<Graph>): (r: Option<seq<Graph>>)
    ensures r.Some? ==> |r.value| <= |gs| && forall g :: g in r.value ==> g in gs
    ensures r.None? <==> exists i :: 0 <= i < |gs| && AllEdgesCheck(whitelist, exempt, gs[i].edgeSet).None?
  {
    if gs == [] then Some([])
    else match AllEdgesCheck(whitelist, exempt, gs[0].edgeSet)
      case None => None
      case Some(keep) =>
        match WhitelistFilter(whitelist, exempt, gs[1..])
        case None => None
        case Some(rest) => Some((if keep then [gs[0]] else []) + rest)
  }

  lemma {:induction false} AllEdgesCheckSound(whitelist: set<string>, exempt: bool, es: seq<Edge>)
    ensures AllEdgesCheck(whitelist, exempt, es) == Some(true) <==> Whitelisted(whitelist, exempt, Graph(es, [], [], None))
    ensures (forall e :: e in es ==> e.kbID.Some?) ==> AllEdgesCheck(whitelist, exempt, es).Some?
  {
    if es != [] {
      AllEdgesCheckSound(whitelist, exempt, es[1..]);
      assert forall e :: e in es <==> e == es[0] || e in es[1..];
    }
  }

  /** The whitelist filter (ground_without_gold with `exempt` false, ground_with_model with
      `exempt` true) keeps, in order, exactly the graphs whose every edge passes, and it can
      only raise on an edge without `kbID`. */
  lemma {:induction false} WhitelistFilterSound(whitelist: set<string>, exempt: bool, gs: seq<Graph>)
    ensures var r := WhitelistFilter(whitelist, exempt, gs);
      (r.Some? ==> r.value == Filter(g => Whitelisted(whitelist, exempt, g), gs)) &&
      ((forall g, e :: g in gs && e in g.edgeSet ==> e.kbID.Some?) ==> r.Some?)
  {
    if gs != [] {
      WhitelistFilterSound(whitelist, exempt, gs[1..]);
      AllEdgesCheckSound(whitelist, exempt, gs[0].edgeSet);
      assert Whitelisted(whitelist, exempt, Graph(gs[0].edgeSet, [], [], None)) == Whitelisted(whitelist, exempt, gs[0]);
    }
  }

  /** `del g['entities']` on every graph (generate_without_gold, before the final grounding). */
  function StripEntities(gs: seq<Graph>): (r: seq<Graph>)
    ensures |r| == |gs|
    ensures forall i :: 0 <= i < |gs| ==> r[i].entities == [] && r[i] == gs[i].(entities := [])
  {
    seq(|gs|, i requires 0 <= i < |gs| => gs[i].(entities := []))
  }
}
