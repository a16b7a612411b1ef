/** Grounding candidate graphs and keeping the good ones: `ground_one_with_gold`,
    `ground_with_gold` (scored against gold answers) and `ground_with_model` (scored by a
    model), in questionanswering/construction/staged_generation.py. */
module Scoring {

  import opened Options
  import opened Lists
  import opened Graphs
  import opened Grounding
  import opened Enrichment

  // ---------------------------------------------------------------------------------------
  // ground_one_with_gold
  // ---------------------------------------------------------------------------------------

  /** A grounded candidate with the identifiers its query denotes (the program keeps them in two
      parallel lists). */
  datatype Denoted = Denoted(graph: Graph, answers: seq<Id>)

  /** `[wdaccess.query_graph_denotations(g) for g in gs]`, paired with the graphs. */
  function Denote(env: Env, gs: seq<Graph>): (r: seq<Denoted>)
    ensures |r| == |gs|
    ensures forall i :: 0 <= i < |gs| ==> r[i] == Denoted(gs[i], env.denotations(gs[i]))
  {
    seq(|gs|, i requires 0 <= i < |gs| => Denoted(gs[i], env.denotations(gs[i])))
  }

  /** The copy of a candidate with more than three answers: filter `importance`, answers narrowed
      by the importance filter. */
  function ImportanceVariant(env: Env, d: Denoted): (r: Denoted)
    ensures r.graph.filter == Some("importance") && r.graph.entities == []
    ensures r.graph.edgeSet == d.graph.edgeSet && r.graph.tokens == d.graph.tokens
    ensures r.answers == env.importance(d.answers)
  {
    Denoted(Copy(d.graph).(filter := Some("importance")), env.importance(d.answers))
  }

  /** The variants the loop appends while visiting each of `ds` in turn. */
  function ImportanceVariants(env: Env, ds: seq<Denoted>): (r: seq<Denoted>)
    ensures |r| <= |ds|
  {
    if ds == [] then []
    else (if |ds[0].answers| > 3 then [ImportanceVariant(env, ds[0])] else []) + ImportanceVariants(env, ds[1..])
  }

  lemma {:induction false} ImportanceVariantsAppend(env: Env, a: seq<Denoted>, b: seq<Denoted>)
    ensures ImportanceVariants(env, a + b) == ImportanceVariants(env, a) + ImportanceVariants(env, b)
  {
    if a == [] {
      assert a + b == b;
    } else {
      assert (a + b)[1..] == a[1..] + b;
      ImportanceVariantsAppend(env, a[1..], b);
    }
  }

  /** The candidates of `s_g` whose groundings were found, before the importance variants. */
  function BaseCandidates(env: Env, g: Graph): seq<Denoted> {
    Denote(env, GroundEach(g, FoundGroundings(env, g)))
  }

  /** Every candidate `ground_one_with_gold(g, ...)` evaluates, in order. */
  function Candidates(env: Env, g: Graph): seq<Denoted> {
    var base := BaseCandidates(env, g);
    base + ImportanceVariants(env, base)
  }

  /** The answer lists of a candidate: labelled, then post-processed against its graph. */
  function AnswersOf(env: Env, d: Denoted): seq<seq<string>> {
    PostProcessed(env, env.labelResults(d.answers), d.graph)
  }

  /** Precision, recall and F1 of a candidate against the gold answers. */
  function Evaluation(env: Env, gold: seq<string>, d: Denoted): Prf {
    env.evaluate(gold, AnswersOf(env, d))
  }

  /** The entry of a chosen candidate. */
  function ChosenEntry(env: Env, gold: seq<string>, d: Denoted): Scored {
    Scored(d.graph, Evaluation(env, gold, d), AnswerSets(AnswersOf(env, d)))
  }

  /** The entry of a rejected candidate: zero scores and the number of answer sets. */
  function RejectedEntry(env: Env, gold: seq<string>, d: Denoted): Scored {
    Scored(d.graph, ZeroPrf, AnswerCount(|AnswersOf(env, d)|))
  }

  /** The candidates scoring above `min`. */
  function ChosenOf(env: Env, gold: seq<string>, min: real, ds: seq<Denoted>): seq<Scored> {
    if ds == [] then []
    else (if Evaluation(env, gold, ds[0]).f1 > min then [ChosenEntry(env, gold, ds[0])] else [])
         + ChosenOf(env, gold, min, ds[1..])
  }

  /** The candidates scoring below 0.01. */
  function RejectedOf(env: Env, gold: seq<string>, ds: seq<Denoted>): seq<Scored> {
    if ds == [] then []
    else (if Evaluation(env, gold, ds[0]).f1 < 0.01 then [RejectedEntry(env, gold, ds[0])] else [])
         + RejectedOf(env, gold, ds[1..])
  }

  /** The state of the loop before it visits candidate `i` of the original `base`. */
  function ImportancePrefix(env: Env, base: seq<Denoted>, i: nat): seq<Denoted>
    requires i <= |base|
  {
    base + ImportanceVariants(env, base[..i])
  }

  lemma ImportancePrefixStep(env: Env, base: seq<Denoted>, i: nat)
    requires i < |base|
    ensures ImportancePrefix(env, base, i)[i] == base[i]
    ensures ImportancePrefix(env, base, i + 1) ==
      ImportancePrefix(env, base, i) + (if |base[i].answers| > 3 then [ImportanceVariant(env, base[i])] else [])
  {
    assert base[..i + 1] == base[..i] + [base[i]];
    ImportanceVariantsAppend(env, base[..i], [base[i]]);
    assert ImportanceVariants(env, [base[i]]) == (if |base[i].answers| > 3 then [ImportanceVariant(env, base[i])] else []) + [];
  }

  /** With a capped importance filter, no variant asks for a variant of its own. */
  lemma {:induction false} ImportanceVariantsCapped(env: Env, ds: seq<Denoted>)
    requires env.ImportanceCapped()
    ensures forall j :: 0 <= j < |ImportanceVariants(env, ds)| ==> |ImportanceVariants(env, ds)[j].answers| <= 3
  {
    if ds != [] {
      ImportanceVariantsCapped(env, ds[1..]);
      assert |env.importance(ds[0].answers)| <= 3;
    }
  }

  /** The pair `ground_one_with_gold(g, gold, min)` returns. */
  function OneWithGold(env: Env, g: Graph, gold: seq<string>, min: real): (seq<Scored>, seq<Scored>) {
    var ds := Candidates(env, g);
    (ChosenOf(env, gold, min, ds), RejectedOf(env, gold, ds))
  }

  /** `ground_one_with_gold`: the loop visits the importance variants it appends as well. */
  method GroundOneWithGold(env: Env, g: Graph, gold: seq<string>, min: real) returns (chosen: seq<Scored>, notChosen: seq<Scored>)
    requires env.ImportanceCapped()
    ensures (chosen, notChosen) == OneWithGold(env, g, gold, min)
  {
    var groundings := FindGroundings(env, g);
    var candidates := Denote(env, GroundEach(g, groundings));
    ghost var base := candidates;
    var n := |candidates|;
    ImportanceVariantsCapped(env, base);
    var i := 0;
    assert base[..0] == [];
    while i < |candidates|
      invariant i <= |candidates|
      invariant i <= n ==> candidates == ImportancePrefix(env, base, i)
      invariant i > n ==> candidates == base + ImportanceVariants(env, base)
      decreases if i < n then n - i else 0, |candidates| - i
    {
      if i < n {
        ImportancePrefixStep(env, base, i);
      } else {
        if i == n {
          assert base[..n] == base;
        }
        assert candidates[i] == ImportanceVariants(env, base)[i - n];
      }
      if |candidates[i].answers| > 3 {
        var t := Copy(candidates[i].graph).(filter := Some("importance"));
        candidates := candidates + [Denoted(t, env.importance(candidates[i].answers))];
      }
      i := i + 1;
    }
    if i <= n {
      assert base[..n] == base;
    }
    chosen := ChosenOf(env, gold, min, candidates);
    notChosen := RejectedOf(env, gold, candidates);
  }

  /** The candidates are the grounded graphs with their denotations, in the order of the
      groundings, followed by one importance variant per candidate with more than three answers,
      in the same order; with a capped filter each variant has at most three answers. */
  lemma CandidatesShape(env: Env, g: Graph)
    ensures var ps := FoundGroundings(env, g);
      var cs := Candidates(env, g);
      |cs| >= |ps| &&
      (forall i :: 0 <= i < |ps| ==> cs[i] == Denoted(Grounded(g, ps[i]), env.denotations(Grounded(g, ps[i])))) &&
      cs[|ps|..] == ImportanceVariants(env, cs[..|ps|]) &&
      (env.ImportanceCapped() ==> forall j :: |ps| <= j < |cs| ==> |cs[j].answers| <= 3)
  {
    var base := BaseCandidates(env, g);
    var cs := Candidates(env, g);
    assert cs[..|base|] == base;
    assert cs[|base|..] == ImportanceVariants(env, base);
    if env.ImportanceCapped() {
      ImportanceVariantsCapped(env, base);
    }
  }

  /** Each candidate with more than three answers has its variant among the appended ones, and
      each appended one is the variant of such a candidate. */
  lemma {:induction false} ImportanceVariantsMember(env: Env, ds: seq<Denoted>, v: Denoted)
    ensures v in ImportanceVariants(env, ds) <==> exists d :: d in ds && |d.answers| > 3 && v == ImportanceVariant(env, d)
  {
    if ds != [] {
      ImportanceVariantsMember(env, ds[1..], v);
      assert forall d :: d in ds <==> d == ds[0] || d in ds[1..];
    }
  }

  /** The chosen entries are exactly the candidates scoring above `min`, each with its scores
      and answer sets; the rejected ones are exactly the candidates scoring below 0.01, with zero
      scores and the number of their answer sets. */
  lemma {:induction false} ChosenRejectedMember(env: Env, gold: seq<string>, min: real, ds: seq<Denoted>, c: Scored)
    ensures c in ChosenOf(env, gold, min, ds) <==>
      exists d :: d in ds && Evaluation(env, gold, d).f1 > min && c == ChosenEntry(env, gold, d)
    ensures c in RejectedOf(env, gold, ds) <==>
      exists d :: d in ds && Evaluation(env, gold, d).f1 < 0.01 && c == RejectedEntry(env, gold, d)
  {
    if ds != [] {
      ChosenRejectedMember(env, gold, min, ds[1..], c);
      assert forall d :: d in ds <==> d == ds[0] || d in ds[1..];
    }
  }

  /** The chosen list keeps the candidates' order: it is the comprehension over the candidates
      scoring above `min`. */
  lemma {:induction false} ChosenInOrder(env: Env, gold: seq<string>, min: real, ds: seq<Denoted>)
    ensures ChosenOf(env, gold, min, ds) ==
      Map(d => ChosenEntry(env, gold, d), Filter(d => Evaluation(env, gold, d).f1 > min, ds))
  {
    if ds != [] {
      ChosenInOrder(env, gold, min, ds[1..]);
      var above := d => Evaluation(env, gold, d).f1 > min;
      MapAppend(d => ChosenEntry(env, gold, d), if above(ds[0]) then [ds[0]] else [], Filter(above, ds[1..]));
    }
  }

  /** The rejected list keeps the candidates' order: it is the comprehension over the
      candidates scoring below 0.01. */
  lemma {:induction false} RejectedInOrder(env: Env, gold: seq<string>, ds: seq<Denoted>)
    ensures RejectedOf(env, gold, ds) ==
      Map(d => RejectedEntry(env, gold, d), Filter(d => Evaluation(env, gold, d).f1 < 0.01, ds))
  {
    if ds != [] {
      RejectedInOrder(env, gold, ds[1..]);
      var below := d => Evaluation(env, gold, d).f1 < 0.01;
      MapAppend(d => RejectedEntry(env, gold, d), if below(ds[0]) then [ds[0]] else [], Filter(below, ds[1..]));
    }
  }

  /** Every chosen entry scores above `min`; every rejected entry carries zero scores. */
  lemma {:induction false} ChosenAbove(env: Env, gold: seq<string>, min: real, ds: seq<Denoted>)
    ensures forall i :: 0 <= i < |ChosenOf(env, gold, min, ds)| ==> F1(ChosenOf(env, gold, min, ds)[i]) > min
    ensures forall i :: 0 <= i < |RejectedOf(env, gold, ds)| ==> RejectedOf(env, gold, ds)[i].prf == ZeroPrf
  {
    if ds != [] {
      ChosenAbove(env, gold, min, ds[1..]);
    }
  }

  // ---------------------------------------------------------------------------------------
  // ground_with_gold
  // ---------------------------------------------------------------------------------------

  /** `ground_one_with_gold` as a function of the graph alone. */
  function GoldOutcome(env: Env, gold: seq<string>, min: real): Graph -> (seq<Scored>, seq<Scored>) {
    g => OneWithGold(env, g, gold, min)
  }

  /** The loop of `ground_with_gold`: the input graphs are tried in order until one yields a
      chosen entry; the rejected entries of every tried graph are collected. */
  function TryInOrder(one: Graph -> (seq<Scored>, seq<Scored>), gs: seq<Graph>): (seq<Scored>, seq<Scored>) {
    if gs == [] then ([], [])
    else if one(gs[0]).0 != [] then one(gs[0])
    else
      var rest := TryInOrder(one, gs[1..]);
      (rest.0, one(gs[0]).1 + rest.1)
  }

  /** The pair `ground_with_gold(gs, gold, min)` returns. */
  function GroundedWithGold(env: Env, gs: seq<Graph>, gold: seq<string>, min: real): (seq<Scored>, seq<Scored>) {
    var tried := TryInOrder(GoldOutcome(env, gold, min), gs);
    (Take(SortDesc(F1, tried.0), 3), tried.1)
  }

  /** `ground_with_gold`. */
  method GroundWithGold(env: Env, inputGraphs: seq<Graph>, gold: seq<string>, min: real)
    returns (chosen: seq<Scored>, notChosen: seq<Scored>)
    requires env.ImportanceCapped()
    ensures (chosen, notChosen) == GroundedWithGold(env, inputGraphs, gold, min)
  {
    ghost var one := GoldOutcome(env, gold, min);
    var allChosen: seq<Scored> := [];
    var allNotChosen: seq<Scored> := [];
    var remaining := inputGraphs;
    assert [] + TryInOrder(one, remaining).1 == TryInOrder(one, remaining).1;
    while remaining != [] && |allChosen| == 0
      invariant allChosen == [] ==>
        TryInOrder(one, inputGraphs) == (TryInOrder(one, remaining).0, allNotChosen + TryInOrder(one, remaining).1)
      invariant allChosen != [] ==> TryInOrder(one, inputGraphs) == (allChosen, allNotChosen)
      decreases |remaining|
    {
      var sg := remaining[0];
      remaining := remaining[1..];
      var c, r := GroundOneWithGold(env, sg, gold, min);
      assert ([sg] + remaining)[1..] == remaining;
      TryInOrderStep(one, [sg] + remaining, allNotChosen, c, r);
      assert allChosen + c == c;
      allChosen := allChosen + c;
      allNotChosen := allNotChosen + r;
    }
    if allChosen == [] {
      assert allNotChosen + [] == allNotChosen;
    }
    allChosen := SortDesc(F1, allChosen);
    if |allChosen| > 3 {
      allChosen := allChosen[..3];
    }
    chosen, notChosen := allChosen, allNotChosen;
  }

  lemma TryInOrderStep(one: Graph -> (seq<Scored>, seq<Scored>), gs: seq<Graph>, acc: seq<Scored>, c: seq<Scored>, r: seq<Scored>)
    requires gs != [] && one(gs[0]) == (c, r)
    ensures c == [] ==>
      (TryInOrder(one, gs).0, acc + TryInOrder(one, gs).1) == (TryInOrder(one, gs[1..]).0, (acc + r) + TryInOrder(one, gs[1..]).1)
    ensures c != [] ==> (TryInOrder(one, gs).0, acc + TryInOrder(one, gs).1) == (c, acc + r)
  {
    if c == [] {
      var rest := TryInOrder(one, gs[1..]);
      assert acc + (r + rest.1) == (acc + r) + rest.1;
    }
  }

  /** The rejected entries of each of `gs`, concatenated. */
  function RejectedAll(one: Graph -> (seq<Scored>, seq<Scored>), gs: seq<Graph>): seq<Scored> {
    if gs == [] then [] else one(gs[0]).1 + RejectedAll(one, gs[1..])
  }

  /** When graph `k` is the first to yield a chosen entry, the loop stops there: the chosen
      list is that graph's, and the rejected list holds those of graphs `0..k`. */
  lemma {:induction false} TryInOrderFirstHit(one: Graph -> (seq<Scored>, seq<Scored>), gs: seq<Graph>, k: nat)
    requires k < |gs| && one(gs[k]).0 != []
    requires forall j :: 0 <= j < k ==> one(gs[j]).0 == []
    ensures TryInOrder(one, gs) == (one(gs[k]).0, RejectedAll(one, gs[..k + 1]))
  {
    if k == 0 {
      assert gs[..1][1..] == [];
      assert gs[..1][0] == gs[0];
      assert one(gs[0]).1 + [] == one(gs[0]).1;
    } else {
      TryInOrderFirstHit(one, gs[1..], k - 1);
      assert gs[..k + 1][1..] == gs[1..][..k];
    }
  }

  /** When no graph yields a chosen entry, all are tried and nothing is chosen. */
  lemma {:induction false} TryInOrderNoHit(one: Graph -> (seq<Scored>, seq<Scored>), gs: seq<Graph>)
    requires forall j :: 0 <= j < |gs| ==> one(gs[j]).0 == []
    ensures TryInOrder(one, gs) == ([], RejectedAll(one, gs))
  {
    if gs != [] {
      TryInOrderNoHit(one, gs[1..]);
    }
  }

  /** What the loop chooses is what one tried graph chose. */
  lemma {:induction false} TryInOrderFrom(one: Graph -> (seq<Scored>, seq<Scored>), gs: seq<Graph>)
    ensures TryInOrder(one, gs).0 == [] || exists j :: 0 <= j < |gs| && TryInOrder(one, gs).0 == one(gs[j]).0
  {
    if gs != [] && one(gs[0]).0 == [] {
      TryInOrderFrom(one, gs[1..]);
      if TryInOrder(one, gs[1..]).0 != [] {
        var j :| 0 <= j < |gs[1..]| && TryInOrder(one, gs[1..]).0 == one(gs[1..][j]).0;
        assert gs[1..][j] == gs[j + 1];
      }
    }
  }

  /** `ground_one_with_gold` chooses only entries scoring above `min`. */
  lemma GoldOutcomeAbove(env: Env, gold: seq<string>, min: real, g: Graph)
    ensures forall i :: 0 <= i < |GoldOutcome(env, gold, min)(g).0| ==> F1(GoldOutcome(env, gold, min)(g).0[i]) > min
  {
    ChosenAbove(env, gold, min, Candidates(env, g));
  }

  /** The best three of what the loop chose, when every graph chooses only entries above `min`. */
  lemma TopOfTried(one: Graph -> (seq<Scored>, seq<Scored>), gs: seq<Graph>, min: real)
    requires forall j :: 0 <= j < |gs| ==> forall i :: 0 <= i < |one(gs[j]).0| ==> F1(one(gs[j]).0[i]) > min
    ensures var tried := TryInOrder(one, gs);
      var r := Take(SortDesc(F1, tried.0), 3);
      |r| <= 3 && SortedDesc(F1, r) && multiset(r) <= multiset(tried.0) &&
      (forall i :: 0 <= i < |r| ==> F1(r[i]) > min) &&
      (forall i, j :: 0 <= i < |r| <= j < |tried.0| ==> F1(r[i]) >= F1(SortDesc(F1, tried.0)[j]))
  {
    var tried := TryInOrder(one, gs);
    var r := Take(SortDesc(F1, tried.0), 3);
    TopOfSorted(F1, tried.0, 3);
    TryInOrderFrom(one, gs);
    forall i | 0 <= i < |r| ensures F1(r[i]) > min {
      assert r[i] in multiset(tried.0);
      var j :| 0 <= j < |gs| && tried.0 == one(gs[j]).0;
    }
  }

  /** `ground_with_gold` returns at most three chosen entries, best first, all scoring above
      `min`, taken from the chosen entries of one tried graph, and none of that graph's entries
      it leaves out scores higher than one it keeps. */
  lemma GroundedWithGoldTop(env: Env, gs: seq<Graph>, gold: seq<string>, min: real)
    ensures var tried := TryInOrder(GoldOutcome(env, gold, min), gs);
      var r := GroundedWithGold(env, gs, gold, min).0;
      |r| <= 3 && SortedDesc(F1, r) && multiset(r) <= multiset(tried.0) &&
      (forall i :: 0 <= i < |r| ==> F1(r[i]) > min) &&
      (forall i, j :: 0 <= i < |r| <= j < |tried.0| ==> F1(r[i]) >= F1(SortDesc(F1, tried.0)[j]))
  {
    var one := GoldOutcome(env, gold, min);
    forall j | 0 <= j < |gs| ensures forall i :: 0 <= i < |one(gs[j]).0| ==> F1(one(gs[j]).0[i]) > min {
      GoldOutcomeAbove(env, gold, min, gs[j]);
    }
    TopOfTried(one, gs, min);
  }

  lemma {:induction false} TryInOrderRejectedZero(one: Graph -> (seq<Scored>, seq<Scored>), gs: seq<Graph>)
    requires forall j :: 0 <= j < |gs| ==> forall i :: 0 <= i < |one(gs[j]).1| ==> one(gs[j]).1[i].prf == ZeroPrf
    ensures forall i :: 0 <= i < |TryInOrder(one, gs).1| ==> TryInOrder(one, gs).1[i].prf == ZeroPrf
  {
    if gs != [] && one(gs[0]).0 == [] {
      TryInOrderRejectedZero(one, gs[1..]);
    }
  }

  /** Every entry `ground_with_gold` reports as not chosen carries zero scores. */
  lemma GroundedWithGoldRejectedZero(env: Env, gs: seq<Graph>, gold: seq<string>, min: real)
    ensures var r := GroundedWithGold(env, gs, gold, min).1;
      forall i :: 0 <= i < |r| ==> r[i].prf == ZeroPrf
  {
    var one := GoldOutcome(env, gold, min);
    forall j | 0 <= j < |gs| ensures forall i :: 0 <= i < |one(gs[j]).1| ==> one(gs[j]).1[i].prf == ZeroPrf {
      ChosenAbove(env, gold, min, Candidates(env, gs[j]));
    }
    TryInOrderRejectedZero(one, gs);
  }

  // ---------------------------------------------------------------------------------------
  // ground_with_model
  // ---------------------------------------------------------------------------------------

  /** How `ground_with_model` fails: `kbID[:-1]` on an edge without `kbID` in the whitelist
      filter, or the model returning a different number of scores than there are graphs. */
  datatype Failure = MissingKbID | ScoreCountMismatch

  /** `[apply_grounding(s_g, p) for s_g in gs for p in find_groundings(s_g)]`. */
  function AllGroundings(env: Env, gs: seq<Graph>): seq<Graph> {
    if gs == [] then [] else GroundEach(gs[0], FoundGroundings(env, gs[0])) + AllGroundings(env, gs[1..])
  }

  /** The string representations added, then the entities replaced when `replace.entities` is on. */
  function Prepared(env: Env, gs: seq<Graph>): (r: seq<Graph>)
    ensures |r| == |gs|
  {
    var withStrings := Map(env.addStrings, gs);
    if env.replaceEntitiesOption then Map(env.replaceEntities, withStrings) else withStrings
  }

  /** The last edge ends in a first-order relation that is not a qualifier. */
  predicate EndsDirectly(env: Env, g: Graph) {
    IsFirstOrder(env.lastEdge(g).edgeType) && !IsQualifier(env.lastEdge(g).kbID)
  }

  /** `direct_relations`: the relation bases of the last edges that end directly. */
  function DirectRelations(env: Env, gs: seq<Graph>): set<string> {
    set g | g in gs && EndsDirectly(env, g) :: Base(env.lastEdge(g).kbID)
  }

  /** A graph ending in a qualifier whose base relation some graph ends in directly. */
  predicate RedundantQualifier(env: Env, direct: set<string>, g: Graph) {
    IsQualifier(env.lastEdge(g).kbID) && Base(env.lastEdge(g).kbID) in direct
  }

  /** The first pruning of `ground_with_model`. */
  function PruneQualifiers(env: Env, gs: seq<Graph>): (r: seq<Graph>)
    ensures |r| <= |gs|
    ensures forall g :: g in r ==> g in gs && !RedundantQualifier(env, DirectRelations(env, gs), g)
  {
    var direct := DirectRelations(env, gs);
    Filter(g => !RedundantQualifier(env, direct, g), gs)
  }

  /** `first_order_relations`: the `(kbID, type)` pairs of first-order last edges (the program
      formats each pair as one string). */
  function FirstOrderRelations(env: Env, gs: seq<Graph>): set<(Option<Id>, Option<EdgeType>)> {
    set g | g in gs && IsFirstOrder(env.lastEdge(g).edgeType) :: (env.lastEdge(g).kbID, env.lastEdge(g).edgeType)
  }

  /** A graph whose last edge has a hop that, with the edge's type, is a first-order relation of
      some graph. */
  predicate RedundantHop(env: Env, relations: set<(Option<Id>, Option<EdgeType>)>, g: Graph) {
    var e := env.lastEdge(g);
    e.HasHop() && ((e.hopUp.Get(), e.edgeType) in relations || (e.hopDown.Get(), e.edgeType) in relations)
  }

  /** The second pruning of `ground_with_model`. */
  function PruneHops(env: Env, gs: seq<Graph>): (r: seq<Graph>)
    ensures |r| <= |gs|
    ensures forall g :: g in r ==> g in gs && !RedundantHop(env, FirstOrderRelations(env, gs), g)
  {
    var relations := FirstOrderRelations(env, gs);
    Filter(g => !RedundantHop(env, relations, g), gs)
  }

  /** `[(gs[i], scores[i]) for i in range(len(gs)) if scores[i] > min]`. */
  function Above(gs: seq<Graph>, scores: seq<real>, min: real): (r: seq<ModelScored>)
    requires |gs| == |scores|
    ensures forall i :: 0 <= i < |r| ==> r[i].score > min
    ensures forall i :: 0 <= i < |gs| && scores[i] > min ==> ModelScored(gs[i], scores[i]) in r
    ensures forall c :: c in r ==> c.graph in gs
    ensures forall c :: c in r ==> exists i :: 0 <= i < |gs| && scores[i] > min && c == ModelScored(gs[i], scores[i])
  {
    if gs == [] then []
    else
      var rest := Above(gs[1..], scores[1..], min);
      assert forall i :: 1 <= i < |gs| ==> gs[i] == gs[1..][i - 1] && scores[i] == scores[1..][i - 1];
      AboveShift(gs, scores, min, rest);
      (if scores[0] > min then [ModelScored(gs[0], scores[0])] else []) + rest
  }

  /** An entry that is a scored pair of `gs[1..]` is a scored pair of `gs`. */
  lemma AboveShift(gs: seq<Graph>, scores: seq<real>, min: real, rest: seq<ModelScored>)
    requires |gs| == |scores| && gs != []
    requires forall c :: c in rest ==> exists i :: 0 <= i < |gs[1..]| && scores[1..][i] > min && c == ModelScored(gs[1..][i], scores[1..][i])
    ensures forall c :: c in rest ==> exists i :: 0 <= i < |gs| && scores[i] > min && c == ModelScored(gs[i], scores[i])
  {
    forall c | c in rest ensures exists i :: 0 <= i < |gs| && scores[i] > min && c == ModelScored(gs[i], scores[i]) {
      var i :| 0 <= i < |gs[1..]| && scores[1..][i] > min && c == ModelScored(gs[1..][i], scores[1..][i]);
      assert scores[i + 1] > min && c == ModelScored(gs[i + 1], scores[i + 1]);
    }
  }

  /** The pairs `(gs[i], scores[i])`, in order. */
  function Pairs(gs: seq<Graph>, scores: seq<real>): (r: seq<ModelScored>)
    requires |gs| == |scores|
    ensures |r| == |gs| && forall i :: 0 <= i < |gs| ==> r[i] == ModelScored(gs[i], scores[i])
  {
    seq(|gs|, i requires 0 <= i < |gs| => ModelScored(gs[i], scores[i]))
  }

  /** The comprehension of `Above` is the in-order filter of the pairs by score: order and
      multiplicity are those of the input. */
  lemma {:induction false} AboveFilters(gs: seq<Graph>, scores: seq<real>, min: real)
    requires |gs| == |scores|
    ensures Above(gs, scores, min) == Filter((c: ModelScored) => c.score > min, Pairs(gs, scores))
  {
    if gs != [] {
      AboveFilters(gs[1..], scores[1..], min);
      assert Pairs(gs, scores)[1..] == Pairs(gs[1..], scores[1..]);
    }
  }

  /** The graphs the model is asked to score, or the failure of the whitelist filter. */
  function ModelCandidates(env: Env, gs: seq<Graph>): (r: Result<seq<Graph>, Failure>)
    ensures r.Err? ==> r.error == MissingKbID && env.useWhitelist
    ensures r.Ok? ==> |r.value| <= |AllGroundings(env, gs)|
  {
    var grounded := AllGroundings(env, gs);
    var filtered := if env.useWhitelist then WhitelistFilter(env.whitelist, true, grounded) else Some(grounded);
    if filtered.None? then Err(MissingKbID)
    else Ok(PruneHops(env, PruneQualifiers(env, Prepared(env, filtered.value))))
  }

  /** `ground_with_model(gs, qa_model, min_score, beam_size)`. */
  function GroundWithModel(env: Env, gs: seq<Graph>, min: real, beam: nat): (r: Result<seq<ModelScored>, Failure>)
    ensures r.Ok? ==> |r.value| <= beam && forall i :: 0 <= i < |r.value| ==> r.value[i].score > min
    ensures r.Err? ==> ModelCandidates(env, gs).Err? || r.error == ScoreCountMismatch
  {
    match ModelCandidates(env, gs)
    case Err(f) => Err(f)
    case Ok(candidates) =>
      if |candidates| == 0 then Ok([])
      else
        var scores := env.scores(candidates);
        if |scores| != |candidates| then Err(ScoreCountMismatch)
        else Ok(Best(candidates, scores, min, beam))
  }

  /** `sorted(..., key=lambda x: x[1], reverse=True)[:beam_size]` of the scored graphs above `min`. */
  function Best(gs: seq<Graph>, scores: seq<real>, min: real, beam: nat): (r: seq<ModelScored>)
    requires |gs| == |scores|
    ensures |r| <= beam && forall i :: 0 <= i < |r| ==> r[i].score > min
  {
    var above := Above(gs, scores, min);
    SortDescAbove(Score, above, min);
    Take(SortDesc(Score, above), beam)
  }

  /** The qualifier pruning keeps, in order, exactly the graphs that do not end in a qualifier
      whose base relation another graph of the list ends in directly. */
  lemma PruneQualifiersMember(env: Env, gs: seq<Graph>, g: Graph)
    ensures g in PruneQualifiers(env, gs) <==>
      g in gs && !(IsQualifier(env.lastEdge(g).kbID) &&
                   exists h :: h in gs && EndsDirectly(env, h) && Base(env.lastEdge(h).kbID) == Base(env.lastEdge(g).kbID))
  {
    var direct := DirectRelations(env, gs);
    var p := g => !RedundantQualifier(env, direct, g);
    var r := Filter(p, gs);
    if g in r {
      var i :| 0 <= i < |r| && r[i] == g;
    }
    if g in gs && p(g) {
      var i :| 0 <= i < |gs| && gs[i] == g;
    }
    if exists h :: h in gs && EndsDirectly(env, h) && Base(env.lastEdge(h).kbID) == Base(env.lastEdge(g).kbID) {
      var h :| h in gs && EndsDirectly(env, h) && Base(env.lastEdge(h).kbID) == Base(env.lastEdge(g).kbID);
      assert Base(env.lastEdge(g).kbID) in direct;
    }
  }

  /** The hop pruning keeps, in order, exactly the graphs whose last edge has no hop, or whose
      hops paired with the edge's type are no first-order relation of a graph of the list. */
  lemma PruneHopsMember(env: Env, gs: seq<Graph>, g: Graph)
    ensures var e := env.lastEdge(g);
      g in PruneHops(env, gs) <==>
      g in gs && (!e.HasHop() ||
        forall h :: h in gs && IsFirstOrder(env.lastEdge(h).edgeType) ==>
          (env.lastEdge(h).kbID, env.lastEdge(h).edgeType) != (e.hopUp.Get(), e.edgeType) &&
          (env.lastEdge(h).kbID, env.lastEdge(h).edgeType) != (e.hopDown.Get(), e.edgeType))
  {
    var relations := FirstOrderRelations(env, gs);
    var p := g => !RedundantHop(env, relations, g);
    var r := Filter(p, gs);
    if g in r {
      var i :| 0 <= i < |r| && r[i] == g;
    }
    if g in gs && p(g) {
      var i :| 0 <= i < |gs| && gs[i] == g;
    }
  }

  /** A successful `ground_with_model` returns at most `beam_size` entries, best first, each
      scoring above `min_score` and holding a graph the model was asked to score; none of those
      left out scores higher than one kept. Without the whitelist option, or when every grounded
      edge has a `kbID`, the whitelist filter does not fail; a score-count failure needs a
      non-empty list the model answered with the wrong number of scores. */
  lemma GroundWithModelSpec(env: Env, gs: seq<Graph>, min: real, beam: nat)
    ensures var r := GroundWithModel(env, gs, min, beam);
      var cands := ModelCandidates(env, gs);
      (r.Ok? ==>
         cands.Ok? && |r.value| <= beam && SortedDesc(Score, r.value) &&
         (forall i :: 0 <= i < |r.value| ==> r.value[i].score > min && r.value[i].graph in cands.value)) &&
      (cands.Ok? && cands.value == [] ==> r == Ok([])) &&
      (r.Ok? && cands.value != [] ==>
        var all := SortDesc(Score, Above(cands.value, env.scores(cands.value), min));
        multiset(r.value) <= multiset(all) &&
        |r.value| == (if |all| < beam then |all| else beam) &&
        forall i, j :: 0 <= i < |r.value| <= j < |all| ==> Score(r.value[i]) >= Score(all[j])) &&
      ((!env.useWhitelist || forall g, e :: g in AllGroundings(env, gs) && e in g.edgeSet ==> e.kbID.Some?) ==>
        r != Err(MissingKbID)) &&
      (r == Err(ScoreCountMismatch) <==> cands.Ok? && cands.value != [] && |env.scores(cands.value)| != |cands.value|)
  {
    var cands := ModelCandidates(env, gs);
    if cands.Err? {
      ModelCandidatesSafe(env, gs);
    } else if cands.value != [] && |env.scores(cands.value)| == |cands.value| {
      BestAbove(cands.value, env.scores(cands.value), min, beam);
      assert GroundWithModel(env, gs, min, beam) == Ok(Best(cands.value, env.scores(cands.value), min, beam));
    }
  }

  /** The candidates cannot fail without the whitelist option, or when every grounded edge has
      a `kbID`. */
  lemma ModelCandidatesSafe(env: Env, gs: seq<Graph>)
    ensures (!env.useWhitelist || forall g, e :: g in AllGroundings(env, gs) && e in g.edgeSet ==> e.kbID.Some?) ==>
      ModelCandidates(env, gs).Ok?
  {
    WhitelistFilterSound(env.whitelist, true, AllGroundings(env, gs));
  }

  /** The best `beam` of the scored graphs above `min`, sorted: each is one of the graphs with
      its own score, and no entry left out beats one kept. */
  lemma BestAbove(gs: seq<Graph>, scores: seq<real>, min: real, beam: nat)
    requires |gs| == |scores|
    ensures var all := SortDesc(Score, Above(gs, scores, min));
      var r := Take(all, beam);
      |r| == (if |all| < beam then |all| else beam) && SortedDesc(Score, r) &&
      multiset(r) <= multiset(all) &&
      (forall i :: 0 <= i < |r| ==> r[i].score > min && r[i].graph in gs) &&
      (forall i, j :: 0 <= i < |r| <= j < |all| ==> Score(r[i]) >= Score(all[j]))
  {
    var above := Above(gs, scores, min);
    TopOfSorted(Score, above, beam);
    var all := SortDesc(Score, above);
    var r := Take(all, beam);
    forall i | 0 <= i < |r| ensures r[i].score > min && r[i].graph in gs {
      assert r[i] in multiset(above);
    }
  }


}
