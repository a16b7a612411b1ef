/** The two search schedulers of questionanswering/construction/staged_generation.py:
    `generate_with_gold`, guided by the F1 of each candidate against gold answers, and
    `generate_with_model`, guided by a model's scores. Each keeps a pool of scored graphs,
    pops its first entry, refines it with `restrict` and `expand`, and requeues the chosen
    refinements. Whether the search ends depends on those operators, so each scheduler is a
    class whose `Step` is one pass of the program's loop and whose `Run` makes at most `fuel`
    passes. */
module Search {

  import opened Options
  import opened Lists
  import opened Graphs
  import opened Enrichment
  import opened Scoring

  /** `[add_canonical_labels_to_entities(r) for r in stages.restrict(g)]`. */
  function Restricted(env: Env, g: Graph): seq<Graph> {
    LabelledAll(env, env.restrict(g))
  }

  // ---------------------------------------------------------------------------------------
  // generate_with_gold
  // ---------------------------------------------------------------------------------------

  /** `ground` is `ground_with_gold(gs, gold, min)` as a function of the graphs and the
      threshold. */
  ghost predicate GroundsWithGold(ground: (seq<Graph>, real) -> (seq<Scored>, seq<Scored>), env: Env, gold: seq<string>) {
    forall gs, min {:trigger GroundedWithGold(env, gs, gold, min)} :: ground(gs, min) == GroundedWithGold(env, gs, gold, min)
  }

  /** A grounding operator that chooses only entries scoring above the threshold and rejects
      only entries with zero scores. */
  ghost predicate GroundsAbove(ground: (seq<Graph>, real) -> (seq<Scored>, seq<Scored>)) {
    forall gs, min ::
      (forall i :: 0 <= i < |ground(gs, min).0| ==> F1(ground(gs, min).0[i]) > min) &&
      (forall i :: 0 <= i < |ground(gs, min).1| ==> ground(gs, min).1[i].prf == ZeroPrf)
  }

  /** `ground_with_gold` chooses only candidates above the threshold and rejects only
      candidates with zero scores. */
  lemma GoldGroundsAbove(ground: (seq<Graph>, real) -> (seq<Scored>, seq<Scored>), env: Env, gold: seq<string>)
    requires GroundsWithGold(ground, env, gold)
    ensures GroundsAbove(ground)
  {
    forall gs, min
      ensures (forall i :: 0 <= i < |ground(gs, min).0| ==> F1(ground(gs, min).0[i]) > min) &&
              (forall i :: 0 <= i < |ground(gs, min).1| ==> ground(gs, min).1[i].prf == ZeroPrf)
    {
      GroundedWithGoldTop(env, gs, gold, min);
      GroundedWithGoldRejectedZero(env, gs, gold, min);
    }
  }

  /** One pass of the inner loop of `generate_with_gold` on suggested graph `sg`: the graph is
      grounded with the current threshold, and, while nothing is chosen, so are its expansions.
      Gives the chosen list and the entries recorded as negative. */
  function Round(ground: (seq<Graph>, real) -> (seq<Scored>, seq<Scored>), expand: Graph -> seq<Graph>,
                 sg: Graph, chosen: seq<Scored>, master: real): (seq<Scored>, seq<Scored>) {
    var first := ground([sg], master);
    if chosen + first.0 != [] then (chosen + first.0, first.1)
    else
      var second := ground(expand(sg), master);
      (second.0, first.1 + second.1)
  }

  /** A round raises the bonus flag, and drops the threshold to the best F1 chosen so far, when
      something is chosen and that best F1 is below 0.05. */
  predicate Raises(chosen: seq<Scored>) {
    chosen != [] && MaxF1(chosen) < 0.05
  }

  /** The inner loop of `generate_with_gold`, from the given state: the final chosen list and
      the negatives it records. */
  function Refine(ground: (seq<Graph>, real) -> (seq<Scored>, seq<Scored>), expand: Graph -> seq<Graph>,
                  suggested: seq<Graph>, chosen: seq<Scored>, bonus: bool, master: real): (seq<Scored>, seq<Scored>)
    decreases |suggested|
  {
    if !((chosen == [] || bonus) && suggested != []) then (chosen, [])
    else
      var round := Round(ground, expand, suggested[0], chosen, master);
      var raise := Raises(round.0);
      var rest := Refine(ground, expand, suggested[1..], round.0, raise, if raise then MaxF1(round.0) else master);
      (rest.0, round.1 + rest.1)
  }

  /** Every refinement chosen scores above the parent's F1, even after the bonus round has
      changed the threshold: the threshold only ever moves up to an F1 already chosen. */
  lemma {:induction false} RefineAbove(ground: (seq<Graph>, real) -> (seq<Scored>, seq<Scored>), expand: Graph -> seq<Graph>,
                                       suggested: seq<Graph>, chosen: seq<Scored>, bonus: bool, master: real, floor: real)
    requires GroundsAbove(ground)
    requires master >= floor
    requires forall i :: 0 <= i < |chosen| ==> F1(chosen[i]) > floor
    ensures var r := Refine(ground, expand, suggested, chosen, bonus, master).0;
      forall i :: 0 <= i < |r| ==> F1(r[i]) > floor
    decreases |suggested|
  {
    if (chosen == [] || bonus) && suggested != [] {
      var sg := suggested[0];
      var round := Round(ground, expand, sg, chosen, master);
      assert forall i :: 0 <= i < |ground([sg], master).0| ==> F1(ground([sg], master).0[i]) > master;
      assert forall i :: 0 <= i < |ground(expand(sg), master).0| ==> F1(ground(expand(sg), master).0[i]) > master;
      assert forall i :: 0 <= i < |round.0| ==> F1(round.0[i]) > floor;
      var raise := Raises(round.0);
      var next := if raise then MaxF1(round.0) else master;
      if raise {
        assert F1(round.0[0]) <= MaxF1(round.0);
      }
      assert Refine(ground, expand, suggested, chosen, bonus, master).0 == Refine(ground, expand, suggested[1..], round.0, raise, next).0;
      RefineAbove(ground, expand, suggested[1..], round.0, raise, next, floor);
    }
  }

  /** Every entry of `s` carries zero scores. */
  predicate Zeroed(s: seq<Scored>) {
    forall i :: 0 <= i < |s| ==> s[i].prf == ZeroPrf
  }

  lemma ZeroedAppend(s: seq<Scored>, t: seq<Scored>)
    requires Zeroed(s) && Zeroed(t)
    ensures Zeroed(s + t)
  {
    forall i | 0 <= i < |s + t| ensures (s + t)[i].prf == ZeroPrf {
      if i >= |s| {
        assert (s + t)[i] == t[i - |s|];
      }
    }
  }

  /** Every negative the inner loop records carries zero scores. */
  lemma {:induction false} RefineNegativesZero(ground: (seq<Graph>, real) -> (seq<Scored>, seq<Scored>), expand: Graph -> seq<Graph>,
                                               suggested: seq<Graph>, chosen: seq<Scored>, bonus: bool, master: real)
    requires GroundsAbove(ground)
    ensures Zeroed(Refine(ground, expand, suggested, chosen, bonus, master).1)
    decreases |suggested|
  {
    if (chosen == [] || bonus) && suggested != [] {
      var sg := suggested[0];
      var round := Round(ground, expand, sg, chosen, master);
      assert forall i :: 0 <= i < |ground([sg], master).1| ==> ground([sg], master).1[i].prf == ZeroPrf;
      assert forall i :: 0 <= i < |ground(expand(sg), master).1| ==> ground(expand(sg), master).1[i].prf == ZeroPrf;
      var raise := Raises(round.0);
      var next := if raise then MaxF1(round.0) else master;
      var rest := Refine(ground, expand, suggested[1..], round.0, raise, next);
      assert Refine(ground, expand, suggested, chosen, bonus, master).1 == round.1 + rest.1;
      assert Zeroed(round.1);
      RefineNegativesZero(ground, expand, suggested[1..], round.0, raise, next);
    }
  }

  /** One pass of the inner loop, in terms of what is left of it: the round's negatives are
      recorded and the loop goes on with the round's chosen list, bonus flag and threshold. */
  lemma RefineStep(ground: (seq<Graph>, real) -> (seq<Scored>, seq<Scored>), expand: Graph -> seq<Graph>,
                   suggested: seq<Graph>, chosen: seq<Scored>, bonus: bool, master: real, refused: seq<Scored>,
                   chosenAfter: seq<Scored>, notChosen: seq<Scored>)
    requires (chosen == [] || bonus) && suggested != []
    requires (chosenAfter, notChosen) == Round(ground, expand, suggested[0], chosen, master)
    ensures var next := Refine(ground, expand, suggested[1..], chosenAfter, Raises(chosenAfter),
                               if Raises(chosenAfter) then MaxF1(chosenAfter) else master);
      Refine(ground, expand, suggested, chosen, bonus, master) == (next.0, notChosen + next.1) &&
      refused + Refine(ground, expand, suggested, chosen, bonus, master).1 == (refused + notChosen) + next.1
  {
  }

  /** One pass of the inner loop of `generate_with_gold`: `sg` is grounded and, when nothing
      is chosen yet, so are its expansions. */
  method GroundRound(env: Env, gold: seq<string>, ghost ground: (seq<Graph>, real) -> (seq<Scored>, seq<Scored>),
                     sg: Graph, chosen: seq<Scored>, threshold: real)
    returns (chosenAfter: seq<Scored>, notChosen: seq<Scored>)
    requires env.ImportanceCapped() && GroundsWithGold(ground, env, gold)
    ensures (chosenAfter, notChosen) == Round(ground, env.expand, sg, chosen, threshold)
  {
    var tempChosen, rejected := GroundWithGold(env, [sg], gold, threshold);
    assert ground([sg], threshold) == (tempChosen, rejected);
    chosenAfter := chosen + tempChosen;
    notChosen := rejected;
    if chosenAfter == [] {
      var expanded := env.expand(sg);
      tempChosen, rejected := GroundWithGold(env, expanded, gold, threshold);
      assert ground(expanded, threshold) == (tempChosen, rejected);
      chosenAfter := chosenAfter + tempChosen;
      notChosen := notChosen + rejected;
      assert chosenAfter == tempChosen;
    }
  }

  /** The inner loop of `generate_with_gold` for one popped graph: its restrictions are
      grounded in turn (with their expansions while nothing is chosen) until something is
      chosen and no bonus round is due. Gives the chosen refinements and the rejected entries
      recorded as negatives, in order. */
  method RefineWithGold(env: Env, gold: seq<string>, ghost ground: (seq<Graph>, real) -> (seq<Scored>, seq<Scored>),
                        restricted: seq<Graph>, master: real)
    returns (chosen: seq<Scored>, refused: seq<Scored>)
    requires env.ImportanceCapped() && GroundsWithGold(ground, env, gold)
    ensures (chosen, refused) == Refine(ground, env.expand, restricted, [], false, master)
  {
    var suggested := restricted;
    var bonus := false;
    var threshold := master;
    chosen := [];
    refused := [];
    ghost var whole := Refine(ground, env.expand, restricted, [], false, master);
    assert [] + whole.1 == whole.1;
    while (chosen == [] || bonus) && suggested != []
      invariant whole == (Refine(ground, env.expand, suggested, chosen, bonus, threshold).0,
                          refused + Refine(ground, env.expand, suggested, chosen, bonus, threshold).1)
      decreases |suggested|
    {
      var sg := suggested[0];
      ghost var before := (chosen, bonus, threshold, refused);
      var notChosen;
      chosen, notChosen := GroundRound(env, gold, ground, sg, chosen, threshold);
      refused := refused + notChosen;
      bonus := false;
      if chosen != [] {
        var currentF1 := MaxF1(chosen);
        if currentF1 < 0.05 {
          bonus := true;
          threshold := currentF1;
        }
      }
      RefineStep(ground, env.expand, suggested, before.0, before.1, before.2, before.3, chosen, notChosen);
      suggested := suggested[1..];
    }
    assert refused + [] == refused;
  }

  /** The state of `generate_with_gold`. */
  class GoldSearch {
    const env: Env
    const gold: seq<string>
    /** `ground_with_gold` against `gold`, as the specification of the inner loop uses it. */
    ghost const ground: (seq<Graph>, real) -> (seq<Scored>, seq<Scored>)
    /** Candidates still to refine, best F1 first. */
    var pool: seq<Scored>
    /** Graphs kept as results: good enough, or not improvable. */
    var positives: seq<Scored>
    /** Groundings that scored (almost) zero. */
    var negatives: seq<Scored>
    var iterations: nat

    /** The pool is sorted by non-increasing F1 and every negative carries zero scores. */
    ghost predicate Valid()
      reads this
    {
      env.ImportanceCapped() && GroundsWithGold(ground, env, gold) && SortedDesc(F1, pool) && Zeroed(negatives)
    }

    /** The setup of `generate_with_gold`: the entities are linked and the graph is the only
        pool entry, with zero scores. */
    constructor (env: Env, ungrounded: Graph, gold: seq<string>)
      requires env.ImportanceCapped() && LinkSafe(env, ungrounded)
      ensures Valid()
      ensures this.env == env && this.gold == gold
      ensures pool == [Scored(Linked(env, ungrounded), ZeroPrf, AnswerSets([]))]
      ensures positives == [] && negatives == [] && iterations == 0
    {
      var linked := LinkEntities(env, ungrounded);
      this.env := env;
      this.gold := gold;
      ground := (gs, min) => GroundedWithGold(env, gs, gold, min);
      pool := [Scored(linked, ZeroPrf, AnswerSets([]))];
      positives := [];
      negatives := [];
      iterations := 0;
    }

    /** The F1 of the last positive appended, 0.0 while there is none. */
    function LastPositiveF1(): real
      reads this
    {
      if positives == [] then 0.0 else F1(positives[|positives| - 1])
    }

    /** The loop test of `generate_with_gold`. */
    predicate Running()
      reads this
    {
      pool != [] && LastPositiveF1() < 0.9
    }

    /** One pass of the outer loop: the best pool entry is popped; below F1 0.7 its restrictions
        (and their expansions) are grounded until some refinement is chosen; the chosen ones
        join the pool, which is sorted again; a parent that is good enough or has no chosen
        refinement becomes a positive. */
    method Step() returns (parent: Scored, chosen: seq<Scored>)
      requires Valid() && pool != []
      modifies this
      ensures Valid()
      ensures parent == old(pool[0])
      ensures forall i :: 0 <= i < |old(pool)| ==> F1(old(pool)[i]) <= F1(parent)
      ensures F1(parent) >= 0.7 ==> chosen == [] && negatives == old(negatives)
      ensures F1(parent) < 0.7 ==>
        var r := Refine(ground, env.expand, Restricted(env, parent.graph), [], false, F1(parent));
        chosen == r.0 && negatives == old(negatives) + r.1
      ensures forall i :: 0 <= i < |chosen| ==> F1(chosen[i]) > F1(parent)
      ensures chosen != [] ==> pool == SortDesc(F1, old(pool)[1..] + chosen) && positives == old(positives)
      ensures chosen == [] ==> pool == old(pool)[1..] && positives == old(positives) + [parent]
      ensures iterations == old(iterations) + 1
    {
      iterations := iterations + 1;
      parent := pool[0];
      pool := pool[1..];
      var master := parent.prf.f1;
      chosen := [];
      if master < 0.7 {
        var restricted := Restricted(env, parent.graph);
        var refused;
        chosen, refused := RefineWithGold(env, gold, ground, restricted, master);
        GoldGroundsAbove(ground, env, gold);
        RefineAbove(ground, env.expand, restricted, [], false, master, master);
        RefineNegativesZero(ground, env.expand, restricted, [], false, master);
        ZeroedAppend(negatives, refused);
        negatives := negatives + refused;
        if |chosen| > 0 {
          pool := SortDesc(F1, pool + chosen);
        } else {
          positives := positives + [parent];
        }
      } else {
        positives := positives + [parent];
      }
    }

    /** The outer loop of `generate_with_gold`, for at most `fuel` passes; the result is the
        positives followed by the negatives. */
    method Run(fuel: nat) returns (result: seq<Scored>)
      requires Valid()
      modifies this
      ensures Valid()
      ensures result == positives + negatives
      ensures old(positives) <= positives && old(negatives) <= negatives
      ensures !Running() || iterations == old(iterations) + fuel
    {
      var remaining: nat := fuel;
      while remaining > 0 && Running()
        invariant Valid() && remaining <= fuel
        invariant iterations == old(iterations) + (fuel - remaining)
        invariant old(positives) <= positives && old(negatives) <= negatives
      {
        var parent, chosen := Step();
        remaining := remaining - 1;
      }
      result := positives + negatives;
    }
  }

  // ---------------------------------------------------------------------------------------
  // generate_with_model
  // ---------------------------------------------------------------------------------------

  /** The graphs `generate_with_model` grounds for a popped graph: its restrictions, then the
      expansions of each of them. */
  function Suggested(env: Env, g: Graph): seq<Graph> {
    var restricted := Restricted(env, g);
    restricted + FlatMap(env.expand, restricted)
  }

  /** The state of `generate_with_model`. */
  class ModelSearch {
    const env: Env
    const beam: nat
    /** Candidates still to refine, in the order they were queued. */
    var pool: seq<ModelScored>
    /** Every chosen refinement so far. */
    var generated: seq<ModelScored>
    var iterations: nat

    /** Pool scores are at least the seed's -1.0; every generated graph scores above it. */
    ghost predicate Valid()
      reads this
    {
      (forall i :: 0 <= i < |pool| ==> pool[i].score >= -1.0) &&
      (forall i :: 0 <= i < |generated| ==> generated[i].score > -1.0)
    }

    /** The setup of `generate_with_model`: the entities are linked and the graph is the only
        pool entry, with score -1.0. */
    constructor (env: Env, ungrounded: Graph, beam: nat)
      requires LinkSafe(env, ungrounded)
      ensures Valid()
      ensures this.env == env && this.beam == beam
      ensures pool == [ModelScored(Linked(env, ungrounded), -1.0)]
      ensures generated == [] && iterations == 0
    {
      var linked := LinkEntities(env, ungrounded);
      this.env := env;
      this.beam := beam;
      pool := [ModelScored(linked, -1.0)];
      generated := [];
      iterations := 0;
    }

    /** One pass of the loop: the first pool entry is popped, its restrictions and their
        expansions are grounded and scored with its score as the threshold, and the chosen
        ones are appended to the pool (which is not sorted again) and to the generated list.
        A failure of `ground_with_model` ends the search. */
    method Step() returns (parent: ModelScored, outcome: Result<seq<ModelScored>, Failure>)
      requires Valid() && pool != []
      modifies this
      ensures parent == old(pool[0])
      ensures outcome == GroundWithModel(env, Suggested(env, parent.graph), parent.score, beam)
      ensures outcome.Ok? ==>
        Valid() && pool == old(pool[1..]) + outcome.value && generated == old(generated) + outcome.value
      ensures outcome.Ok? ==>
        |outcome.value| <= beam && forall i :: 0 <= i < |outcome.value| ==> outcome.value[i].score > parent.score
      ensures outcome.Err? ==> pool == old(pool[1..]) && generated == old(generated)
      ensures iterations == old(iterations) + 1
    {
      iterations := iterations + 1;
      parent := pool[0];
      pool := pool[1..];
      var masterScore := parent.score;
      var restricted := Restricted(env, parent.graph);
      var suggested := restricted;
      suggested := suggested + FlatMap(env.expand, suggested);
      assert suggested == Suggested(env, parent.graph);
      outcome := GroundWithModel(env, suggested, masterScore, beam);
      if outcome.Ok? {
        var chosen := outcome.value;
        assert forall i :: 0 <= i < |chosen| ==> chosen[i].score > -1.0;
        if |chosen| > 0 {
          pool := pool + chosen;
          generated := generated + chosen;
        } else {
          assert pool + chosen == pool && generated + chosen == generated;
        }
      }
    }

    /** The loop of `generate_with_model`, for at most `fuel` passes: the generated graphs,
        best score first, or the failure that ended the search. */
    method Run(fuel: nat) returns (outcome: Result<seq<ModelScored>, Failure>)
      requires Valid()
      modifies this
      ensures outcome.Ok? ==> Valid() && outcome.value == SortDesc(Score, generated)
      ensures outcome.Ok? ==>
        SortedDesc(Score, outcome.value) && multiset(outcome.value) == multiset(generated) &&
        forall i :: 0 <= i < |outcome.value| ==> outcome.value[i].score > -1.0
      ensures outcome.Ok? ==> pool == [] || iterations == old(iterations) + fuel
      ensures old(generated) <= generated
    {
      var remaining: nat := fuel;
      while remaining > 0 && pool != []
        invariant Valid() && remaining <= fuel
        invariant iterations == old(iterations) + (fuel - remaining)
        invariant old(generated) <= generated
      {
        var parent, stepped := Step();
        if stepped.Err? {
          return Err(stepped.error);
        }
        remaining := remaining - 1;
      }
      var sorted := SortDesc(Score, generated);
      SortDescAbove(Score, generated, -1.0);
      outcome := Ok(sorted);
    }
  }
}
