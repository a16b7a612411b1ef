/** Entity enrichment: `link_entities_in_graph`, `add_canonical_labels_to_entities` and
    `post_process_answers_given_graph` (questionanswering/construction/staged_generation.py).
    The program changes the entity tuples, edge dictionaries and answer lists in place; the
    methods here work on the values and return the changed value. */
module Enrichment {

  import opened Options
  import opened Lists
  import opened Strings
  import opened Graphs

  // ---------------------------------------------------------------------------------------
  // add_canonical_labels_to_entities
  // ---------------------------------------------------------------------------------------

  /** One edge of `add_canonical_labels_to_entities`: an edge with a right-hand entity and no
      `canonical_right` gets the entity's label, when the label service has a non-empty one. */
  function LabelEdge(env: Env, e: Edge): Edge {
    if e.rightkbID.Some? && e.canonicalRight.None? then
      match env.labelEntity(e.rightkbID.value)
      case Some(name) => if name != "" then e.(canonicalRight := Some(name)) else e
      case None => e
    else e
  }

  /** The graph `add_canonical_labels_to_entities(g)` leaves behind. */
  function Labelled(env: Env, g: Graph): Graph {
    g.(edgeSet := seq(|g.edgeSet|, i requires 0 <= i < |g.edgeSet| => LabelEdge(env, g.edgeSet[i])))
  }

  /** `add_canonical_labels_to_entities`. */
  method AddCanonicalLabels(env: Env, g: Graph) returns (labelled: Graph)
    ensures labelled == Labelled(env, g)
  {
    labelled := g;
    var i := 0;
    while i < |labelled.edgeSet|
      invariant i <= |labelled.edgeSet| == |g.edgeSet|
      invariant labelled == g.(edgeSet := labelled.edgeSet)
      invariant forall j :: 0 <= j < i ==> labelled.edgeSet[j] == LabelEdge(env, g.edgeSet[j])
      invariant forall j :: i <= j < |g.edgeSet| ==> labelled.edgeSet[j] == g.edgeSet[j]
    {
      var edge := labelled.edgeSet[i];
      var entityKbID := edge.rightkbID;
      if entityKbID.Some? && edge.canonicalRight.None? {
        var entityLabel := env.labelEntity(entityKbID.value);
        if entityLabel.Some? && entityLabel.value != "" {
          edge := edge.(canonicalRight := Some(entityLabel.value));
        }
      }
      labelled := labelled.(edgeSet := labelled.edgeSet[i := edge]);
      i := i + 1;
    }
  }

  /** Labelling changes nothing but `canonical_right`, and changes it exactly on the edges that
      have a right-hand entity, no label yet, and a non-empty label from the service. */
  lemma LabelledChanges(env: Env, g: Graph)
    ensures var r := Labelled(env, g);
      r == g.(edgeSet := r.edgeSet) && |r.edgeSet| == |g.edgeSet| &&
      forall i :: 0 <= i < |g.edgeSet| ==>
        var e, f := g.edgeSet[i], r.edgeSet[i];
        f == e.(canonicalRight := f.canonicalRight) &&
        (f != e <==> e.rightkbID.Some? && e.canonicalRight.None? &&
                     env.labelEntity(e.rightkbID.value).Some? && env.labelEntity(e.rightkbID.value).value != "") &&
        (f != e ==> f.canonicalRight == env.labelEntity(e.rightkbID.value))
  {
  }

  /** Labelling twice is labelling once: a labelled edge is never relabelled. */
  lemma LabelledIdempotent(env: Env, g: Graph)
    ensures Labelled(env, Labelled(env, g)) == Labelled(env, g)
  {
    var r := Labelled(env, g);
    assert forall i :: 0 <= i < |r.edgeSet| ==> LabelEdge(env, r.edgeSet[i]) == r.edgeSet[i];
  }

  /** `[add_canonical_labels_to_entities(g) for g in gs]`. */
  function LabelledAll(env: Env, gs: seq<Graph>): (r: seq<Graph>)
    ensures |r| == |gs|
  {
    seq(|gs|, i requires 0 <= i < |gs| => Labelled(env, gs[i]))
  }

  // ---------------------------------------------------------------------------------------
  // post_process_answers_given_graph
  // ---------------------------------------------------------------------------------------

  /** The edge denotes "official language": its base relation is P37. */
  predicate IsLanguageEdge(e: Edge) {
    Base(e.kbID) == "P37"
  }

  /** The edge denotes a performer, character role or cast member (P175, P453, P161). */
  predicate IsCharacterEdge(e: Edge) {
    Base(e.kbID) in {"P175", "P453", "P161"}
  }

  /** `[e for e in edges if e.get("kbID", "")[:-1] == "P37"]`. */
  function LanguageEdges(es: seq<Edge>): (r: seq<Edge>)
    ensures forall i :: 0 <= i < |r| ==> IsLanguageEdge(r[i])
    ensures r == [] <==> forall i :: 0 <= i < |es| ==> !IsLanguageEdge(es[i])
  {
    if es == [] then []
    else
      assert forall i :: 1 <= i < |es| ==> es[i] == es[1..][i - 1];
      (if IsLanguageEdge(es[0]) then [es[0]] else []) + LanguageEdges(es[1..])
  }

  /** Some answer already mentions "language", ignoring case. */
  predicate MentionsLanguage(answers: seq<string>) {
    exists i :: 0 <= i < |answers| && Contains(Lower(answers[i]), "language")
  }

  /** `[a + " language" for a in answers]`. */
  function LanguageVariants(answers: seq<string>): (r: seq<string>)
    ensures |r| == |answers|
    ensures forall i :: 0 <= i < |answers| ==> r[i] == answers[i] + " language"
  {
    seq(|answers|, i requires 0 <= i < |answers| => answers[i] + " language")
  }

  /** One answer set after the language rule has extended it. */
  function WithLanguage(answers: seq<string>): seq<string> {
    if !MentionsLanguage(answers) then answers + LanguageVariants(answers) else answers
  }

  /** The set the language rule appends after visiting `answers` (already extended): the
      demonym variants, when "english" is an answer, the language edge has a right-hand entity,
      and the demonym query finds a row. */
  function DemonymSets(env: Env, entity: Option<Id>, answers: seq<string>): seq<seq<string>> {
    if "english" in answers && entity.Some? && env.demonyms(entity.value) != [] then
      var demonym := Lower(env.demonyms(entity.value)[0]);
      [[demonym + " english", demonym + " english language"]]
    else []
  }

  /** The sets appended while visiting each of `ms` in turn. */
  function DemonymsOf(env: Env, entity: Option<Id>, ms: seq<seq<string>>): (r: seq<seq<string>>)
    ensures |r| <= |ms|
  {
    if ms == [] then [] else DemonymSets(env, entity, WithLanguage(ms[0])) + DemonymsOf(env, entity, ms[1..])
  }

  lemma {:induction false} DemonymsOfAppend(env: Env, entity: Option<Id>, a: seq<seq<string>>, b: seq<seq<string>>)
    ensures DemonymsOf(env, entity, a + b) == DemonymsOf(env, entity, a) + DemonymsOf(env, entity, b)
  {
    if a == [] {
      assert a + b == b;
    } else {
      assert (a + b)[1..] == a[1..] + b;
      DemonymsOfAppend(env, entity, a[1..], b);
    }
  }

  /** A set the language rule leaves alone when it visits it: it already mentions "language"
      and does not hold "english". */
  predicate Inert(answers: seq<string>) {
    MentionsLanguage(answers) && "english" !in answers
  }

  /** A demonym set already mentions "language" and does not hold "english". */
  lemma DemonymSetInert(demonym: string)
    ensures Inert([demonym + " english", demonym + " english language"])
  {
    var s := [demonym + " english", demonym + " english language"];
    assert demonym + " english language" == (demonym + " english ") + "language";
    LowerAppend(demonym + " english ", "language");
    assert Lower("language") == "language";
    ContainsSuffix(Lower(demonym + " english "), "language");
    assert Contains(Lower(s[1]), "language");
    assert |s[0]| > 7 && |s[1]| > 7;
  }

  /** The appended demonym sets are visited by the same loop, and the rule does nothing to them. */
  lemma {:induction false} DemonymsInert(env: Env, entity: Option<Id>, ms: seq<seq<string>>)
    ensures forall i :: 0 <= i < |DemonymsOf(env, entity, ms)| ==> Inert(DemonymsOf(env, entity, ms)[i])
  {
    if ms != [] {
      DemonymsInert(env, entity, ms[1..]);
      var here := DemonymSets(env, entity, WithLanguage(ms[0]));
      if here != [] {
        DemonymSetInert(Lower(env.demonyms(entity.value)[0]));
      }
      assert DemonymsOf(env, entity, ms) == here + DemonymsOf(env, entity, ms[1..]);
    }
  }

  /** `[a.split()[0].strip() for a in answers if len(a.split()) > 0]`. */
  function FirstTokens(answers: seq<string>): seq<string> {
    if answers == [] then []
    else (match FirstToken(answers[0]) case Some(w) => [w] case None => []) + FirstTokens(answers[1..])
  }

  /** The answer lists after the language rule, for a graph whose first P37 edge points at `entity`. */
  function LanguageApplied(env: Env, entity: Option<Id>, ms: seq<seq<string>>): seq<seq<string>> {
    Map(WithLanguage, ms) + DemonymsOf(env, entity, ms)
  }

  /** `[s + first tokens of s for s in ms]`. */
  function FirstTokensAdded(ms: seq<seq<string>>): (r: seq<seq<string>>)
    ensures |r| == |ms|
    ensures forall i :: 0 <= i < |ms| ==> r[i] == ms[i] + FirstTokens(ms[i])
  {
    seq(|ms|, i requires 0 <= i < |ms| => ms[i] + FirstTokens(ms[i]))
  }

  /** The answer lists `post_process_answers_given_graph(ms, g)` returns. */
  function PostProcessed(env: Env, ms: seq<seq<string>>, g: Graph): seq<seq<string>> {
    var language := LanguageEdges(g.edgeSet);
    var afterLanguage := if language != [] then LanguageApplied(env, language[0].rightkbID, ms) else ms;
    if exists i :: 0 <= i < |g.edgeSet| && IsCharacterEdge(g.edgeSet[i]) then FirstTokensAdded(afterLanguage)
    else afterLanguage
  }

  /** The state of the language loop before it visits set `i` of the original `ms`. */
  function LanguagePrefix(env: Env, entity: Option<Id>, ms: seq<seq<string>>, i: nat): seq<seq<string>>
    requires i <= |ms|
  {
    Map(WithLanguage, ms[..i]) + ms[i..] + DemonymsOf(env, entity, ms[..i])
  }

  /** Visiting original set `i` extends it in place and appends its demonym sets. */
  lemma LanguagePrefixStep(env: Env, entity: Option<Id>, ms: seq<seq<string>>, i: nat)
    requires i < |ms|
    ensures var before := LanguagePrefix(env, entity, ms, i);
      i < |before| && before[i] == ms[i] &&
      LanguagePrefix(env, entity, ms, i + 1) ==
        before[i := WithLanguage(ms[i])] + DemonymSets(env, entity, WithLanguage(ms[i]))
  {
    var done := Map(WithLanguage, ms[..i]);
    var added := DemonymsOf(env, entity, ms[..i]);
    var x := WithLanguage(ms[i]);
    var rest := ms[i + 1..];
    var extra := DemonymSets(env, entity, x);
    assert ms[..i + 1] == ms[..i] + [ms[i]];
    assert ms[i..] == [ms[i]] + rest;
    DemonymsOfAppend(env, entity, ms[..i], [ms[i]]);
    assert DemonymsOf(env, entity, [ms[i]]) == extra;
    assert Map(WithLanguage, ms[..i + 1]) == done + [x];
    assert |done| == i;
    assert LanguagePrefix(env, entity, ms, i) == done + ([ms[i]] + rest) + added;
    assert LanguagePrefix(env, entity, ms, i + 1) == (done + [x]) + rest + (added + extra);
    UpdateAt(done, ms[i], x, rest, added, extra);
  }

  /** Replacing the element after `a` in `a + [y] + b + c` and appending `d`. */
  lemma UpdateAt<T>(a: seq<T>, y: T, x: T, b: seq<T>, c: seq<T>, d: seq<T>)
    ensures |a| < |a + ([y] + b) + c| && (a + ([y] + b) + c)[|a| := x] + d == (a + [x]) + b + (c + d)
  {
    assert (a + ([y] + b) + c)[|a| := x] == a + [x] + b + c;
  }

  /** Once every original set is visited, the loop state is the finished result. */
  lemma LanguagePrefixDone(env: Env, entity: Option<Id>, ms: seq<seq<string>>)
    ensures LanguagePrefix(env, entity, ms, |ms|) == LanguageApplied(env, entity, ms)
  {
    assert ms[..|ms|] == ms;
    assert ms[|ms|..] == [];
  }

  /** Visiting an appended set changes nothing. */
  lemma LanguageAppendedInert(env: Env, entity: Option<Id>, ms: seq<seq<string>>, i: nat)
    requires |ms| <= i < |LanguageApplied(env, entity, ms)|
    ensures var s := LanguageApplied(env, entity, ms)[i];
      WithLanguage(s) == s && DemonymSets(env, entity, s) == []
  {
    DemonymsInert(env, entity, ms);
    assert LanguageApplied(env, entity, ms)[i] == DemonymsOf(env, entity, ms)[i - |ms|];
  }

  /** One pass of the language loop: set `i` is extended in place and its demonym set, if any,
      is appended. */
  method VisitAnswerSet(env: Env, entity: Option<Id>, ms: seq<seq<string>>, i: nat) returns (result: seq<seq<string>>)
    requires i < |ms|
    ensures result == ms[i := WithLanguage(ms[i])] + DemonymSets(env, entity, WithLanguage(ms[i]))
  {
    var answerSet := ms[i];
    if !MentionsLanguage(answerSet) {
      answerSet := answerSet + LanguageVariants(answerSet);
    }
    result := ms[i := answerSet];
    if "english" in answerSet && entity.Some? {
      var demonym := env.demonyms(entity.value);
      if demonym != [] {
        var lowered := Lower(demonym[0]);
        result := result + [[lowered + " english", lowered + " english language"]];
      }
    }
  }

  /** The language loop of `post_process_answers_given_graph`, which also visits the sets it
      appends. */
  method ApplyLanguageRule(env: Env, entity: Option<Id>, ms: seq<seq<string>>) returns (result: seq<seq<string>>)
    ensures result == LanguageApplied(env, entity, ms)
  {
    result := ms;
    var n := |ms|;
    var i := 0;
    assert ms[..0] == [] && ms[0..] == ms;
    while i < |result|
      invariant i <= |result|
      invariant i <= n ==> result == LanguagePrefix(env, entity, ms, i)
      invariant i > n ==> result == LanguageApplied(env, entity, ms)
      decreases if i < n then n - i else 0, |result| - i
    {
      if i < n {
        LanguagePrefixStep(env, entity, ms, i);
      } else {
        if i == n {
          LanguagePrefixDone(env, entity, ms);
        }
        LanguageAppendedInert(env, entity, ms, i);
      }
      result := VisitAnswerSet(env, entity, result, i);
      i := i + 1;
    }
    if i <= n {
      LanguagePrefixDone(env, entity, ms);
    }
  }

  /** The character-role loop of `post_process_answers_given_graph`. */
  method ApplyCharacterRule(ms: seq<seq<string>>) returns (result: seq<seq<string>>)
    ensures result == FirstTokensAdded(ms)
  {
    result := ms;
    var j := 0;
    while j < |result|
      invariant j <= |result| == |ms|
      invariant forall m :: 0 <= m < j ==> result[m] == ms[m] + FirstTokens(ms[m])
      invariant forall m :: j <= m < |result| ==> result[m] == ms[m]
    {
      result := result[j := result[j] + FirstTokens(result[j])];
      j := j + 1;
    }
  }

  /** `post_process_answers_given_graph`. */
  method PostProcessAnswers(env: Env, ms: seq<seq<string>>, g: Graph) returns (result: seq<seq<string>>)
    ensures result == PostProcessed(env, ms, g)
  {
    result := ms;
    var relevant := LanguageEdges(g.edgeSet);
    if |relevant| > 0 {
      result := ApplyLanguageRule(env, relevant[0].rightkbID, result);
    }
    var relevantCharacter := exists i :: 0 <= i < |g.edgeSet| && IsCharacterEdge(g.edgeSet[i]);
    if relevantCharacter {
      result := ApplyCharacterRule(result);
    }
  }

  /** Post-processing only adds: the result has at least as many sets, each original set is a
      prefix of its processed version, and every original answer is kept. */
  lemma PostProcessExtends(env: Env, ms: seq<seq<string>>, g: Graph)
    ensures var r := PostProcessed(env, ms, g);
      |r| >= |ms| && forall i :: 0 <= i < |ms| ==> |ms[i]| <= |r[i]| && r[i][..|ms[i]|] == ms[i]
  {
    var language := LanguageEdges(g.edgeSet);
    var afterLanguage := if language != [] then LanguageApplied(env, language[0].rightkbID, ms) else ms;
    assert forall i :: 0 <= i < |ms| ==> |ms[i]| <= |afterLanguage[i]| && afterLanguage[i][..|ms[i]|] == ms[i];
    var r := PostProcessed(env, ms, g);
    forall i | 0 <= i < |ms|
      ensures |ms[i]| <= |r[i]| && r[i][..|ms[i]|] == ms[i]
    {
      if r[i] != afterLanguage[i] {
        assert r[i] == afterLanguage[i] + FirstTokens(afterLanguage[i]);
        assert r[i][..|afterLanguage[i]|] == afterLanguage[i];
        assert r[i][..|ms[i]|] == afterLanguage[i][..|ms[i]|];
      }
    }
  }

  /** The language rule, when the graph has a P37 edge: a set in which no answer mentions
      "language" gains `a + " language"` for each of its answers, in order, after them; each
      set holding "english" (after that) adds one demonym set at the end when the edge has a
      right-hand entity with a demonym; nothing else is added. */
  lemma PostProcessLanguage(env: Env, ms: seq<seq<string>>, g: Graph)
    requires LanguageEdges(g.edgeSet) != []
    requires forall i :: 0 <= i < |g.edgeSet| ==> !IsCharacterEdge(g.edgeSet[i])
    ensures var r := PostProcessed(env, ms, g);
      var entity := LanguageEdges(g.edgeSet)[0].rightkbID;
      |r| == |ms| + |DemonymsOf(env, entity, ms)| &&
      (forall i :: 0 <= i < |ms| ==>
        r[i] == if MentionsLanguage(ms[i]) then ms[i] else ms[i] + LanguageVariants(ms[i])) &&
      (forall i :: 0 <= i < |ms| && "english" in ms[i] && entity.Some? && env.demonyms(entity.value) != [] ==>
        DemonymSets(env, entity, r[i]) != []) &&
      (entity.None? ==> |r| == |ms|)
  {
    var entity := LanguageEdges(g.edgeSet)[0].rightkbID;
    if entity.None? {
      NoDemonymsWithoutEntity(env, ms);
    }
  }

  lemma {:induction false} NoDemonymsWithoutEntity(env: Env, ms: seq<seq<string>>)
    ensures DemonymsOf(env, None, ms) == []
  {
    if ms != [] {
      NoDemonymsWithoutEntity(env, ms[1..]);
    }
  }

  /** The character rule, when the graph has a P175, P453 or P161 edge: every set, the appended
      demonym sets included, gains the first whitespace token of each of its non-blank answers. */
  lemma PostProcessCharacter(env: Env, ms: seq<seq<string>>, g: Graph)
    requires exists i :: 0 <= i < |g.edgeSet| && IsCharacterEdge(g.edgeSet[i])
    ensures var r := PostProcessed(env, ms, g);
      var language := LanguageEdges(g.edgeSet);
      var before := if language != [] then LanguageApplied(env, language[0].rightkbID, ms) else ms;
      |r| == |before| && forall i :: 0 <= i < |r| ==> r[i] == before[i] + FirstTokens(before[i])
  {
  }

  /** The doctest of `post_process_answers_given_graph`, for a service whose demonym of Q843 is
      "Pakistani". */
  lemma PostProcessExample(env: Env)
    requires env.demonyms("Q843") == ["Pakistani"]
    ensures PostProcessed(env, [["eng", "english"]], Graph([EmptyEdge.(kbID := Some("P37v"), rightkbID := Some("Q843"))], [], [], None))
         == [["eng", "english", "eng language", "english language"], ["pakistani english", "pakistani english language"]]
  {
    var g := Graph([EmptyEdge.(kbID := Some("P37v"), rightkbID := Some("Q843"))], [], [], None);
    assert BaseOf("P37v") == "P37";
    assert LanguageEdges(g.edgeSet) == g.edgeSet;
    assert !IsCharacterEdge(g.edgeSet[0]);
    ExampleLanguage();
    ExampleDemonyms(env);
    assert Map(WithLanguage, [["eng", "english"]]) == [["eng", "english", "eng language", "english language"]];
  }

  lemma ExampleLanguage()
    ensures WithLanguage(["eng", "english"]) == ["eng", "english", "eng language", "english language"]
  {
    assert !MentionsLanguage(["eng", "english"]) by {
      assert Lower("eng") == "eng" && Lower("english") == "english";
    }
    assert "eng" + " language" == "eng language";
    assert "english" + " language" == "english language";
    assert LanguageVariants(["eng", "english"]) == ["eng language", "english language"];
  }

  lemma ExampleDemonyms(env: Env)
    requires env.demonyms("Q843") == ["Pakistani"]
    ensures DemonymsOf(env, Some("Q843"), [["eng", "english"]]) == [["pakistani english", "pakistani english language"]]
  {
    ExampleLanguage();
    var w := WithLanguage(["eng", "english"]);
    assert w[1] == "english";
    assert Lower("Pakistani") == "pakistani";
    assert "pakistani" + " english" == "pakistani english";
    assert "pakistani" + " english language" == "pakistani english language";
    assert DemonymSets(env, Some("Q843"), w) == [["pakistani english", "pakistani english language"]];
    assert [["eng", "english"]][1..] == [];
  }

  // ---------------------------------------------------------------------------------------
  // link_entities_in_graph
  // ---------------------------------------------------------------------------------------

  /** Every entity carries its candidate list. */
  predicate AllLinked(es: seq<Entity>) {
    forall i :: 0 <= i < |es| ==> es[i].IsLinked()
  }

  /** The first loop on one entity: an unlinked entity not tagged CD is linked. */
  function LinkOne(env: Env, e: Entity): Entity {
    if !e.IsLinked() && e.tag != "CD" then e.(linkings := Some(env.linkEntity(e))) else e
  }

  /** The list the first loop builds. */
  function FirstPass(env: Env, es: seq<Entity>): (r: seq<Entity>)
    ensures |r| == |es|
    ensures forall i :: 0 <= i < |es| ==> r[i] == LinkOne(env, es[i])
  {
    seq(|es|, i requires 0 <= i < |es| => LinkOne(env, es[i]))
  }

  /** A linked, single-token PERSON entity, whose candidates get character lookups. */
  predicate IsPersonMention(e: Entity) {
    e.tag == "PERSON" && |e.tokens| == 1 && e.IsLinked()
  }

  /** The positions, from `from` on, of the entities the character lookup visits, in order. */
  function PersonsFrom(es: seq<Entity>, from: nat): (r: seq<nat>)
    ensures forall k :: 0 <= k < |r| ==> from <= r[k] < |es| && IsPersonMention(es[r[k]])
    decreases |es| - from
  {
    if from >= |es| then []
    else (if IsPersonMention(es[from]) then [from] else []) + PersonsFrom(es, from + 1)
  }

  /** Two entries of the list the first loop builds compare equal in the program: the entries
      it linked are new lists, the others are the input's tuples, and a list never equals a
      tuple. `input` is the input entity list, whose linked entries are the kept ones. */
  predicate SameEntry(es: seq<Entity>, input: seq<Entity>, i: nat, j: nat)
    requires |input| == |es| && i < |es| && j < |es|
  {
    es[i] == es[j] && input[i].IsLinked() == input[j].IsLinked()
  }

  /** `[e_id for e in es for e_id in e[2] if e != es[p] and len(e) == 3]`, from position `from` on. */
  function FilmIdsFrom(es: seq<Entity>, input: seq<Entity>, p: nat, from: nat): seq<Id>
    requires AllLinked(es) && p < |es| && |input| == |es|
    decreases |es| - from
  {
    if from >= |es| then []
    else (if !SameEntry(es, input, from, p) then es[from].linkings.value else []) + FilmIdsFrom(es, input, p, from + 1)
  }

  /** The inner loop for one name: for each film in turn, the character hits are put in front of
      the list and the list is cut to `max.entity.options`. */
  function PrependHits(env: Env, name: string, linkings: seq<Id>, films: seq<Id>): seq<Id>
    decreases |films|
  {
    if films == [] then linkings
    else PrependHits(env, name, Take(env.characters(name, films[0]) + linkings, env.maxOptions), films[1..])
  }

  /** The character hits of all films, the last film's first. */
  function HitsLastFirst(env: Env, name: string, films: seq<Id>): seq<Id>
    decreases |films|
  {
    if films == [] then [] else HitsLastFirst(env, name, films[1..]) + env.characters(name, films[0])
  }

  /** Prepending and truncating film by film is prepending all hits (the last film's first) and
      truncating once; so the list never exceeds `max.entity.options` once a film was seen. */
  lemma {:induction false} PrependHitsAtOnce(env: Env, name: string, linkings: seq<Id>, films: seq<Id>)
    requires films != []
    ensures PrependHits(env, name, linkings, films) == Take(HitsLastFirst(env, name, films) + linkings, env.maxOptions)
    ensures |PrependHits(env, name, linkings, films)| <= env.maxOptions
    decreases |films|
  {
    var h := env.characters(name, films[0]);
    var n := env.maxOptions;
    if films[1..] == [] {
      assert HitsLastFirst(env, name, films) == [] + h;
    } else {
      PrependHitsAtOnce(env, name, Take(h + linkings, n), films[1..]);
      var rest := HitsLastFirst(env, name, films[1..]);
      TakePrependTake(rest, h + linkings, n);
      assert rest + (h + linkings) == (rest + h) + linkings;
    }
  }

  /** The character loop: each visited person, in order, gets the hits for every film id of the
      other linked entities as they are at that moment. */
  function CharacterPass(env: Env, es: seq<Entity>, input: seq<Entity>, persons: seq<nat>): (r: seq<Entity>)
    requires AllLinked(es) && |input| == |es|
    requires forall k :: 0 <= k < |persons| ==> persons[k] < |es|
    ensures |r| == |es| && AllLinked(r)
    decreases |persons|
  {
    if persons == [] then es
    else
      var p := persons[0];
      var films := FilmIdsFrom(es, input, p, 0);
      var updated := PrependHits(env, Join(es[p].tokens, " "), es[p].linkings.value, films);
      CharacterPass(env, es[p := es[p].(linkings := Some(updated))], input, persons[1..])
  }

  /** The graph `link_entities_in_graph(g)` returns. */
  function Linked(env: Env, g: Graph): Graph
    requires LinkSafe(env, g)
  {
    if AllLinked(g.entities) then g
    else
      var linked := FirstPass(env, g.entities);
      var persons := PersonsFrom(linked, 0);
      if HasMarker(env.markers, g.tokens) && persons != [] then g.(entities := CharacterPass(env, linked, g.entities, persons))
      else g.(entities := linked)
  }

  /** The program does not fail. When a marker word is present and some person is visited,
      the film-id comprehension reads `e[2]` of every entity, so every entity must be linked
      after the first loop (no entity tagged CD may be left unlinked); and a visited person
      that arrived linked is still the input's tuple, so its candidates cannot be assigned:
      it must find no film id. */
  predicate LinkSafe(env: Env, g: Graph) {
    var linked := FirstPass(env, g.entities);
    var persons := PersonsFrom(linked, 0);
    !AllLinked(g.entities) && HasMarker(env.markers, g.tokens) && persons != [] ==>
      AllLinked(linked) &&
      forall k :: 0 <= k < |persons| && g.entities[persons[k]].IsLinked() ==>
        FilmIdsFrom(CharacterPass(env, linked, g.entities, persons[..k]), g.entities, persons[k], 0) == []
  }

  /** A person that arrives linked, next to a film the first loop links, makes the program
      raise on line 118 of `staged_generation.py`: such a graph is not safe. */
  lemma LinkedPersonUnsafe(env: Env)
    requires "on" in env.markers
    requires env.linkEntity(Entity(["Twilight"], "NNP", None)) == ["Q44523"]
    ensures !LinkSafe(env, Graph([], [Entity(["Bella"], "PERSON", Some(["Q1"])), Entity(["Twilight"], "NNP", None)],
                                 ["who", "plays", "bella", "on", "twilight", "?"], None))
  {
    var input := [Entity(["Bella"], "PERSON", Some(["Q1"])), Entity(["Twilight"], "NNP", None)];
    var g := Graph([], input, ["who", "plays", "bella", "on", "twilight", "?"], None);
    var linked := FirstPass(env, input);
    assert linked == [input[0], Entity(["Twilight"], "NNP", Some(["Q44523"]))];
    assert HasMarker(env.markers, g.tokens) by { assert "on" in g.tokens; }
    assert PersonsFrom(linked, 2) == [];
    assert PersonsFrom(linked, 1) == [];
    assert PersonsFrom(linked, 0) == [0];
    assert FilmIdsFrom(linked, input, 0, 2) == [];
    assert FilmIdsFrom(linked, input, 0, 0) == ["Q44523"];
    assert CharacterPass(env, linked, input, [0][..0]) == linked;
  }

  /** The first loop of `link_entities_in_graph`. */
  method LinkMentions(env: Env, es: seq<Entity>) returns (entities: seq<Entity>)
    ensures entities == FirstPass(env, es)
  {
    entities := [];
    var i := 0;
    while i < |es|
      invariant i <= |es|
      invariant entities == FirstPass(env, es)[..i]
    {
      var entity := es[i];
      if !entity.IsLinked() && entity.tag != "CD" {
        var linkings := env.linkEntity(entity);
        entities := entities + [entity.(linkings := Some(linkings))];
      } else {
        entities := entities + [entity];
      }
      i := i + 1;
    }
  }

  /** The innermost loop of `link_entities_in_graph`, on the candidate list of one person. */
  method PrependCharacters(env: Env, name: string, linkings: seq<Id>, films: seq<Id>) returns (updated: seq<Id>)
    ensures updated == PrependHits(env, name, linkings, films)
  {
    updated := linkings;
    var f := 0;
    while f < |films|
      invariant f <= |films|
      invariant PrependHits(env, name, updated, films[f..]) == PrependHits(env, name, linkings, films)
    {
      var characterLinkings := env.characters(name, films[f]);
      updated := characterLinkings + updated;
      updated := Take(updated, env.maxOptions);
      assert films[f..][1..] == films[f + 1..];
      f := f + 1;
    }
  }

  /** `link_entities_in_graph`. */
  method LinkEntities(env: Env, g: Graph) returns (linked: Graph)
    requires LinkSafe(env, g)
    ensures linked == Linked(env, g)
  {
    if AllLinked(g.entities) {
      return g;
    }
    var entities := LinkMentions(env, g.entities);
    var persons := PersonsFrom(entities, 0);
    if HasMarker(env.markers, g.tokens) && persons != [] {
      entities := LinkCharacters(env, entities, g.entities, persons);
    }
    linked := g.(entities := entities);
  }

  /** The second loop of `link_entities_in_graph`: each person mention in turn gets the
      characters it plays in the films the other mentions may denote. */
  method LinkCharacters(env: Env, es: seq<Entity>, input: seq<Entity>, persons: seq<nat>) returns (entities: seq<Entity>)
    requires AllLinked(es) && |input| == |es|
    requires forall k :: 0 <= k < |persons| ==> persons[k] < |es|
    ensures entities == CharacterPass(env, es, input, persons)
  {
    entities := es;
    var k := 0;
    while k < |persons|
      invariant k <= |persons|
      invariant |entities| == |es| && AllLinked(entities)
      invariant CharacterPass(env, entities, input, persons[k..]) == CharacterPass(env, es, input, persons)
    {
      var p := persons[k];
      var films := FilmIdsFrom(entities, input, p, 0);
      var name := Join(entities[p].tokens, " ");
      var updated := PrependCharacters(env, name, entities[p].linkings.value, films);
      entities := entities[p := entities[p].(linkings := Some(updated))];
      assert persons[k..][1..] == persons[k + 1..];
      k := k + 1;
    }
  }

  /** Idempotence: a graph whose entities all carry their candidates (none at all included) is
      returned as it is. */
  lemma LinkAlreadyLinked(env: Env, g: Graph)
    requires AllLinked(g.entities)
    ensures LinkSafe(env, g) && Linked(env, g) == g
  {
  }

  /** The character loop changes only the candidate lists of visited persons; a visited person
      whose candidates changed holds at most `max.entity.options` of them. */
  lemma {:induction false} CharacterPassShape(env: Env, es: seq<Entity>, input: seq<Entity>, persons: seq<nat>)
    requires AllLinked(es) && |input| == |es|
    requires forall k :: 0 <= k < |persons| ==> persons[k] < |es|
    ensures var r := CharacterPass(env, es, input, persons);
      forall i :: 0 <= i < |es| ==>
        r[i].tokens == es[i].tokens && r[i].tag == es[i].tag &&
        (i !in persons ==> r[i] == es[i]) &&
        (r[i] != es[i] ==> |r[i].linkings.value| <= env.maxOptions)
    decreases |persons|
  {
    if persons != [] {
      var p := persons[0];
      var films := FilmIdsFrom(es, input, p, 0);
      var updated := PrependHits(env, Join(es[p].tokens, " "), es[p].linkings.value, films);
      var next := es[p := es[p].(linkings := Some(updated))];
      CharacterPassShape(env, next, input, persons[1..]);
      if films != [] {
        PrependHitsAtOnce(env, Join(es[p].tokens, " "), es[p].linkings.value, films);
      }
      forall i | 0 <= i < |es| && i !in persons ensures i !in persons[1..] && i != p {
        assert persons == [p] + persons[1..];
      }
    }
  }

  /** The character loop leaves entity `i` as it is when every visit of `i` finds no film id:
      with no film, the inner loop never runs and the candidate list is reassigned to itself. */
  lemma {:induction false} PassKeepsUnvisited(env: Env, es: seq<Entity>, input: seq<Entity>, persons: seq<nat>, i: nat)
    requires AllLinked(es) && |input| == |es| && i < |es|
    requires forall k :: 0 <= k < |persons| ==> persons[k] < |es|
    requires forall k :: 0 <= k < |persons| && persons[k] == i ==>
      FilmIdsFrom(CharacterPass(env, es, input, persons[..k]), input, i, 0) == []
    ensures CharacterPass(env, es, input, persons)[i] == es[i]
    decreases |persons|
  {
    if persons != [] {
      var p := persons[0];
      var films := FilmIdsFrom(es, input, p, 0);
      var next := es[p := es[p].(linkings := Some(PrependHits(env, Join(es[p].tokens, " "), es[p].linkings.value, films)))];
      if p == i {
        assert persons[..0] == [];
        assert films == [];
      }
      assert next[i] == es[i];
      forall k | 0 <= k < |persons[1..]| && persons[1..][k] == i
        ensures FilmIdsFrom(CharacterPass(env, next, input, persons[1..][..k]), input, i, 0) == []
      {
        assert persons[..k + 1][0] == p && persons[..k + 1][1..] == persons[1..][..k];
        assert CharacterPass(env, es, input, persons[..k + 1]) == CharacterPass(env, next, input, persons[1..][..k]);
      }
      PassKeepsUnvisited(env, next, input, persons[1..], i);
    }
  }

  /** Linking keeps the entities' number, order, tokens and tags; it leaves CD-tagged entities
      and already linked entities as they were; it links every other entity; without a marker
      word it touches no entity that was already linked; and a single-token PERSON whose list
      the character lookup changed holds at most `max.entity.options` candidates. */
  lemma LinkedEntities(env: Env, g: Graph)
    requires LinkSafe(env, g)
    ensures var r := Linked(env, g).entities;
      |r| == |g.entities| &&
      forall i :: 0 <= i < |g.entities| ==>
        var e := g.entities[i];
        r[i].tokens == e.tokens && r[i].tag == e.tag &&
        (e.tag == "CD" && !e.IsLinked() ==> r[i] == e) &&
        (e.IsLinked() ==> r[i] == e) &&
        (e.tag != "CD" ==> r[i].IsLinked()) &&
        (!HasMarker(env.markers, g.tokens) ==> r[i] == LinkOne(env, e)) &&
        (!IsPersonMention(LinkOne(env, e)) ==> r[i] == LinkOne(env, e)) &&
        (r[i] != LinkOne(env, e) ==> |r[i].linkings.value| <= env.maxOptions)
  {
    if !AllLinked(g.entities) && HasMarker(env.markers, g.tokens) {
      var linked := FirstPass(env, g.entities);
      var persons := PersonsFrom(linked, 0);
      if persons != [] {
        CharacterPassShape(env, linked, g.entities, persons);
        assert forall i :: 0 <= i < |g.entities| && !IsPersonMention(linked[i]) ==> i !in persons;
        forall i | 0 <= i < |g.entities| && g.entities[i].IsLinked()
          ensures CharacterPass(env, linked, g.entities, persons)[i] == g.entities[i]
        {
          PassKeepsUnvisited(env, linked, g.entities, persons, i);
        }
      }
    }
  }

  /** Linking a graph twice is linking it once, when no unlinked entity is tagged CD. */
  lemma LinkTwice(env: Env, g: Graph)
    requires LinkSafe(env, g)
    requires forall i :: 0 <= i < |g.entities| ==> g.entities[i].IsLinked() || g.entities[i].tag != "CD"
    ensures LinkSafe(env, Linked(env, g)) && Linked(env, Linked(env, g)) == Linked(env, g)
  {
    LinkedEntities(env, g);
  }
}
