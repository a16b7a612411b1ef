/** The records the search works on. In the program they are loosely typed dictionaries; here
    every key the core reads or writes is a field, and a key whose mere presence matters
    (`hopUp`, `hopDown`) is a `Slot` that tells "missing" from "present with `None`". */
module Graphs {

  import opened Options
  import Lists

  /** A Wikidata identifier (`Q42`, `P31v`). Never empty: the code reads its last character. */
  type Id = s: string | |s| > 0 witness "Q"

  /** The values the `type` key of an edge takes. */
  datatype EdgeType = Direct | Reverse | VStructure | Time

  /** A dictionary key that may be missing, present with `None`, or present with a value. */
  datatype Slot<T> = Absent | Present(content: Option<T>) {
    /** `d.get(key)`. */
    function Get(): Option<T> {
      if Present? then content else None
    }
  }

  /** One edge of a query graph. A missing `type`, `kbID`, `rightkbID` or `canonical_right`
      key is `None`. */
  datatype Edge = Edge(
    edgeType: Option<EdgeType>,
    kbID: Option<Id>,
    rightkbID: Option<Id>,
    hopUp: Slot<Id>,
    hopDown: Slot<Id>,
    canonicalRight: Option<string>)
  {
    /** `not('type' in e and 'kbID' in e)`: the edge still needs a relation. */
    predicate IsFree() {
      !(edgeType.Some? && kbID.Some?)
    }

    /** `'hopUp' in e or 'hopDown' in e`. */
    predicate HasHop() {
      hopUp.Present? || hopDown.Present?
    }
  }

  /** An edge without any key. */
  const EmptyEdge := Edge(None, None, None, Absent, Absent, None)

  /** An entity mention: its tokens, a coarse tag, and after linking (a third element in the
      program's tuple) the ranked list of candidate identifiers. */
  datatype Entity = Entity(tokens: seq<string>, tag: string, linkings: Option<seq<Id>>) {
    /** `len(e) == 3`. */
    predicate IsLinked() {
      linkings.Some?
    }
  }

  /** A query graph. A missing `entities` or `tokens` key reads as the empty list, a missing
      `filter` as `None`. */
  datatype Graph = Graph(edgeSet: seq<Edge>, entities: seq<Entity>, tokens: seq<string>, filter: Option<string>)

  /** `graph.copy_graph(g)`: the copy carries `'entities': []` and everything else of `g`. */
  function Copy(g: Graph): Graph {
    g.(entities := [])
  }

  /** The free edges of `es`, in order. */
  function FreeEdges(es: seq<Edge>): (r: seq<Edge>)
    ensures |r| <= |es|
    ensures forall i :: 0 <= i < |r| ==> r[i].IsFree()
  {
    if es == [] then [] else (if es[0].IsFree() then [es[0]] else []) + FreeEdges(es[1..])
  }

  /** `kbID[:-1]` on a present identifier: the relation without its one-letter suffix. */
  function BaseOf(kb: Id): string {
    kb[..|kb| - 1]
  }

  /** `e.get("kbID", "")[:-1]`. */
  function Base(kb: Option<Id>): string {
    if kb.Some? then BaseOf(kb.value) else ""
  }

  /** `e.get("kbID", " ")[-1] in 'qr'`: the relation is a qualifier. */
  predicate IsQualifier(kb: Option<Id>) {
    kb.Some? && kb.value[|kb.value| - 1] in "qr"
  }

  /** `e.get('type') in {'direct', 'reverse', 'v-structure'}`. */
  predicate IsFirstOrder(t: Option<EdgeType>) {
    t == Some(Direct) || t == Some(Reverse) || t == Some(VStructure)
  }

  /** `any(w in set(tokens) for w in markers)`. */
  predicate HasMarker(markers: set<string>, tokens: seq<string>) {
    exists w :: w in markers && w in tokens
  }

  // ---------------------------------------------------------------------------------------
  // Groundings
  // ---------------------------------------------------------------------------------------

  /** The suffix letter of a relation variable: `d`, `r` or `v`. */
  datatype Role = RoleDirect | RoleReverse | RoleVStructure {
    function AsType(): EdgeType {
      match this
      case RoleDirect => Direct
      case RoleReverse => Reverse
      case RoleVStructure => VStructure
    }
  }

  /** A variable name of a grounding: `r{i}d`/`r{i}r`/`r{i}v` (the relation of edge `i`),
      `hop{i}v` (its auxiliary hop) and `e2{i}` (its right-hand entity). */
  datatype Key = Rel(i: nat, role: Role) | Hop(i: nat) | E2(i: nat)

  /** A grounding as the knowledge base returns it: variable name to identifier. */
  type Grounding = map<Key, Id>

  // ---------------------------------------------------------------------------------------
  // Scored candidates
  // ---------------------------------------------------------------------------------------

  /** `(precision, recall, f1)`. */
  datatype Prf = Prf(precision: real, recall: real, f1: real)

  const ZeroPrf := Prf(0.0, 0.0, 0.0)

  /** The third element of a gold-scored triple: the retrieved answer sets of a chosen
      candidate, or only their number for a rejected one. */
  datatype Extra = AnswerSets(sets: seq<seq<string>>) | AnswerCount(count: nat)

  /** `(graph, (p, r, f1), answers)`, an entry of the gold-guided pool and result lists. */
  datatype Scored = Scored(graph: Graph, prf: Prf, extra: Extra)

  /** The sort key `x[1][2]`. */
  function F1(c: Scored): real {
    c.prf.f1
  }

  /** `(graph, score)`, an entry of the model-guided pool. */
  datatype ModelScored = ModelScored(graph: Graph, score: real)

  /** The sort key `x[1]`. */
  function Score(c: ModelScored): real {
    c.score
  }

  /** The largest F1 of a non-empty list: `max(g[1][2] for g in cs)`. */
  function MaxF1(cs: seq<Scored>): (m: real)
    requires cs != []
    ensures forall i :: 0 <= i < |cs| ==> F1(cs[i]) <= m
    ensures exists i :: 0 <= i < |cs| && F1(cs[i]) == m
  {
    if |cs| == 1 then F1(cs[0])
    else
      var m := MaxF1(cs[1..]);
      assert forall i :: 1 <= i < |cs| ==> cs[i] == cs[1..][i - 1];
      if F1(cs[0]) >= m then F1(cs[0]) else m
  }

  // ---------------------------------------------------------------------------------------
  // The collaborators
  // ---------------------------------------------------------------------------------------

  /** Everything the core calls but does not define: the knowledge-base queries, the entity
      linker, the evaluation metric, the graph operators, the scoring model, and the
      configuration. */
  datatype Env = Env(
    /** `wdaccess.query_graph_groundings(g)` */
    queryGroundings: Graph -> seq<Grounding>,
    /** `wdaccess.query_graph_denotations(g)` */
    denotations: Graph -> seq<Id>,
    /** `wdaccess.filter_denotation_by_importance(ids)` */
    importance: seq<Id> -> seq<Id>,
    /** `wdaccess.label_query_results` or `wdaccess.map_query_results`, as `label.query.results` says */
    labelResults: seq<Id> -> seq<seq<string>>,
    /** `evaluation.retrieval_prec_rec_f1_with_altlabels(gold, answers)` */
    evaluate: (seq<string>, seq<seq<string>>) -> Prf,
    /** `wdaccess.label_entity(id)` */
    labelEntity: Id -> Option<string>,
    /** the `labelright` of each row of the demonym query for an entity */
    demonyms: Id -> seq<string>,
    /** `entity_linking.link_entity(entity)` */
    linkEntity: Entity -> seq<Id>,
    /** the character query for a name in a film, passed through `post_process_entity_linkings` */
    characters: (string, Id) -> seq<Id>,
    /** `stages.restrict` */
    restrict: Graph -> seq<Graph>,
    /** `stages.expand` */
    expand: Graph -> seq<Graph>,
    /** `graph.get_graph_last_edge` */
    lastEdge: Graph -> Edge,
    /** `graph.add_string_representations_to_edges` */
    addStrings: Graph -> Graph,
    /** `graph.replace_entities` */
    replaceEntities: Graph -> Graph,
    /** `qa_model.scores_for_instance` */
    scores: seq<Graph> -> seq<real>,
    /** `wdaccess.property_whitelist` */
    whitelist: set<string>,
    /** the v-structure marker words */
    markers: set<string>,
    /** `max.entity.options` of the entity linker (3 by default) */
    maxOptions: nat,
    /** the `use.whitelist` option */
    useWhitelist: bool,
    /** the `replace.entities` option */
    replaceEntitiesOption: bool)
  {
    /** The importance filter narrows a denotation to at most three answers, so that a filtered
        candidate never asks for a filtered variant of its own. */
    ghost predicate ImportanceCapped() {
      forall ids :: |importance(ids)| <= 3
    }
  }
}
