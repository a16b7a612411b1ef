# Staged generation of semantic graphs

This project models the search that finds the semantic graph for a question, as it is done in
`questionanswering/construction/staged_generation.py`. The search is best-first. A pool of scored
candidate graphs is kept. The best (gold-guided) or first (model-guided) candidate is popped and
refined with the `restrict` and `expand` operators. Each refinement is grounded against the
knowledge base, and the refinements that score above their parent go back into the pool.

The model covers:

- **Grounding enumeration** (`grounding.dfy`).
  - `apply_grounding` writes a knowledge-base grounding onto the edges of a copy of a graph.
  - `find_groundings` queries the knowledge base once for the graph, or once per combination of
    `direct`/`reverse` types on the free edges. It adds one more query for a v-structure.
  - `approximate_groundings` takes the product of per-edge whitelisted groundings.
  - The whitelist filter of `ground_without_gold` and `ground_with_model` is modelled, as is
    the removal of entities before the final grounding.
- **Scoring** (`scoring.dfy`).
  - `ground_one_with_gold` evaluates every grounding against the gold answers. It also
    evaluates the importance-filtered variants it appends while it loops.
  - `ground_with_gold` tries graphs in order until one of them yields a chosen candidate. It
    returns the best three.
  - `ground_with_model` grounds, filters, prunes redundant qualifiers and hops, scores with the
    model, and keeps the best `beam_size` results.
- **Enrichment** (`enrichment.dfy`): `link_entities_in_graph`,
  `add_canonical_labels_to_entities` and `post_process_answers_given_graph`.
- **Search** (`search.dfy`): `generate_with_gold` and `generate_with_model`. Each is a class
  whose fields are the program's loop variables. `Step` is one pass of the outer loop and
  `Run(fuel)` makes at most `fuel` passes.

Shared modules:

- `graphs.dfy`: the records (edges, entities, graphs, groundings, scored entries) and `Env`.
  `Env` is a record of every collaborator the code calls: the knowledge-base queries, the
  entity linker, the evaluation metric, the graph operators, the scoring model and the
  configuration.
- `lists.dfy`: Python's stable descending sort, slicing, comprehensions and
  `itertools.product`.
- `strings.dfy`: `join`, `lower`, substring tests and `split`.

Three behaviours of the code are worth stating outright, since a reader might expect otherwise:

- The loop test of `generate_with_gold` compares the F1 of the *last* positive appended with
  0.9, not the best positive's F1.
- Sorting is by non-increasing score, and ties keep their input order. The sorts are not
  strictly descending.
- In `ground_one_with_gold`, a candidate with `min_fscore < F1 < 0.01` lands in both the
  chosen and the rejected list. The two lists are not disjoint.

## Model

| member | source | states |
|---|---|---|
| Grounding.ApplyGrounding | questionanswering/construction/staged_generation.py:437-456 | The loop over the copy's edges builds exactly the grounded graph `Grounded(g, gr)`, whose meaning the next two lemmas state |
| Grounding.GroundedEdges | questionanswering/construction/staged_generation.py:437-456 | The edge count, tokens and filter are kept; entities are emptied. An edge no variable names is unchanged. `r{i}d` beats `r{i}r`, which beats `r{i}v`, and the winner sets `kbID` and the matching type. `e2{i}` sets the right entity. `hop{i}v` fills `hopUp` if that key is present, otherwise `hopDown` |
| Grounding.ReadKeyGrounded | questionanswering/construction/staged_generation.py:439-454 | On an untouched edge list, reading any variable of a well-formed grounding back from the grounded edges gives the grounding's value, or nothing when the variable is absent |
| Grounding.KeysBelowMember | questionanswering/construction/staged_generation.py:438 | A variable name refers to one of the first `n` edges exactly when its index is below `n` |
| Grounding.GroundingRoundTrip | questionanswering/construction/staged_generation.py:437-456 | Round trip: a grounding applied to a skeleton and read back from the edges is the same grounding |
| Grounding.ApplyGroundingExamples | questionanswering/construction/staged_generation.py:424-435 | The doctests of `apply_grounding`: single direct and v-structure relations, a hop on `hopUp`, two edges with a right entity, an already grounded edge and an empty edge set |
| Grounding.TypeCombosUnfold | questionanswering/construction/staged_generation.py:220 | The combinations of `k` free edges are `direct`, then `reverse`, put in front of each combination of `k - 1` |
| Grounding.TypeCombosCount | questionanswering/construction/staged_generation.py:220 | There are exactly `2 ** k` type combinations for `k` free edges |
| Grounding.TypeCombosOrder | questionanswering/construction/staged_generation.py:220 | In `itertools.product` order, the first half of the combinations of `k + 1` edges starts with `direct` and the second half with `reverse`, each followed by the combinations of `k` |
| Grounding.TypeCombosMember | questionanswering/construction/staged_generation.py:220 | A sequence is a combination exactly when it has length `k` and holds only `direct` and `reverse` |
| Grounding.TagFreeAt | questionanswering/construction/staged_generation.py:222-224 | Tagging keeps the edge count and leaves grounded edges alone. The free edge with `j` free edges before it gets the `j`-th type of the combination |
| Grounding.TagFreeIndex | questionanswering/construction/staged_generation.py:223-224 | The same statement, for one position of the edge list |
| Grounding.TagFreeLength | questionanswering/construction/staged_generation.py:223-224 | Tagging keeps the edge count |
| Grounding.FreeEdgesAppend | questionanswering/construction/staged_generation.py:216 | The free edges of a concatenation are the free edges of each part, in order |
| Grounding.TagFreeEdges | questionanswering/construction/staged_generation.py:223-224 | The inner loop writes the combination's types, in order, onto the free edges of the copy |
| Grounding.QueryAllAppend | questionanswering/construction/staged_generation.py:225 | The accumulated query results of two batches of queries are the results of each batch, concatenated |
| Grounding.FindGroundings | questionanswering/construction/staged_generation.py:215-231 | `find_groundings` returns exactly the concatenated results of the queries `QueriedGraphs` names, in call order |
| Grounding.FindGroundingsQueries | questionanswering/construction/staged_generation.py:216-230 | With no hop on a free edge there is one query, on `g` itself. Otherwise there are `2 ** k` queries on copies whose free edges carry the combinations in product order and whose grounded edges are untouched. One more v-structure query is made exactly when a marker word is present and one edge is free |
| Grounding.FindGroundingsConcat | questionanswering/construction/staged_generation.py:215-231 | At least one query is always made, and the result is the first query's groundings followed by those of the rest |
| Grounding.Pow2Positive | questionanswering/construction/staged_generation.py:220 | There is always at least one type combination |
| Grounding.WhitelistedFirstEdges | questionanswering/construction/staged_generation.py:193-195 | Every edge kept for a free edge has a `kbID` whose base is in the property whitelist, and no more edges are kept than groundings were found |
| Grounding.GroundEach | questionanswering/construction/staged_generation.py:192 | One grounded graph per grounding |
| Grounding.CandidateLists | questionanswering/construction/staged_generation.py:189-197 | One candidate list per edge |
| Grounding.ApproximateGroundings | questionanswering/construction/staged_generation.py:187-204 | The two loops build exactly the approximated graphs: one copy of `g` per element of the product of the per-edge candidate lists, in product order |
| Grounding.ApproximatedCount | questionanswering/construction/staged_generation.py:189-202 | The number of results is the product of the per-edge candidate counts. A grounded edge contributes a factor of one |
| Grounding.ApproximatedMember | questionanswering/construction/staged_generation.py:189-202 | A graph is a result exactly when it is a copy of `g` that picks one candidate per edge. Grounded edges keep their position and value, and every free position carries an edge whose `kbID` base is whitelisted |
| Grounding.AllEdgesCheckSound | questionanswering/construction/staged_generation.py:340 | `all(...)` over the edges succeeds exactly when every edge passes, and it cannot raise when every edge has a `kbID` |
| Grounding.WhitelistFilter | questionanswering/construction/staged_generation.py:340 | A result never holds more graphs than the input, and only input graphs. It raises (`None`) exactly when the test of some graph raises |
| Grounding.WhitelistFilterSound | questionanswering/construction/staged_generation.py:340 | When it does not raise, the filter keeps, in order, exactly the graphs whose every edge passes; it raises only if some edge lacks a `kbID`. The same filter, with time and v-structure edges exempt, is the one at line 354 |
| Grounding.StripEntities | questionanswering/construction/staged_generation.py:318-320 | Every graph loses its entities and keeps everything else. The count and the order are unchanged |
| Scoring.Denote | questionanswering/construction/staged_generation.py:155 | Each grounded graph is paired with its own denotation, one per graph, in order |
| Scoring.ImportanceVariant | questionanswering/construction/staged_generation.py:158-161 | The variant carries filter `importance` and no entities. It keeps the edges and tokens, and its answers are the importance-filtered denotation |
| Scoring.ImportanceVariants | questionanswering/construction/staged_generation.py:156-161 | At most one variant is appended per visited candidate |
| Scoring.ImportanceVariantsAppend | questionanswering/construction/staged_generation.py:156-161 | The variants of a concatenation are the variants of each part, in order |
| Scoring.ImportancePrefixStep | questionanswering/construction/staged_generation.py:156-161 | Visiting original candidate `i` leaves it in place and appends its variant, if any, at the end |
| Scoring.ImportanceVariantsCapped | questionanswering/construction/staged_generation.py:157-161 | With an importance filter that keeps at most three answers, no appended variant has more than three answers, so no variant asks for a variant of its own |
| Scoring.GroundOneWithGold | questionanswering/construction/staged_generation.py:152-176 | The loop that also visits the entries it appends produces exactly the chosen and rejected lists of `OneWithGold` |
| Scoring.CandidatesShape | questionanswering/construction/staged_generation.py:152-161 | The candidates are the grounded graphs with their denotations, in grounding order, followed by the variants of those with more than three answers |
| Scoring.ImportanceVariantsMember | questionanswering/construction/staged_generation.py:157-161 | A variant is appended exactly when it is the variant of some candidate with more than three answers |
| Scoring.ChosenRejectedMember | questionanswering/construction/staged_generation.py:173-175 | An entry is chosen exactly when it is a candidate scoring above `min_fscore`, with its scores and answer sets. It is rejected exactly when it is a candidate scoring below 0.01, with zero scores and its number of answer sets |
| Scoring.ChosenInOrder | questionanswering/construction/staged_generation.py:173-174 | The chosen list is the comprehension over the candidates in order: filter by F1 above `min_fscore`, then build the entry |
| Scoring.RejectedInOrder | questionanswering/construction/staged_generation.py:175 | The rejected list is the comprehension over the candidates in order: filter by F1 below 0.01, then build the zero-score entry |
| Scoring.ChosenAbove | questionanswering/construction/staged_generation.py:173-175 | Every chosen entry scores above `min_fscore`, and every rejected entry carries zero scores |
| Scoring.GroundWithGold | questionanswering/construction/staged_generation.py:137-148 | The loop, sort and cap produce exactly `GroundedWithGold`: graphs are tried in order until one yields a chosen candidate |
| Scoring.TryInOrderStep | questionanswering/construction/staged_generation.py:139-143 | One pass: after a miss the loop continues on the rest with the rejected entries accumulated; after a hit it stops |
| Scoring.TryInOrderFirstHit | questionanswering/construction/staged_generation.py:139-143 | When graph `k` is the first to yield a chosen entry, the result is that graph's chosen list and the rejected entries of graphs `0..k` |
| Scoring.TryInOrderNoHit | questionanswering/construction/staged_generation.py:139-143 | When no graph yields a chosen entry, every graph is tried and nothing is chosen |
| Scoring.TryInOrderFrom | questionanswering/construction/staged_generation.py:139-143 | What the loop chooses is empty or is what one of the tried graphs chose |
| Scoring.GoldOutcomeAbove | questionanswering/construction/staged_generation.py:173-174 | Grounding one graph chooses only entries scoring above `min_fscore` |
| Scoring.TopOfTried | questionanswering/construction/staged_generation.py:144-146 | Sorting and cutting keeps at most three entries, sorted, all above `min_fscore`, drawn from the chosen ones; no dropped entry beats a kept one |
| Scoring.GroundedWithGoldTop | questionanswering/construction/staged_generation.py:139-146 | `ground_with_gold` returns at most three chosen entries, best first, all scoring above `min_fscore`, and none left out beats one kept |
| Scoring.TryInOrderRejectedZero | questionanswering/construction/staged_generation.py:143 | If every graph rejects only zero-score entries, so does the loop |
| Scoring.GroundedWithGoldRejectedZero | questionanswering/construction/staged_generation.py:139-148 | Every entry `ground_with_gold` reports as not chosen carries zero scores |
| Scoring.Prepared | questionanswering/construction/staged_generation.py:356-358 | One prepared graph per grounded graph |
| Scoring.Above | questionanswering/construction/staged_generation.py:377-378 | Every kept entry scores above `min_score`. Every graph whose score is above it is kept with its score. Every kept entry is some input graph paired with its own score |
| Scoring.AboveFilters | questionanswering/construction/staged_generation.py:377-378 | The kept entries are exactly the `(graph, score)` pairs scoring above `min_score`, in input order and with their multiplicity: an in-order filter of the pairs |
| Scoring.PruneQualifiersMember | questionanswering/construction/staged_generation.py:359-363 | The qualifier pruning keeps exactly the graphs that do not end in a qualifier, or whose qualifier's base relation no graph ends in directly |
| Scoring.PruneHopsMember | questionanswering/construction/staged_generation.py:365-369 | The hop pruning keeps exactly the graphs whose last edge has no hop, or neither of whose hops, paired with the edge's type, is a first-order relation of the list |
| Scoring.ModelCandidates | questionanswering/construction/staged_generation.py:352-369 | The graphs handed to the model: all groundings, whitelist-filtered when `use.whitelist` is on, prepared, then pruned. It fails only through the whitelist filter, only with that option on, and never yields more graphs than there are groundings |
| Scoring.PruneQualifiers | questionanswering/construction/staged_generation.py:359-363 | Never adds graphs. Every kept graph is an input that does not end in a qualifier whose base relation some graph ends in directly |
| Scoring.PruneHops | questionanswering/construction/staged_generation.py:365-369 | Never adds graphs. Every kept graph is an input whose last edge has no hop that, with the edge's type, is a first-order relation of the list |
| Scoring.ModelCandidatesSafe | questionanswering/construction/staged_generation.py:353-354 | Without the `use.whitelist` option, or when every grounded edge has a `kbID`, the candidates are computed without failing |
| Scoring.GroundWithModel | questionanswering/construction/staged_generation.py:352-384 | A successful result has at most `beam_size` entries, each above `min_score`. A failure comes from the candidates (the whitelist filter) or is the score-count mismatch of line 376 |
| Scoring.Best | questionanswering/construction/staged_generation.py:377-383 | Sort and cut of the scored graphs above `min_score` keeps at most `beam_size` entries, each above `min_score` |
| Scoring.BestAbove | questionanswering/construction/staged_generation.py:377-383 | The kept entries number `min(beam_size, number above min_score)`. They are sorted best first, drawn from the above-threshold pairs, each an input graph scoring above `min_score`, and no entry left out beats one kept |
| Scoring.GroundWithModelSpec | questionanswering/construction/staged_generation.py:352-384 | When nothing survives the pruning the result is `[]` (line 373). A successful result is the `min(beam_size, n)` best of the `n` above-threshold pairs: at most `beam_size` entries, best first, each above `min_score` and holding a scored graph, a sub-multiset of the sorted pairs, and none left out beats one kept. Without the whitelist option, or when every edge has a `kbID`, the whitelist cannot fail. The score-count assertion fails exactly when the model returns the wrong number of scores for a non-empty list |
| Search.GoldGroundsAbove | questionanswering/construction/staged_generation.py:139-175 | `ground_with_gold` chooses only entries above its threshold and rejects only zero-score ones |
| Search.RefineAbove | questionanswering/construction/staged_generation.py:57-77 | Every refinement the inner loop chooses scores above the parent's F1, even after the threshold was raised to the best chosen F1 before a bonus round |
| Search.RefineNegativesZero | questionanswering/construction/staged_generation.py:62-72 | Every negative the inner loop records carries zero scores |
| Search.RefineStep | questionanswering/construction/staged_generation.py:57-77 | One pass of the inner loop: the suggested graph is grounded (and expanded when nothing was chosen), the bonus flag and threshold are updated, and the round's negatives come first in the rest |
| Search.GroundRound | questionanswering/construction/staged_generation.py:61-72 | The body of the inner loop computes exactly one `Round`: ground the suggested graph, and ground its expansions when nothing is chosen yet |
| Search.RefineWithGold | questionanswering/construction/staged_generation.py:54-77 | The inner loop over the restricted graphs computes exactly the chosen and refused lists of `Refine` |
| Search.GoldSearch.constructor | questionanswering/construction/staged_generation.py:40-43 | The pool holds only the linked graph with zero scores; there are no positives, negatives or iterations; the search state is valid |
| Search.GoldSearch.Step | questionanswering/construction/staged_generation.py:45-87 | The popped parent was the best of the pool. Below F1 0.7 its refinements are what the inner loop chooses, all above the parent's F1; the negatives grow by the refused entries, all zero. Chosen refinements rejoin the pool, which is sorted again. A parent without chosen refinements becomes a positive. The pool stays sorted |
| Search.GoldSearch.Run | questionanswering/construction/staged_generation.py:44-90 | The result is the positives followed by the negatives, both only growing. The loop stops when its test fails or after `fuel` passes. The state stays valid |
| Search.ModelSearch.constructor | questionanswering/construction/staged_generation.py:388-391 | The pool holds only the linked graph with score -1.0; nothing is generated yet |
| Search.ModelSearch.Step | questionanswering/construction/staged_generation.py:393-409 | The first pool entry is popped and its restrictions and their expansions are grounded with its score as threshold. The chosen ones, at most `beam_size` and all above the parent's score, are appended to the pool and to the generated list. A failure changes nothing else |
| Search.ModelSearch.Run | questionanswering/construction/staged_generation.py:392-413 | A successful run returns the generated graphs sorted best first, each above the seed score -1.0. It stops when the pool is empty or after `fuel` passes, and the generated list only grows |
| Enrichment.AddCanonicalLabels | questionanswering/construction/staged_generation.py:466-472 | The loop over the edges produces exactly the labelled graph |
| Enrichment.LabelledChanges | questionanswering/construction/staged_generation.py:466-471 | Labelling changes nothing but `canonical_right`. It sets it exactly on edges with a right entity, no label yet and a label from the knowledge base |
| Enrichment.LabelledIdempotent | questionanswering/construction/staged_generation.py:468 | Labelling twice is labelling once |
| Enrichment.LabelledAll | questionanswering/construction/staged_generation.py:52 | One labelled graph per restricted graph |
| Enrichment.LanguageEdges | questionanswering/construction/staged_generation.py:486 | Every kept edge is a P37 edge, and the list is empty exactly when no edge is a P37 edge |
| Enrichment.LanguageVariants | questionanswering/construction/staged_generation.py:490 | One variant per answer: the answer followed by " language" |
| Enrichment.DemonymsOf | questionanswering/construction/staged_generation.py:491-495 | At most one demonym set is appended per visited answer set |
| Enrichment.DemonymsOfAppend | questionanswering/construction/staged_generation.py:488-495 | The demonym sets of a concatenation are those of each part, in order |
| Enrichment.DemonymSetInert | questionanswering/construction/staged_generation.py:495 | An appended demonym set already mentions "language" and does not hold "english" |
| Enrichment.DemonymsInert | questionanswering/construction/staged_generation.py:488-495 | Every appended demonym set is one the rule leaves alone when the loop reaches it |
| Enrichment.FirstTokensAdded | questionanswering/construction/staged_generation.py:499-500 | Every answer set, in order, is followed by the first tokens of its answers |
| Enrichment.LanguagePrefixStep | questionanswering/construction/staged_generation.py:488-495 | Visiting original set `i` extends it in place and appends its demonym sets at the end |
| Enrichment.LanguagePrefixDone | questionanswering/construction/staged_generation.py:488-495 | Once every original set is visited, the loop state is the finished result |
| Enrichment.LanguageAppendedInert | questionanswering/construction/staged_generation.py:488-495 | Visiting an appended set changes nothing |
| Enrichment.VisitAnswerSet | questionanswering/construction/staged_generation.py:489-495 | One pass of the language loop: the set is extended in place, and its demonym set, if any, is appended |
| Enrichment.ApplyLanguageRule | questionanswering/construction/staged_generation.py:487-495 | The loop, which also visits the sets it appends, produces exactly `LanguageApplied` |
| Enrichment.ApplyCharacterRule | questionanswering/construction/staged_generation.py:498-500 | The loop produces exactly `FirstTokensAdded` |
| Enrichment.PostProcessAnswers | questionanswering/construction/staged_generation.py:486-501 | `post_process_answers_given_graph` produces exactly `PostProcessed` |
| Enrichment.PostProcessExtends | questionanswering/construction/staged_generation.py:486-500 | Post-processing only adds: there are at least as many sets, and each original set is a prefix of its processed version |
| Enrichment.PostProcessLanguage | questionanswering/construction/staged_generation.py:486-495 | With a P37 edge, a set without "language" gains `a + " language"` for each answer, in order. A set holding "english" adds a demonym set when the edge's entity has a demonym. Nothing is added without an entity |
| Enrichment.NoDemonymsWithoutEntity | questionanswering/construction/staged_generation.py:491 | Without a right entity no demonym set is appended |
| Enrichment.PostProcessCharacter | questionanswering/construction/staged_generation.py:497-500 | With a P175, P453 or P161 edge, every set, the appended demonym sets included, gains the first tokens of its non-blank answers |
| Enrichment.PostProcessExample | questionanswering/construction/staged_generation.py:482-483 | The doctest: `[['eng', 'english']]` with a P37 edge to Q843 becomes the extended set plus the "pakistani english" set |
| Enrichment.ExampleLanguage | questionanswering/construction/staged_generation.py:489-490 | The doctest's set gains "eng language" and "english language" |
| Enrichment.ExampleDemonyms | questionanswering/construction/staged_generation.py:491-495 | The doctest's demonym set is the lower-cased demonym with " english" and " english language" |
| Enrichment.FirstPass | questionanswering/construction/staged_generation.py:107-112 | One entity per input entity, in order; each unlinked entity not tagged CD is linked |
| Enrichment.PersonsFrom | questionanswering/construction/staged_generation.py:114 | Only linked single-token PERSON entities are visited, in order |
| Enrichment.PrependHitsAtOnce | questionanswering/construction/staged_generation.py:115-119 | Prepending and cutting film by film is prepending all hits, the last film's first, and cutting once. After any film the list has at most `max.entity.options` entries |
| Enrichment.CharacterPass | questionanswering/construction/staged_generation.py:114-119 | The character loop keeps the entity count and every entity linked |
| Enrichment.LinkMentions | questionanswering/construction/staged_generation.py:107-112 | The first loop produces exactly `FirstPass` |
| Enrichment.PrependCharacters | questionanswering/construction/staged_generation.py:115-119 | The innermost loop produces exactly `PrependHits` |
| Enrichment.LinkCharacters | questionanswering/construction/staged_generation.py:114-119 | The character loop produces exactly `CharacterPass` |
| Enrichment.LinkEntities | questionanswering/construction/staged_generation.py:104-122 | `link_entities_in_graph` produces exactly `Linked` |
| Enrichment.LinkedPersonUnsafe | questionanswering/construction/staged_generation.py:113-118 | A PERSON that arrives linked, next to a film entity the first loop links, is not a safe input: the program would assign to the candidates of the input's tuple on line 118 |
| Enrichment.LinkAlreadyLinked | questionanswering/construction/staged_generation.py:105-106 | A graph whose entities are all linked is returned as it is |
| Enrichment.CharacterPassShape | questionanswering/construction/staged_generation.py:114-119 | The character loop changes only the candidate lists of visited persons, and a changed list has at most `max.entity.options` entries |
| Enrichment.PassKeepsUnvisited | questionanswering/construction/staged_generation.py:114-119 | An entity every visit of which finds no film id leaves the character loop unchanged: its candidate list is reassigned to itself |
| Enrichment.LinkedEntities | questionanswering/construction/staged_generation.py:104-122 | Linking keeps the entities' number, order, tokens and tags. It leaves unlinked CD entities alone and links every other one. An entity that was already linked is returned as it is, with or without a marker word. Without a marker word every entity is its first-loop result. A person whose list the character lookup changed holds at most `max.entity.options` candidates |
| Enrichment.LinkTwice | questionanswering/construction/staged_generation.py:104-122 | Linking twice is linking once when no unlinked entity is tagged CD |
| Lists.Take | questionanswering/construction/staged_generation.py:146 | A slice `s[:n]` is the first `n` elements, or all of them |
| Lists.TakePrependTake | questionanswering/construction/staged_generation.py:118-119 | Cutting, prepending and cutting again is prepending and cutting once |
| Lists.SortDesc | questionanswering/construction/staged_generation.py:144 | `sorted(..., reverse=True)` returns a non-increasing permutation of its input |
| Lists.SortDescStable | questionanswering/construction/staged_generation.py:81 | The sort is stable: entries with equal keys keep their input order |
| Lists.SortDescAbove | questionanswering/construction/staged_generation.py:412 | Sorting keeps a strict lower bound on the scores |
| Lists.TopOfSorted | questionanswering/construction/staged_generation.py:380-383 | Sort and cut keeps at most `n` entries, sorted, drawn from the input, and no dropped entry beats a kept one |
| Lists.ProductMember | questionanswering/construction/staged_generation.py:199 | A sequence is in `itertools.product(*ls)` exactly when it picks, in order, one element from each list |
| Lists.PrependEachMember | questionanswering/construction/staged_generation.py:199 | A sequence is in the product of one list with others exactly when its head is from the first list and its tail from the rest |
| Lists.Filter | questionanswering/construction/staged_generation.py:340 | A comprehension with a condition keeps only passing elements, and every passing element |
| Lists.FilterAppend | questionanswering/construction/staged_generation.py:340 | Filtering a concatenation filters each part |
| Lists.MapAppend | questionanswering/construction/staged_generation.py:173 | A comprehension over a concatenation is the comprehensions over each part, in order |
| Lists.FlatMapAppend | questionanswering/construction/staged_generation.py:402 | A nested comprehension over a concatenation is the comprehensions over each part |
| Graphs.MaxF1 | questionanswering/construction/staged_generation.py:74 | `max` of the F1 scores is an upper bound that some entry reaches |
| Strings.Lower | questionanswering/construction/staged_generation.py:489 | Lower-casing keeps the length and folds each character |
| Strings.LowerAppend | questionanswering/construction/staged_generation.py:489 | Lower-casing distributes over concatenation |
| Strings.ContainsSuffix | questionanswering/construction/staged_generation.py:489 | A string ending in "language" mentions it |
| Strings.Word | questionanswering/construction/staged_generation.py:500 | The first word is the longest prefix without whitespace |
| Strings.FirstToken | questionanswering/construction/staged_generation.py:500 | `a.split()[0]` exists exactly when `a` has a non-whitespace character. It is the word that starts at the first non-whitespace character: a non-empty run of non-whitespace after only whitespace |
| Strings.ShiftToken | questionanswering/construction/staged_generation.py:500 | A token found after the leading whitespace of the rest of a string that starts with whitespace is also found after the leading whitespace of the whole string |

## Left out

- Everything behind `Env` is a parameter of the model, not code of it. That covers the
  knowledge-base queries and their cache, the entity linker, the evaluation metric, the label,
  demonym and character queries, `stages.restrict` and `stages.expand`,
  `graph.get_graph_last_edge`, `add_string_representations_to_edges`, `replace_entities`, the
  model's `scores_for_instance`, and the configuration flags. `wdaccess`, `entity_linking`,
  `stages`, `graph` and `evaluation` are not part of this model.
- `query_graph_groundings` returning `None` (too complex to query) is not modelled. In
  `find_groundings` that value would make `+=` raise, so the model assumes a list.
- `graph.copy_graph` is modelled as the same graph with an empty entity list, which is what
  the doctests of `apply_grounding` show. Copies are values, so aliasing between the original
  and the copy is not modelled.
- The dictionaries of graphs, edges and answer lists are values. The functions that change
  them in place (`add_canonical_labels_to_entities`, `link_entities_in_graph`,
  `post_process_answers_given_graph` and the edge tagging in `find_groundings`) are methods
  that return the changed value. Aliasing through a shared dictionary is not modelled.
- A key present with the value `None` is told apart from a missing key only for `hopUp` and
  `hopDown`, where the code tests presence. For `type`, `kbID`, `rightkbID` and
  `canonical_right` both read as `None`.
- Grounding variable names are modelled structurally (`Rel`, `Hop`, `E2`), not as the
  strings `r{i}d`, `hop{i}v` and `e2{i}`. Variables with other names are not represented.
- `"{}-{}".format(kbID, type)` is modelled as the pair of the two values.
- `lower()` folds only ASCII letters.
- Enrichment.LinkEntities: the entities the first loop links are new lists, and the others are
  the input's entities, taken to be tuples as the doctests and line 120 produce them. So the
  `e != entity` test on line 115 treats a linked and a kept entity as always different, and
  `LinkSafe` excludes a visited person that arrived linked and finds a film id, because
  assigning to its candidates on line 118 raises. An input given as lists, which the program
  would update in place, is not modelled. The in-place `entity[2] = ...` is modelled as
  replacing that entity's candidate list.
- Identifiers (`kbID`, `rightkbID`, the grounding values) are non-empty strings. An empty
  `kbID`, on which `get('kbID', " ")[-1]` at lines 360 and 362 raises IndexError, is not
  represented, and neither is an empty `rightkbID`, which the test `if entitykbID` at line 467
  and `.get('rightkbID')` at line 491 treat as missing.
- Scores and F1 values are reals, not floats.
- Logging, progress bars and `wdaccess.clear_cache()` are left out.
- `generate_without_gold`, `find_groundings_with_gold`, `ground_without_gold` as a whole and
  `verify_grounding` are left out. The whitelist filter (line 340) and the entity removal
  (lines 318-320) of that path are modelled.
- Search.GoldSearch.Run: termination of the outer loop is not modelled, because it depends on
  `restrict` and `expand`. `Run` makes at most `fuel` passes.
- Search.ModelSearch.Run: termination is not modelled either, and `Run` makes at most `fuel`
  passes.
- Scoring.GroundOneWithGold: requires an importance filter that returns at most three
  answers. Otherwise the loop, which visits the variants it appends, might not end.
- Enrichment.LinkEntities: requires `LinkSafe`. If a CD-tagged entity is left unlinked, the
  program raises when the character lookup reads its candidates (line 115).
- Scoring.GroundWithModel: the `assert` on line 376 becomes the error
  `ScoreCountMismatch`, and the missing `kbID` in the whitelist filter becomes `MissingKbID`.
