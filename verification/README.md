# Holos, modelled in Dafny

Holos is an RDF 1.2 store with a SPARQL engine. This project models the parts of it that must not
change an answer: the bind join that evaluates a query as a nested loop, the four rewrites that run before
it, the RDFS materialiser, the graph walks, the inline term encoding, and three smaller cores (the
simple-entailment search, canonical JSON, the union-find behind the row estimates).

One semantics is shared by all of it. `Rdf.dfy` has terms, quads, and a `View` (the quads and dictionary terms one
session sees); `Algebra.dfy` gives `Eval`, the bag of solutions SPARQL 1.1 Query, sections 18.4 to 18.6, assigns to a
pattern. Bags are sequences compared by `Same` (equal multisets). `Answers(c, q, ys)` says that the list `ys` is one of
the lists a query may return: any enumeration of the projected bag, deduplicated and sliced as the query says.

| file | what it holds |
|---|---|
| `Bags.dfy`, `Rdf.dfy`, `Algebra.dfy`, `Scopes.dfy` | bags, terms, solutions, expressions, the algebra, its laws under `GRAPH` |
| `Items.dfy`, `Closures.dfy`, `Commuting.dfy`, `Emission.dfy` | the meaning of a flat plan, path closures, why optionals may go last, rows and modifiers |
| `BindJoin.dfy` | the nested loop itself, as a class with the run's mutable fields |
| `Planning.dfy`, `PlanMeaning.dfy`, `Designs.dfy`, `Collecting.dfy`, `Answering.dfy`, `Fragment.dfy` | from pattern tree to plan, what the well-designedness test comes to, the whole query, and exactly which queries are taken |
| `Limits.dfy`, `Misnumbered.dfy`, `Across.dfy` | where the plan is wrong |
| `Equality.dfy`, `Pinning.dfy`, `BoundJoin.dfy`, `Sending.dfy`, `BoundLimits.dfy`, `Tables.dfy` | the rewrites, what exactly they pin, send and replace, and where sending keys to a service loses an answer |
| `Reach.dfy`, `Hierarchies.dfy`, `Rdfs.dfy`, `Materialise.dfy`, `Rematerialise.dfy`, `Reruns.dfy`, `Saturation.dfy`, `Consequences.dfy` | walks and fixpoints, and what a run is sure to say |
| `Calendar.dfy`, `Inline.dfy`, `Layout.dfy` | the inline term encoding, and the words it gives, bit by bit |
| `SimpleEntailment.dfy`, `CanonicalJson.dfy`, `JsonTexts.dfy`, `UnionFind.dfy` | the smaller cores |

## How the bind join is proved

`Planning.Collect` is what the source's `collect` pushes; the class `Collecting.Collector` does the pushing and is proved
to push that. `PlanMeaning.CollectMeans` proves that the collected items and filters denote the pattern's bag.
`BindJoin.Run` holds the bindings, the rows, `seen`, `skipped`, `completions` and `abandoned`. Each of its methods is proved
to *deliver*: with `sols` some enumeration of the bag the remaining items owe, the run's state afterwards is its state
before with `sols` emitted in that order until the limit, and the bindings are what they were. A run given up has emitted
rows of some of `sols`, so what it held when it stopped is bounded too: that is how `Answering.Answer` can say when rows must
come back. `BindJoin.Run.Done` states when a run is given up, and that the token is read once in 4096 calls. The choice among required
items is left open, as is the order of every scan, so the result holds for every cost model and every index.
`Answering.Answer` puts the halves together.

## Where the code and its documentation differ

* `materialise` is documented as idempotent. It is not quite: the reflexive pass can add the first use of
  `rdfs:subClassOf` or `rdfs:subPropertyOf` as a predicate, and a second call on the same store then adds that predicate's
  own reflexive statement. Of any store, `Saturation.NothingToAdd` says exactly when a call adds nothing: when the store is
  closed under the RDFS rules, read off its own statements. `Saturation.RepeatedExactly` says that calls repeated until
  one adds nothing end at the RDFS closure of the first store, and that only such an end is it; so one call has computed
  the closure if and only if the next adds nothing. Told from what the store asserted before the first call, when that
  call derives no schema statement it had not read: `Reruns.SecondCall` says which statements the second call adds,
  `Reruns.IdempotentExactly` when there are none, and `Reruns.ThirdCall` when a third adds nothing; with a schema that
  leaves the schema predicates alone it never does (`Reruns.PlainEndures`). `Reruns.OneTriple` is a store of one triple
  whose second call adds a statement, and `Reruns.IndirectSchema` one of three triples, with a property under
  `rdfs:subClassOf`, whose second call is still finding types.
* The equality rewrite pins a variable bound by a property path. A path of length zero can bind a constant the store has
  never seen, and the pin then loses that row: `Equality.PathPinExactly`.
* The bound join hands the variables bound outside to whatever is inside, and sends keys where fewer remote rows do not
  mean fewer of the same answers. Each of these is a family put through `BindServices` itself, with the exact condition:
  - under `MINUS`, where fewer remote rows mean more answers: `BoundLimits.UnderMinusExactly`;
  - under an `OPTIONAL` beside something else that binds the same variable, where fewer remote rows leave a bare row that
    then joins: `BoundLimits.BesideOptionalExactly`;
  - under a filter its probe cannot settle, which drops the keys of rows the service would have let through:
    `BoundLimits.UnderFilterExactly`; and under a `BIND` it cannot settle, whose value before the service is heard drops
    them: `BoundLimits.UnderBindExactly`;
  - under a subquery that hides the variable, which is another variable of the same name: `BoundLimits.UnderSubqueryExactly`;
  - under an aggregate, which is then taken over fewer rows: `BoundLimits.UnderGroupExactly`;
  - under `DISTINCT`, when the service leaves the variable unbound: the key binds it, and rows that were distinct are no
    longer: `BoundLimits.UnderDistinctExactly`;
  - under `LIMIT`, which then takes other rows: `BoundLimits.UnderSliceExactly`.
* The well-designedness test subtracts what the left side *may* bind from what an `OPTIONAL` binds. When the left side may
  leave a shared variable unbound, running the optional last changes the answer: `Limits.OptionalLastExactly`.
* A filter inside `GRAPH ?g` that reads `?g` sees it bound by the plan and unbound by the algebra: `Limits.GraphFilterExactly`.
* A `VALUES` table inside a `GRAPH` block forgets the block: `Limits.NamedTableExactly` and `Limits.EachTableExactly`.
* An alternative path inside `GRAPH ?g` binds `?g` without being counted to, so a subquery that hides `?g` is spliced
  all the same and joins it with an outer `?g`: `Limits.HiddenGraphExactly`.
* A closure inside `GRAPH ?g` is walked, while `?g` is unbound, over every named graph at once: a path may leave one graph
  for another, and a node reached in two graphs is reached once: `Across.AcrossExactly`.
* An `OPTIONAL` takes every filter collected with its right side for its own, those of an `OPTIONAL` within it included. A
  filter that should decide whether the inner one matched then decides whether the outer one did:
  `Misnumbered.NestedFilterExactly`. (An `OPTIONAL` that could bind anything new is refused anywhere within another: `Misnumbered.NestedRefused`.)
* A subquery numbers its filters from zero and is not renumbered when they are appended to the plan's, so an `OPTIONAL`
  in it may own a filter of the outer query and give its own away: `Misnumbered.SplicedOptionalExactly`.

The theorems follow the code. `Planning.Supported`, `Equality.Regular` and `BoundJoin.Outward` are the hypotheses that
shut these cases out; each is a condition on the pattern, and on which terms and graphs the store has, that a caller can
compute. Where such a condition fails, what decides the answer may lie further off: in `BoundLimits` it is what the
remote service says.

## Model

| member | source | states |
|---|---|---|
| Answering.Answer | crates/holos-engine/src/bindjoin.rs:457-525 | For every query the planner refuses, and every supported one it accepts, every choice of next item, every scan order, row budget and cancellation: rows that come back are rows of an answer the algebra allows, in the columns the query selects and in that order; there are at most two over the budget, and the token, read at least once for every 4096 of them, never said to stop. A query the planner accepts with nothing unknown in it gets no rows only if some reading of the token says to stop, or the budget is below what its solutions come to: one row for each up to the limit, and one more for each under DISTINCT. |
| Answering.MakePlan | crates/holos-engine/src/bindjoin.rs:457-525 | The peeling loop makes a plan exactly when the query is a projection under DISTINCT or not, under one slice that cuts anything or none, and the items collected from what is projected pass `finish`; the plan's columns are the projection's, in order, and its DISTINCT, offset and limit are the wrappers'. |
| Answering.PlanParts | crates/holos-engine/src/bindjoin.rs:457-525 | From any point of the peeling, there is a plan exactly when what is left is in order, and its columns and modifiers are what is left and what was peeled. |
| Fragment.PlannedExactly | crates/holos-engine/src/bindjoin.rs:457-525 | There is a plan for a query exactly when its wrappers are in order, its pattern is in the fragment, something is to be scanned, its columns may be bound, each optional stands apart, and each path closure has an end that is a term or that another item mentions. |
| Fragment.CollectExactly | crates/holos-engine/src/bindjoin.rs:532-850 | A pattern is collected exactly when it is in the fragment, said of the pattern alone: triples with no quoted end; a closure of one predicate, or alternatives of predicates; tables; joins; OPTIONALs and filters decided over certain variables; unions of triples; GRAPH around any of these but not within another; subqueries that hide nothing. |
| Fragment.BoundExactly | crates/holos-engine/src/bindjoin.rs:401-438 | A variable is counted certain exactly when each choice of union branches, without the optional sides, has something matched that binds it, and possible exactly when anything matched names it. |
| Fragment.InspectedExactly | crates/holos-engine/src/bindjoin.rs:1189-1238 | An expression is accepted exactly when nothing in it, however deep, is evaluated elsewhere, and it reports exactly the variables written in it. |
| Answering.PeelAnswers | crates/holos-engine/src/bindjoin.rs:481-524 | Flattening DISTINCT, LIMIT and OFFSET into the plan loses nothing: applied to any enumeration of the core's bag they give an answer to the nested query. |
| Answering.AnswersAreEval | crates/holos-engine/src/bindjoin.rs:475-479 | Without a slice, every answer to a query is the same bag: the one the algebra gives. |
| Answering.LoopHolds | crates/holos-engine/src/bindjoin.rs:150-229 | Whether it ends or is given up, a run holds no more rows, kept and seen together, than the query's solutions account for. |
| Answering.DedupRows | crates/holos-engine/src/bindjoin.rs:2097-2136 | Removing duplicate projected rows, first kept, is removing duplicate solutions. |
| PlanMeaning.CollectMeans | crates/holos-engine/src/bindjoin.rs:532-850 | The collected items and filters, wherever in the plan the filters land, denote the bag the algebra gives the pattern: joins, unions, VALUES, closures, alternative paths, GRAPH with OPTIONAL in it, hoisted filters, OPTIONALs within OPTIONALs, spliced subqueries. |
| PlanMeaning.MeansBinds | crates/holos-engine/src/bindjoin.rs:401-438 | Every solution binds all the variables counted certain, and none but those counted possible, the block's graph variable, and a graph variable an alternative path leaves uncounted. |
| PlanMeaning.UnionMeans | crates/holos-engine/src/bindjoin.rs:1058-1112 | Nested unions of basic graph patterns, GRAPH blocks included, flattened to branches, denote the union. |
| PlanMeaning.UnionBounds | crates/holos-engine/src/bindjoin.rs:1058-1112 | A variable is counted certain for a union exactly when every flattened branch binds it, and possible when one does. |
| PlanMeaning.PathMeans | crates/holos-engine/src/bindjoin.rs:972-1010 | An alternative path, as union branches, denotes the path's bag with its multiplicities, under `GRAPH ?g` too. |
| PlanMeaning.OptionalsLast | crates/holos-engine/src/bindjoin.rs:852-889 | A join of two left-joined sides is the join of their required parts with all the left joins after it, in source order, given that no optional's own variable is bound on the other side. |
| PlanMeaning.OptionalDenoted | crates/holos-engine/src/bindjoin.rs:786-848 | An OPTIONAL kept whole, its own filters and the join's condition both deciding whether it matched, and filterless OPTIONALs within it, is the algebra's LeftJoin. |
| PlanMeaning.CollectNoIndex | crates/holos-engine/src/bindjoin.rs:578-590 | A part whose optionals have no filters is collected alike wherever its numbering starts. |
| Designs.CollectedApart | crates/holos-engine/src/bindjoin.rs:865-912 | What the well-designedness test passes has every optional's own variables apart from all beside it, and nothing new bound by an optional within another. |
| Designs.DesignedExactly | crates/holos-engine/src/bindjoin.rs:865-912 | The test is passed exactly when the own variables of each optional at the top are in nothing beside it, in no optional within it and in no filter but its own, and optionals within it own nothing. |
| Designs.CollectMentions | crates/holos-engine/src/bindjoin.rs:532-850 | Every variable a collected part is counted to bind is mentioned by its items, and every variable an optional counts as its own by that optional's. |
| PlanMeaning.JoinDenoted | crates/holos-engine/src/bindjoin.rs:707-714 | Two collected sides, concatenated, denote the join of what each denotes. |
| Collecting.Collector.Collect | crates/holos-engine/src/bindjoin.rs:532-850 | The pushing walk appends exactly the items and filters `Planning.Collect` names, in order, and returns the subtree's certain and possible variables, or refuses. |
| Collecting.Collector.CollectTriples | crates/holos-engine/src/bindjoin.rs:539-559 | The triple-by-triple loop does the same for a basic graph pattern, stopping at the first unusable one. |
| Collecting.Collector.CollectOptional | crates/holos-engine/src/bindjoin.rs:786-848 | The right side is collected apart and its filters numbered where they land. |
| Collecting.Collector.PushConjuncts | crates/holos-engine/src/bindjoin.rs:723-744 | Conjuncts are hoisted exactly when each can be decided over variables certainly bound in the subtree. |
| Expressions.ConjunctsHold | crates/holos-engine/src/bindjoin.rs:1173-1187 | A conjunction keeps exactly the solutions each conjunct keeps, errors included. |
| Expressions.EvaluateLocal | crates/holos-engine/src/bindjoin.rs:1189-1238 | An expression the inspection accepts depends on no variable but those it reports. |
| Limits.OptionalLastExactly | crates/holos-engine/src/bindjoin.rs:821-826 | For `VALUES ?x {a} OPTIONAL {VALUES ?x {t}} VALUES ?x {u}`, which the planner accepts: the plan is right if and only if `a` is not UNDEF or `t` is `u`. |
| Limits.HiddenGraphExactly | crates/holos-engine/src/bindjoin.rs:648-680 | For `VALUES ?g {n} {SELECT .. {GRAPH ?g {?a e ?b}}}` with `?g` not selected, which the planner accepts: the plan is right if and only if no graph but `n` has a match for the path. |
| Across.MergedEdge | crates/holos-engine/src/view.rs:373-386 | An edge of the merged named graphs is exactly what a scan given no graph finds among them. |
| Across.LinkedAcross | crates/holos-engine/src/bindjoin.rs:1827-1835 | What a path links within one named graph it links across them. |
| Across.AcrossExactly | crates/holos-engine/src/bindjoin.rs:1827-1885 | For `SELECT ?b { GRAPH ?g { <a> p+ ?b } }` and the like, which the planner accepts: the walk over all named graphs at once yields the right bag if and only if every node it reaches is reached within one named graph and in no other. |
| Designs.NestsNewFails | crates/holos-engine/src/bindjoin.rs:865-899 | A pattern with an OPTIONAL that could bind something its own left side does not, anywhere on the right of another OPTIONAL, fails the well-designedness test in whatever graph it stands. |
| Misnumbered.NestedRefused | crates/holos-engine/src/bindjoin.rs:865-912 | So every query with such an OPTIONAL under its wrappers is refused, whatever is between the two OPTIONALs and around them. |
| Misnumbered.NestedFilterExactly | crates/holos-engine/src/bindjoin.rs:816-837 | For `ls OPTIONAL {rs OPTIONAL {ns FILTER e}}`, which the planner accepts: the plan is right if and only if every pair of a row of `ls` and a row of `rs` passes the filter. |
| Misnumbered.SplicedOptionalExactly | crates/holos-engine/src/bindjoin.rs:578-590 | For `{xs FILTER f} {SELECT * {ys OPTIONAL {zs FILTER g}}}`, which the planner accepts: the plan is right if and only if no solution of `xs` and `ys` passes one filter and fails the other. |
| Limits.GraphFilterExactly | crates/holos-engine/src/bindjoin.rs:696-705 | For `GRAPH ?g { t FILTER(sameTerm(?g, n)) }`, which the planner accepts, the plan is right if and only if graph `n` holds no match for `t`. |
| Limits.NamedTableExactly | crates/holos-engine/src/bindjoin.rs:753-776 | `GRAPH <n> { VALUES ?x {t} }`, which the planner accepts, is planned rightly if and only if the store has the graph. |
| Limits.EachTableExactly | crates/holos-engine/src/bindjoin.rs:753-776 | `SELECT ?x { GRAPH ?g { VALUES ?x {t} } }`, which the planner accepts, is planned rightly if and only if the store has exactly one named graph. |
| Items.MeaningTake | crates/holos-engine/src/bindjoin.rs:1424-1446 | Any required item may be taken next: joining it first and going on with the rest owes the same bag. |
| Items.MeaningScreened | crates/holos-engine/src/bindjoin.rs:1469-1485 | A filter applied as soon as its variables are bound has the verdict it would have at the end: what is owed after the ready filters is what was owed before, or nothing. |
| Items.MeaningOptional | crates/holos-engine/src/bindjoin.rs:1547-1582 | An optional's items, optionals of its own among them, put in front of the list owe exactly its matches carried on; owing nothing means it did not match. |
| Items.ItemBinds | crates/holos-engine/src/bindjoin.rs:401-438 | Every row of an item binds the variables counted certain and none but the item's own. |
| Commuting.LeftJoinsCommute | crates/holos-engine/src/bindjoin.rs:852-889 | Optionals commute with a join that binds none of their own variables, multiplicities included. |
| Commuting.LeftJoinsFiltered | crates/holos-engine/src/bindjoin.rs:716-744 | A filter over variables bound before the optionals may be applied before them. |
| Commuting.MeaningSettles | crates/holos-engine/src/bindjoin.rs:1455-1596 | Where every optional's variables are its own or bound before it, and its filters decided once it has matched, what the loop owes is the left joins in source order. |
| BindJoin.Run.Step | crates/holos-engine/src/bindjoin.rs:1455-1596 | From the current bindings, delivers every completion of the remaining items that passes the pending filters, until the limit, and leaves the bindings as it found them; given up on the way, it has delivered some of them. With nothing unknown, only the budget or the token gives it up. |
| BindJoin.Run.StepOptional | crates/holos-engine/src/bindjoin.rs:1536-1582 | Tries the optional and, only if nothing completed, goes on without it; read off `completions`, which a deduplicated or skipped row moves too. |
| BindJoin.Run.StepUnion | crates/holos-engine/src/bindjoin.rs:1511-1529 | Each branch in turn, its patterns in front of the rest, delivers the union joined with the bindings. |
| BindJoin.Run.Probe | crates/holos-engine/src/bindjoin.rs:1650-1775 | One scan by what is known, each match bound and undone, delivers the join with the pattern's bag, in any scan order. |
| BindJoin.Run.BindQuad | crates/holos-engine/src/bindjoin.rs:2265-2350 | Binding a quad graph first, then the three positions, succeeds exactly when it matches, with the match as result, and what was added can be undone. |
| BindJoin.Run.RowsOfValues | crates/holos-engine/src/bindjoin.rs:1976-2029 | Each VALUES row tried in turn, UNDEF binding nothing, delivers the join with the table; a term the dictionary lacks gives the run up. |
| BindJoin.Run.ProbeClosure | crates/holos-engine/src/bindjoin.rs:1780-1912 | Walked from whichever end is bound, a closure delivers exactly the solutions section 18.4 gives it that agree with the bindings, each once. |
| BindJoin.Run.ClosureZeroOnly | crates/holos-engine/src/bindjoin.rs:1919-1965 | When the predicate is unknown, the zero-length case alone delivers the closure. |
| BindJoin.Run.ZeroLengthAdmissible | crates/holos-engine/src/bindjoin.rs:2352-2390 | Two scans decide whether a term is a node of the graph, which is asked only when both ends are variables. |
| BindJoin.Run.WalkFrom | crates/holos-engine/src/bindjoin.rs:1853-1884 | With the far end known the walk stops at the one node that meets it; the rows are the closure's either way. |
| BindJoin.Run.Screen | crates/holos-engine/src/bindjoin.rs:1469-1485 | Applies each pending filter that is ready and passes exactly when all of those do; the others stay pending. |
| BindJoin.Run.Done | crates/holos-engine/src/bindjoin.rs:194-228 | The run is given up exactly when it was before, the rows kept and seen together exceed the budget, or this call read the token and it said to stop; the token is read in every 4096th call that gets that far and in no other. |
| BindJoin.Run.EmitRow | crates/holos-engine/src/bindjoin.rs:2097-2136 | Counts, projects, deduplicates, skips and keeps one row; the rows held exceed the budget by at most two. |
| BindJoin.KeyLosesNothing | crates/holos-engine/src/bindjoin.rs:2062-2088 | Scanning by the bound positions loses no match, and a match leaves no position unknown to the dictionary. |
| BindJoin.KeyKeepsOut | crates/holos-engine/src/bindjoin.rs:2062-2088 | A scan comes back with exactly the quads that agree with every position already known, constant or bound, and with the graph. |
| BindJoin.ScanIsJoin | crates/holos-engine/src/bindjoin.rs:1710-1763 | Extending the bindings by each quad of such a scan, in any order, is joining them with the pattern's bag. |
| BindJoin.MissingMatchesNothing | crates/holos-engine/src/bindjoin.rs:1661-1689 | A constant or graph name the dictionary lacks matches nothing. |
| Emission.EmittedIsSliced | crates/holos-engine/src/bindjoin.rs:2097-2136 | Stopping at the limit, skipping and deduplicating as rows arrive gives take(limit, drop(offset, dedup-if-distinct(everything))). |
| Emission.CompletionsMove | crates/holos-engine/src/bindjoin.rs:1547-1579 | `completions` changes exactly when there was a completion. |
| Closures.WalkAnswers | crates/holos-engine/src/reach.rs:42-62 | Walking forward from one end or backward from the other answers the same question, and it is the path's. |
| Closures.ClosureMember | crates/holos-engine/src/bindjoin.rs:1780-1912 | Which solutions a closure joins to the bindings: the linked pairs whose zero-length case the graph admits. |
| Closures.WalkRows | crates/holos-engine/src/bindjoin.rs:1861-1901 | Binding the far end to each node reached gives exactly the closure's rows, each once, even when only the one node sought was kept. |
| Closures.InadmissibleNothing | crates/holos-engine/src/bindjoin.rs:2352-2390 | A term that is no node of the graph starts no walk at all. |
| Scopes.EachTriple | crates/holos-engine/src/bindjoin.rs:688-705 | A triple pattern tagged with `GRAPH ?g` is that pattern matched in every named graph in turn, binding `?g`. |
| Scopes.EvalInLeftJoin | crates/holos-engine/src/bindjoin.rs:696-705 | A left join inside `GRAPH ?g` is the left join of what its sides are inside it, when the right side does not bind `?g` and the condition does not read it. |
| Reach.Reachable | crates/holos-engine/src/reach.rs:113-177 | On any graph, cyclic or not, a completed walk emits exactly the nodes joined to a seed by an allowed number of edges, each once (a seed of `+` only if a cycle returns to it), and expands each node at most once; an early stop has emitted only answers, ending with the one that stopped it. |
| Reach.Expand | crates/holos-engine/src/reach.rs:149-173 | One expansion crosses every edge out of a node and adds only answers. |
| Reach.Complete | crates/holos-engine/src/reach.rs:113-177 | When every node reached has been expanded, nothing is missing. |
| Hierarchies.Hierarchy.CloseTransitively | crates/holos-engine/src/entailment.rs:426-444 | Updating the map in place, in any key order, ends with each key mapped to everything reachable from it in the original map but itself, cycles included. |
| Hierarchies.Hierarchy.Reached | crates/holos-engine/src/entailment.rs:428-440 | One stack-driven walk finds exactly the terms above a key. |
| Hierarchies.ClosureIs | crates/holos-engine/src/entailment.rs:426-444 | That closure is unique. |
| Materialise.ReadSchema | crates/holos-engine/src/entailment.rs:184-200 | The four schema maps hold exactly the schema statements read. |
| Materialise.FindContainers | crates/holos-engine/src/entailment.rs:202-230 | The axioms are those of the container membership properties used in any position, each found once; `Consequences.MembershipExactly` says which terms those are. |
| Materialise.Prepare | crates/holos-engine/src/entailment.rs:184-284 | What the fixpoint starts from: the assertions, the container axioms and both closed hierarchies. |
| Materialise.Round | crates/holos-engine/src/entailment.rs:289-341 | One semi-naive round derives from the frontier alone and keeps the invariant: nothing unforced is known and everything off the frontier has been acted on. |
| Materialise.Saturate | crates/holos-engine/src/entailment.rs:289-341 | On every input the loop ends, with the least set closed under rdfs2, rdfs3, rdfs7 and rdfs9, or with more gained than the budget; when it finishes, the count of rounds is the number of the first round, each applying the rules to everything before it, that finds nothing. |
| Materialise.ClassesAndProperties | crates/holos-engine/src/entailment.rs:352-368 | The terms used as a class or as a property in any position. |
| Materialise.AddReflexive | crates/holos-engine/src/entailment.rs:343-379 | The reflexive pass adds rdfs6 and rdfs10 for exactly those terms, once. |
| Materialise.Write | crates/holos-engine/src/entailment.rs:386-418 | Writing succeeds exactly when the policy permits every statement to be written; a success adds exactly them and counts them; a refusal may have written some. |
| Materialise.Run | crates/holos-engine/src/entailment.rs:157-419 | A run that finishes leaves the store with exactly the RDFS closure and its reflexive statements, less what was asserted, and counts what it added; one over budget writes nothing, and the whole closure really is over it; one refused was refused for a statement it had to write; a run that finishes reports the number of the first round that finds nothing. |
| Consequences.MembershipExactly | crates/holos-engine/src/entailment.rs:221-226 | The container positions are exactly the IRIs of the RDF namespace, an underscore and decimal digits, at least one. |
| Consequences.AxiomsOnly | crates/holos-engine/src/entailment.rs:202-230 | The axioms are, of each container position in any place of a statement and of no other term, its type and its super-property. |
| Consequences.RanWhen | crates/holos-engine/src/entailment.rs:386-418 | A run that finishes leaves the store saying what the statements below speak of: the closure and its reflexive statements. |
| Consequences.PositionsNamed | crates/holos-engine/src/entailment.rs:202-341 | After a finished run over a store that says `x rdf:_n y`, for whatever n, it says `x rdfs:member y`, and of `rdf:_n` its type and its super-property. |
| Consequences.RunInherits | crates/holos-engine/src/entailment.rs:289-341 | And it says what rdfs7 and rdfs9 conclude from any two asserted statements. |
| Consequences.RunTypes | crates/holos-engine/src/entailment.rs:289-341 | And what rdfs2 and rdfs3 conclude, for an object that is an IRI or a blank node, and that what is reified is a proposition. |
| Consequences.RunChains | crates/holos-engine/src/entailment.rs:236-284 | And that two asserted subclass or subproperty statements in a row make one, a cycle included. |
| Consequences.RunReflexive | crates/holos-engine/src/entailment.rs:343-379 | And the reflexive statement of each predicate and each IRI or blank node in a place that makes it a class or a property. |
| Consequences.ReflexiveOnly | crates/holos-engine/src/entailment.rs:343-379 | Of a set of statements, the reflexive pass says that and nothing else. |
| Consequences.SubjectsOnly | crates/holos-engine/src/entailment.rs:386-395 | It says nothing of a literal or a triple term. |
| Consequences.WrittenThere | crates/holos-engine/src/entailment.rs:386-418 | A finished run takes nothing away and writes to the one graph it was given exactly what no graph said before. |
| Rdfs.EntailmentExists | crates/holos-engine/src/entailment.rs:289-341 | The least closed set exists for every store: no rule invents a term. |
| Rdfs.LeastIsUnique | crates/holos-engine/src/entailment.rs:289-341 | And there is only one. |
| Rdfs.RuleInduction | crates/holos-engine/src/entailment.rs:289-341 | What holds of the start and is kept by the four rules holds of the closure. |
| Rematerialise.SchemaUnderived | crates/holos-engine/src/entailment.rs:184-200 | With a plain schema the rules derive no schema statement, so reading the schema once loses nothing. |
| Rematerialise.SecondRun | crates/holos-engine/src/entailment.rs:149-151 | When every schema statement the closure holds was there when the schema was read, the fixpoint reached from what a run leaves derives nothing if and only if the rules find nothing new in the reflexive statements. |
| Rematerialise.PlainSettles | crates/holos-engine/src/entailment.rs:184-200 | With a plain schema (no schema predicate has a domain, a range or a super-property) both of those hold. |
| Rematerialise.TwiceExactly | crates/holos-engine/src/entailment.rs:149-151 | For any schema, the reflexive pass over what a run leaves adds at most two statements: the reflexive ones of `rdfs:subClassOf` and `rdfs:subPropertyOf`. |
| Rematerialise.ThirdRun | crates/holos-engine/src/entailment.rs:149-151 | When the schema was settled and its reflexive statements led nowhere new, what two runs leave is closed if and only if the rules find nothing new in what the second added. |
| Reruns.AfterRun | crates/holos-engine/src/entailment.rs:386-418 | After a run that finished the store says the closure and its reflexive statements, no more and no less. |
| Reruns.SecondCall | crates/holos-engine/src/entailment.rs:149-151 | Two runs over one store, into whichever graphs, the first deriving no schema statement it had not read and its reflexive statements leading nowhere new: the second adds, and counts, exactly the statements outstanding, which the assertions before the first run determine. |
| Reruns.IdempotentExactly | crates/holos-engine/src/entailment.rs:149-151 | When the first run derives no schema statement it had not read, the second adds nothing if and only if the reflexive statements lead nowhere new and the assertions, when there are any, speak of properties under properties and, where they make anything a class, of classes under classes. |
| Reruns.ThirdCall | crates/holos-engine/src/entailment.rs:149-151 | Under what `Reruns.SecondCall` asks, a third run adds nothing, and leaves the store as it was, if and only if the rules find nothing new in what the second added. |
| Reruns.CompletedExists | crates/holos-engine/src/entailment.rs:157-419 | For every store and graph there is a run that finishes. |
| Reruns.PlainEndures | crates/holos-engine/src/entailment.rs:184-200 | A store with a plain schema meets everything asked above, so its third run always adds nothing. |
| Reruns.MaterialiseThrice | crates/holos-engine/src/entailment.rs:157-419 | Three calls in a row over a store whose schema endures: the second counts the outstanding statements, the third none. |
| Reruns.OneTriple | crates/holos-engine/src/entailment.rs:149-151 | A store of one ordinary triple gains one statement from its second run. |
| Reruns.IndirectSchema | crates/holos-engine/src/entailment.rs:184-200 | With a property under `rdfs:subClassOf`, the second run adds a type the first could not reach, since the class hierarchy is read once. |
| Saturation.RunWithin | crates/holos-engine/src/entailment.rs:291-352 | A run is sound: what it leaves is within every set of statements that holds the assertions and is closed under the RDFS rules. |
| Saturation.NothingToAdd | crates/holos-engine/src/entailment.rs:149-151 | For every store, a run adds nothing, and leaves the store as it was, if and only if the store is closed under the RDFS rules, each read off the store's own statements. |
| Saturation.RepeatedExactly | crates/holos-engine/src/entailment.rs:149-151 | After any number of runs, the next adds nothing if and only if what is there is the RDFS closure (the least closed set) of the store before the first. |
| Rematerialise.FullIsWritable | crates/holos-engine/src/entailment.rs:388-395 | No statement of the closure has a subject a triple may not have. |
| Equality.CollectPins | crates/holos-engine/src/equality.rs:301-374 | One pass over the conjuncts finds the pins of `=`, `sameTerm`, `IN` and the label idiom. |
| Pinning.OnePinned | crates/holos-engine/src/equality.rs:301-374 | Every conjunct that equates a variable with an IRI or a plain string, or names any constant with `sameTerm`, on either side, gives a pin to that constant. |
| Pinning.AnyPinned | crates/holos-engine/src/equality.rs:301-374 | Every `IN` over such constants gives a pin to exactly those, without repeats. |
| Pinning.LabelPinned | crates/holos-engine/src/equality.rs:354-372 | `str(?l) = s` and `lang(?l) = t`, anywhere among the conjuncts, give a pin to the three tagged forms. |
| Pinning.PinsOnly | crates/holos-engine/src/equality.rs:301-374 | Every pin comes from one of those. |
| Equality.PinsAdmit | crates/holos-engine/src/equality.rs:301-374 | A solution the filter keeps has, in each pinned variable, one of the pin's candidates; the candidates do not repeat. |
| Equality.LabelAdmits | crates/holos-engine/src/equality.rs:354-372 | `str(?l) = s` with `lang(?l) = t` leaves exactly the tagged forms listed. |
| Equality.StoreBoundHolds | crates/holos-engine/src/equality.rs:241-290 | A variable counted bound by the store is bound, in every solution, to a term the store holds. |
| Pinning.BoundExactly | crates/holos-engine/src/equality.rs:241-290 | A variable is counted bound by the store exactly when each choice of union branches, without the optional sides, scans something that has it. |
| Equality.JoinPin | crates/holos-engine/src/equality.rs:195-222 | Joining a table of distinct candidates is selecting the solutions that have one: no row is lost or doubled. |
| Equality.NothingMatches | crates/holos-engine/src/equality.rs:162-185 | The unmatchable pattern matches nothing in any graph of the store. |
| Equality.PinnedInput | crates/holos-engine/src/equality.rs:187-224 | The loop wraps the filter's input in one join for each pin within the store-bound variables. |
| Pinning.EachPinUsed | crates/holos-engine/src/equality.rs:187-224 | Each of the pins is used, on the input as the pins before it left it. |
| Pinning.OneUsed | crates/holos-engine/src/equality.rs:187-224 | Over triples, a filter that names one constant for one of their variables becomes the filter over the triples joined with a table of it, or with the unmatchable pattern when the store has never seen it. |
| Pinning.EveryFilter | crates/holos-engine/src/equality.rs:85-160 | Wherever in a query a filter stands, the rewritten query has it over its input rewritten and joined with the input's pins. |
| Pinning.RewrittenWithin | crates/holos-engine/src/equality.rs:85-160 | What any part of a query becomes is part of what the query becomes: the rewrite goes everywhere. |
| Equality.RewriteSame | crates/holos-engine/src/equality.rs:85-160 | For every regular pattern, store and active graph, at any depth, the rewritten pattern has the same bag of solutions. |
| Equality.PathPinExactly | crates/holos-engine/src/equality.rs:258-263 | For a zero-length path to a constant, the rewrite is right if and only if the store knows the constant. |
| RewrittenQueries.RewriteAnswers | crates/holos-engine/src/equality.rs:85-160 | The rewritten query has exactly the answers the query has, sliced or not, when it is regular under its top slice. |
| BoundJoin.RewriteServices | crates/holos-engine/src/boundjoin.rs:130-248 | One walk serves both passes: it asks for exactly the clauses' candidates, in order, and gives the n-th keys to the n-th clause. |
| BoundJoin.ServiceCandidates | crates/holos-engine/src/boundjoin.rs:99-107 | The collecting pass lists each clause's candidates in that order. |
| BoundJoin.WithPushedKeys | crates/holos-engine/src/boundjoin.rs:114-118 | The filling pass joins each clause's keys into it. |
| BoundJoin.CandidatesCount | crates/holos-engine/src/boundjoin.rs:99-118 | There is one entry for each clause. |
| Sending.CandidatesShared | crates/holos-engine/src/boundjoin.rs:120-248 | A clause is asked for exactly the variables it shares with what it is to be joined with: the other side of a join around it, at whatever depth, or the left side of an OPTIONAL it is on the right of. |
| Sending.FilledAt | crates/holos-engine/src/boundjoin.rs:149-160 | The n-th keys end up in the n-th clause, as a table beside what was there. |
| Sending.ProbeAsksNobody | crates/holos-engine/src/boundjoin.rs:256-335 | The probe has no clause left, and filling a query changes nothing but the insides of its clauses. |
| Sending.BodyBare | crates/holos-engine/src/boundjoin.rs:443-452 | The body the probe asks about is the query with every projection, DISTINCT, slice and ordering above it off, and nothing further. |
| BoundJoin.KeysFromRows | crates/holos-engine/src/boundjoin.rs:459-511 | The keys are exactly the distinct tuples of the columns every row binds; there are none only when there is nothing to send, no such column, or more than 1024 tuples. |
| Sending.KeysAreSent | crates/holos-engine/src/boundjoin.rs:459-511 | What comes back as keys is over the columns with a value in every row, from the left, with one row for each different way they are filled, 1024 at most. |
| Sending.TooManyKeys | crates/holos-engine/src/boundjoin.rs:459-511 | When nothing comes back for having too many, they are filled in more than 1024 different ways. |
| Sending.NoneKept | crates/holos-engine/src/boundjoin.rs:459-511 | Or when no column is kept: none has a value in every row. |
| Sending.KeptExactly | crates/holos-engine/src/boundjoin.rs:459-511 | A column is kept exactly when every row has a value in it. |
| Sending.SendableExactly | crates/holos-engine/src/lib.rs:451-473 | A value can be sent exactly when it has no blank node in it, in a triple term at any depth included. |
| BoundJoin.TableKeeps | crates/holos-engine/src/boundjoin.rs:149-160 | Joining the keys keeps every solution they cover, once. |
| BoundJoin.ServicesOnlyAdd | crates/holos-engine/src/boundjoin.rs:256-335 | Every solution of a monotone pattern (joins, unions, GRAPH blocks, subqueries, and filters and BINDs the local part settles, over services) extends one of the probe's. |
| BoundJoin.CertainBinds | crates/holos-engine/src/boundjoin.rs:256-335 | The variables counted certain are bound in every solution, whatever the services say. |
| BoundJoin.PushSame | crates/holos-engine/src/boundjoin.rs:130-248 | Pushing covering keys into every clause of a monotone pattern, none by a variable that a subquery around it hides or a BIND around it sets, leaves its join with any context the same bag. |
| BoundJoin.PushOutward | crates/holos-engine/src/boundjoin.rs:175-186 | The same for a query's body with services on either side of its OPTIONALs, through any test the local part settles. |
| BoundJoin.KeysCover | crates/holos-engine/src/boundjoin.rs:459-511 | Keys read off a probe solution cover everything that extends it. |
| BoundJoin.FilledAnswers | crates/holos-engine/src/boundjoin.rs:443-457 | What is the same under the solution modifiers is the same over them. |
| BoundJoin.BindServices | crates/holos-engine/src/lib.rs:426-506 | What comes out is the query with the keys its own probe found in its clauses; when the body is `Outward`, it has exactly the answers of the query that went in. |
| BoundLimits.OneKey | crates/holos-engine/src/lib.rs:426-506 | When a query's one clause is asked for one variable and its probe finds one value, what comes out is the query with that key in that clause, or unchanged when the value cannot be sent. |
| BoundLimits.UnderMinusExactly | crates/holos-engine/src/boundjoin.rs:191-194 | For a service under MINUS, the query that comes out has the same answers if and only if its probe's value cannot be sent or is the one the service speaks of. |
| BoundLimits.BesideOptionalExactly | crates/holos-engine/src/boundjoin.rs:164-186 | The same for a service in an OPTIONAL beside a table that binds its variable. |
| BoundLimits.UnderFilterExactly | crates/holos-engine/src/boundjoin.rs:195-198 | For a filter over a service that the probe keeps and cannot pass for one of two rows: the same answers if and only if nothing was sent, or the service says nothing of that row that would pass. |
| BoundLimits.UnderSubqueryExactly | crates/holos-engine/src/boundjoin.rs:216-219 | For a service in a subquery that hides the variable: the same answers if and only if nothing was sent, or the value outside happens to be the one the service has for the variable inside. |
| BoundLimits.UnderGroupExactly | crates/holos-engine/src/boundjoin.rs:235-243 | For an aggregate over a service: the same answers if and only if nothing was sent, the service's row is the key's, or the aggregate of that row and of none agree in the columns selected. |
| BoundLimits.UnderDistinctExactly | crates/holos-engine/src/boundjoin.rs:220-222 | For DISTINCT over a service with a bound row and an unbound one: the same answers if and only if nothing was sent or the bound row is not the key's. |
| BoundLimits.UnderSliceExactly | crates/holos-engine/src/boundjoin.rs:226-234 | For a LIMIT of one over a service with two rows: the same answers if and only if nothing was sent or the first row is the key's. |
| BoundLimits.UnderBindExactly | crates/holos-engine/src/boundjoin.rs:203-211 | For a BIND over a service whose value before the service is heard suits one of two local rows: the same answers if and only if nothing was sent, or what the service and the BIND make does not go with the other row. |
| GroupTables.Materialised | crates/holos-engine/src/group.rs:90-184 | What comes out is the query with one thing replaced, the group's input: by a table of its rows over its variables in scope, or by the unmatchable pattern when a keyless group's input is empty. It has exactly the answers the query has. The query is left alone only when the input is one scan, is estimated over the budget, is outside the bind join or its solutions over the budget, meets something unknown or a token that says to stop, or has rows a table cannot carry. |
| GroupTables.TableSame | crates/holos-engine/src/group.rs:150-179 | The rows read back as a VALUES table, UNDEF included, are the bag of the input. |
| GroupTables.InputInScope | crates/holos-engine/src/group.rs:115-133 | Projecting the in-scope variables hides nothing the input binds, a path's graph variable included. |
| GroupTables.ReplacedAnswers | crates/holos-engine/src/group.rs:198-265 | Replacing the group's input by anything with the same bag keeps the answers, through the modifiers above it. |
| GroupTables.ReplacedOnly | crates/holos-engine/src/group.rs:198-265 | The replacement stands where the input stood, and with the input put back the query is as it was. |
| GroupTables.GroupReached | crates/holos-engine/src/group.rs:187-265 | The group is looked for through projections, DISTINCT, slices, orderings, filters and BINDs, and through nothing else. |
| DistinctTables.Materialised | crates/holos-engine/src/distinct.rs:53-87 | `SELECT DISTINCT ?p WHERE { ?s ?p ?o }`, ordered or sliced, comes out with the table of the confirmed predicates in the pattern's place and exactly the same answers; every other query is left alone. |
| DistinctTables.PredicatesMatched | crates/holos-engine/src/distinct.rs:120-136 | A free triple pattern has a solution with a given predicate exactly when a visible quad of the default graph uses it. |
| DistinctTables.DistinctAnswers | crates/holos-engine/src/distinct.rs:28-36 | The lists DISTINCT may return are exactly the repeat-free lists of the bag's members, so multiplicities may change under it. |
| DistinctTables.TableAnswers | crates/holos-engine/src/distinct.rs:145-171 | Replacing the pattern by the table keeps the answers. |
| DistinctTables.ShapeExactly | crates/holos-engine/src/distinct.rs:89-117 | A query has the shape exactly when it is, under one slice or none, DISTINCT over the projection of the predicate variable of one triple of three different variables, ordered or not. |
| Calendar.DateRoundTrip | crates/holos-core/src/inline.rs:305-326 | Every valid proleptic Gregorian date comes back from its day number. |
| Calendar.DayRoundTrip | crates/holos-core/src/inline.rs:305-326 | Every day number, past or future, gives a valid date whose number it is. |
| Calendar.NextDay | crates/holos-core/src/inline.rs:305-313 | The next day has the next number, leap years and centuries included. |
| Calendar.DaysInOrder | crates/holos-core/src/inline.rs:305-313 | Day numbers are strictly monotone in (year, month, day). |
| Calendar.Epoch | crates/holos-core/src/inline.rs:304-312 | The numbering starts at 1970-01-01; with the next day's number that fixes it. |
| Inline.RoundTrip | crates/holos-core/src/inline.rs:66-103 | Whatever literal is inlined decodes to itself, from an id that fits 64 bits. |
| Inline.DistinctIds | crates/holos-core/src/term_id.rs:95-128 | Literals with the same id are the same literal, across kinds as within one. |
| Inline.EncodesInteger | crates/holos-core/src/inline.rs:108-121 | An integer is inlined exactly when written canonically and in range; `Layout.IntegerWord` says at which id. |
| Layout.IntegerWord | crates/holos-core/src/term_id.rs:28-56 | The integer v has the id 0x4800_0000_0000_0000 + v, exactly when that is below 0x5000_0000_0000_0000 and not below 0x4000_0000_0000_0000, and the text is its canonical decimal numeral. |
| Layout.BooleanWord | crates/holos-core/src/inline.rs:174-188 | `true` has the id 0x7000_0000_0000_0010, `false` 0x7000_0000_0000_0000, and no other text of the kind has one. |
| Layout.FloatWord | crates/holos-core/src/inline.rs:133-173 | A canonical float has the id 0x5000_0000_8000_0000 plus its bits when positive, 0x5000_0000_FFFF_FFFF less them when negative. |
| Layout.StringWord | crates/holos-core/src/inline.rs:190-206 | Every string of at most six bytes, and no longer one, has an id: its bytes from the top down, its length, and the mark of a string under 0x7000_0000_0000_0000. |
| Layout.DateTimeWord | crates/holos-core/src/inline.rs:241-302 | An instant written `YYYY-MM-DDThh:mm:ssZ` has the id 0x6800_0000_0000_0000 plus its seconds since 1970, and nothing else of the kind has one. |
| Layout.NoOtherWord | crates/holos-core/src/inline.rs:66-103 | No other kind, and nothing with a language tag or a base direction, is inlined. |
| Layout.WordsRead | crates/holos-core/src/inline.rs:66-103 | A word outside 0x4000_0000_0000_0000 to 0x8000_0000_0000_0000 reads back as no literal; within, its first hexadecimal digit says of which kind. |
| Inline.IntegerIds | crates/holos-core/src/inline.rs:108-127 | Ids of integers sort as the integers. |
| Inline.FloatIds | crates/holos-core/src/inline.rs:133-173 | Ids of floats sort as the numbers, with negative zero just below zero. |
| Inline.StringIds | crates/holos-core/src/inline.rs:190-235 | Ids of short strings sort bytewise lexicographically, embedded zero bytes included. |
| Inline.PackString | crates/holos-core/src/inline.rs:190-206 | The shifting loop packs the bytes to the payload, or declines a long string. |
| Inline.UnpackString | crates/holos-core/src/inline.rs:208-235 | The unpacking loop takes the same bytes back out. |
| Inline.DateTimeIds | crates/holos-core/src/inline.rs:241-302 | Ids of instants sort chronologically. |
| Inline.SecondsBack | crates/holos-core/src/inline.rs:286-302 | Seconds since the epoch print as the instant they were counted to. |
| SimpleEntailment.Searcher.Search | crates/holos-conformance/src/entailment.rs:597-609 | True exactly when some extension of the given binding sends every goal to a fact; on success the binding is one, on failure it is as it was. |
| SimpleEntailment.Searcher.Unify | crates/holos-conformance/src/entailment.rs:612-619 | Fails only when no extension fits the triple, and otherwise leaves the least that does. |
| SimpleEntailment.Searcher.Bind | crates/holos-conformance/src/entailment.rs:629-649 | The same for one term, through triple terms. |
| SimpleEntailment.Entails | crates/holos-conformance/src/entailment.rs:565-590 | Decides whether the closure has an instance of the conclusion as a subgraph, for any order of goals and facts (RDF 1.1 Semantics, section 5.3). |
| CanonicalJson.CanonicalExactly | crates/holos-conformance/src/json.rs:51-104 | Two values have the same canonical text exactly when they are equal with members stably sorted by key and numbers compared by bits. |
| CanonicalJson.TextEnds | crates/holos-conformance/src/json.rs:63-104 | No value's text is a prefix of another's: the text reads back in one way only, `null` and the `n` of numbers included. |
| CanonicalJson.ByKeySorted | crates/holos-conformance/src/json.rs:87-92 | Members are written in key order. |
| CanonicalJson.ByKeyStable | crates/holos-conformance/src/json.rs:87-92 | Members that share a key keep their order, and none is lost. |
| CanonicalJson.Writer.Write | crates/holos-conformance/src/json.rs:63-104 | The recursive writer appends exactly that text to the buffer. |
| JsonTexts.NumberText | crates/holos-conformance/src/json.rs:70-73 | A number is an n and sixteen hexadecimal digits that, read by place and character code, are its bits. |
| JsonTexts.ConstantTexts | crates/holos-conformance/src/json.rs:65-69 | The texts of null, true and false. |
| JsonTexts.StringText | crates/holos-conformance/src/json.rs:74-76 | A string is its characters between quotes, each as itself, as a backslash and a letter, or as its hexadecimal code in braces. |
| JsonTexts.ArrayText | crates/holos-conformance/src/json.rs:77-85 | An array is its items' texts in order, commas between, in brackets. |
| JsonTexts.ObjectText | crates/holos-conformance/src/json.rs:86-102 | An object is its members in key order, those of one key in their own order, each the quoted key, a colon and the value's text, commas between, in braces. |
| JsonTexts.KeyLessExactly | crates/holos-conformance/src/json.rs:90-91 | Keys compare by the first character in which they differ, and a proper prefix comes first. |
| UnionFind.Root | crates/holos-engine/src/admit.rs:418-424 | Path halving in place ends at the representative and changes no node's. |
| UnionFind.Group | crates/holos-engine/src/admit.rs:330-342 | After all the unions, two patterns have the same root exactly when a chain of shared variables connects them. |
| UnionFind.HalvingKeeps | crates/holos-engine/src/admit.rs:418-424 | Pointing a node at its grandparent keeps the parent array acyclic and every root. |
| UnionFind.JoinedRoots | crates/holos-engine/src/admit.rs:337-338 | A union merges exactly two sets. |

## Left out

Hypotheses the theorems carry:

- Answering.Answer: asks of an accepted query that an OPTIONAL share only variables certain on its left and, within another, have no filter; that closures, VALUES, subqueries and empty basic graph patterns stand in the default graph or in a named graph the store has; that no filter under `GRAPH ?g` read `?g` and no OPTIONAL there bind it; that a subquery hide no graph variable, and have no filter in an OPTIONAL when filters come before it. `Limits`, `Misnumbered` and `Across` show what happens without most of these.
- Answering.Answer: rows are lists of terms, not of dictionary ids; a term's id is modelled as the term.
- Fragment.CollectExactly: describes the fragment without MINUS, which the source collects too (crates/holos-engine/src/bindjoin.rs:598) and this model refuses; the same holds of `Fragment.PlannedExactly` and `Answering.MakePlan`.
- BindJoin.Run.Done: reads the cancellation token as an arbitrary function of how often it has been read.
- Equality.RewriteSame: takes from SPARQL that `=` against an IRI or a plain string holds of the identical term alone; leaves out patterns in which a path that may have length zero joins a variable to a constant the store lacks, BIND to a variable already bound, and a slice below the top of a query over anything the rewrite changes.
- BoundJoin.BindServices: is proved for bodies built from SERVICE clauses, and from anything without one, by JOIN, UNION, GRAPH, ORDER BY, filters and BINDs the local part settles, and subqueries, as long as no clause is asked for a variable that a subquery around it hides or a BIND around it sets. At the top of a body, under nothing but settled filters, ORDER BY and the left sides of other OPTIONALs, it is also proved for an OPTIONAL whose left side is asked only for variables certain there, and whose right side either has no service or is built as above beside a left side built as above, with a condition the local part settles. `BoundLimits` refutes one family each of services under MINUS, OPTIONAL, FILTER, BIND, a subquery, an aggregate, DISTINCT and LIMIT. Every other use of those is neither proved nor refuted here: for example an OPTIONAL with a service, inside a JOIN or UNION, when nothing beside it binds the service's variable; the second of two OPTIONALs with services on their right; an OPTIONAL whose left side is asked for a variable not certain there; a service on the left of MINUS; a GROUP BY whose keys are what the service is asked for; DISTINCT over a service that always binds what it is asked for.
- DistinctTables.Materialised: takes from the store that its counts cover every predicate in use and from RDF that no predicate is a blank node.
- GroupTables.Materialised: asks that no slice stand between the group and the operators directly under the top, and of an input the bind join accepts what `Answering.Answer` asks.
- Reruns.SecondCall: asks that the first run derive no schema statement it had not read, and so do `Reruns.IdempotentExactly` and `Reruns.ThirdCall`; for other stores there is `Saturation.NothingToAdd`, told from the store before the run and not from the one before the first.
- Inline.RoundTrip: takes the parsing and printing of floats as a parameter, since a library does it, and reads a dateTime only in its canonical twenty-character UTC form.

Not modelled:

- MINUS inside the bind join: a matched right side's effect on `seen`, `skipped` and the rows is not rolled back in the source, and its shared-variable test uses possible variables.
- Row counts, statistics and cost: they choose an order, which the model leaves open.
- Index range spans for comparisons, the streaming sink of `evaluate_each`, and the evaluator's own operators.
- Expression evaluation beyond what the engine looks inside: other functions are arbitrary functions of their arguments' values.
- The translation of filters to the evaluator's form and what it refuses; blank nodes of a query are variables from the start.
- FROM and FROM NAMED, which the planner refuses, and `Reduced`, which the evaluator may treat as DISTINCT.
- ORDER BY expressions: ordering is an arbitrary order of the bag. Aggregates are arbitrary functions of a group's bag.
- The order of pushed keys and of candidate variables, which the source sorts for caching.
- Dictionary storage, access policy (a `View` is what the policy lets through; a refusal is a parameter of the write) and I/O.
- The RDFS vocabulary's ids: a record of distinct terms. Datatype entailment, literal canonicalisation and the witnesses added around the entailment search.
- The JSON parser, whose number grammar is a library's; canonical JSON starts from parsed values.
- `crs.rs`, `geo_ext.rs`, `functions.rs`, `memory.rs`, `dump.rs`, `audit.rs`, `vocab.rs`, the CLI, benchmarks and the HTTP client: floating-point series, thin wrappers and plumbing.
