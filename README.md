# Crafting planner: model and proofs

This project models the planning engine of a Minecraft-style crafting
planner (`src/craft_planner.py`). An inventory is an insertion-ordered
dictionary from item names to quantities. Each recipe has three parts:

- Consumes: items and amounts taken from the inventory;
- Requires: items that must be held;
- Produces: items and amounts added.

Each recipe also has a cost (its `Time`). The planner compiles every
recipe into a `check` and an `effect` function. It then runs a best-first
search from the initial inventory until it pops a state that meets the
goal amounts. The search keeps:

- a frontier of `(priority, state)` entries, popped least first;
- a best-known-cost map `distance`;
- a backpointer map `curBackState`.

The priority of a pushed state is its cost plus a domain-specific pruning
heuristic.

The Dafny modules follow the program's parts:

- `Inventory` (inventory.dfy): the ordered dictionary and `State`. This
  covers `State.copy`, the key tuple behind `__hash__`/`__eq__`, and the
  ordering `__lt__`. States are values: the source hashes them by content,
  and only ever mutates a fresh copy.
- `Rules` (rules.dfy): recipes, `check`, `effect`, `is_goal` and `graph`.
  `check`, `is_goal`, `graph` and the reference transition `Apply` are
  functions. `effect` and `copy` work by updating a fresh dictionary item by
  item, so they are methods with loops. Each is proved equal to its
  reference function.
- `Pruning` (pruning.dfy): `heuristic`, its ceiling table, and the frontier
  priority, with `inf` as `Infinite`.
- `Planner` (planner.dfy): the frontier and `heappop`, the bookkeeping
  invariant of `distance`/`curBackState`, the relaxation loop over
  `graph(currentState)`, and path reconstruction. It also holds `search`
  itself.

The headline result is `Planner.Search`: every plan it returns starts at
the initial inventory. At each step, the named recipe's check holds and its
effect gives the next state. The last state meets the goal and is marked
`"Done"`. An initial inventory that already meets the goal gives the
one-element plan. When the frontier runs dry, no plan exists at all. The
plan is rebuilt with the corrected walk `Planner.Walk`, not the
reconstruction of lines 155-163 as written (see Findings).

## Model

| member | source | states |
|---|---|---|
| Inventory.Dict.Set | src/craft_planner.py:64 | `d[k] = v` keeps the dictionary well formed and stores `v`. An existing key keeps its position; a new key is appended. |
| Inventory.KeyInjective | src/craft_planner.py:15-19 | Two states have equal key tuples exactly when they are equal. So hashing and comparing by `tuple(self.items())` agree with state equality. |
| Inventory.Copy | src/craft_planner.py:24-27 | The copy has the same items in the same order, with the same quantities. |
| Inventory.StateLessStrictTotal | src/craft_planner.py:21-22 | `__lt__` (lexicographic order of key tuples) is irreflexive and transitive. It is total on distinct states. |
| Rules.AtLeast | src/craft_planner.py:40-43 | The Consumes loop succeeds exactly when every consumed amount is available from the given position on. |
| Rules.AllPresent | src/craft_planner.py:46-48 | The Requires loop succeeds exactly when every required item is held, i.e. its count is positive. |
| Rules.Check | src/craft_planner.py:38-49 | `check(state)` holds exactly when each consumed amount is available and each required item is held. |
| Rules.Apply | src/craft_planner.py:59-70 | The successor state keeps the input's keys in the same order and stays well formed. |
| Rules.AddEach | src/craft_planner.py:62-64 | After the Produces pass, each item holds its old quantity plus its produced amount. The key order is unchanged. |
| Rules.SubtractEach | src/craft_planner.py:66-68 | After the Consumes pass, each item holds its old quantity minus its consumed amount. The key order is unchanged. |
| Rules.Effect | src/craft_planner.py:59-70 | `effect(state)` equals `Apply`: each item ends at old + produced − consumed. Items the recipe does not mention are unchanged, and the key order is kept. |
| Rules.EffectNonNegative | src/craft_planner.py:38-70 | Take non-negative quantities and non-negative products. If the check passes, no quantity of the effect is negative. |
| Rules.IsGoal | src/craft_planner.py:79-84 | `is_goal(state)` holds exactly when every goal amount is held. An empty goal always holds. |
| Rules.Graph | src/craft_planner.py:89-95 | Every yielded triple comes from a listed recipe whose check passes, together with its effect. Every recipe whose check passes is yielded. |
| Rules.GraphFrom | src/craft_planner.py:93-95 | The loop over `recipes[i..]` yields at most one triple per recipe. |
| Rules.GraphFromSound | src/craft_planner.py:93-95 | Each triple yielded from position `i` on has a passing check and the recipe's effect. |
| Rules.GraphFromComplete | src/craft_planner.py:93-95 | Each recipe from position `i` on whose check passes is yielded. |
| Rules.GraphOrder | src/craft_planner.py:93-95 | `graph` yields exactly one triple per applicable recipe, in recipe-list order, and none for the others. |
| Pruning.Heuristic | src/craft_planner.py:99-127 | The result is `inf` exactly when any of these holds, and 0 otherwise: a second bench or furnace, any axe, a second pickaxe of one tier, or more than the ceiling of the action's first produced item. |
| Pruning.CeilingTable | src/craft_planner.py:102-110 | Assume the tools are within limits. For each bulk item of the table, a state up to the ceiling is kept (0), and one past it is pruned (`inf`). |
| Pruning.CeilingNumbers | src/craft_planner.py:102-110 | Assume the tools are within limits. An action whose first product is coal, cobble, ingot, ore, plank, stick or wood is kept exactly when the state holds at most 1, 8, 6, 1, 6, 6 or 1 of it. |
| Pruning.PlankExamples | src/craft_planner.py:102-127 | For an action first producing planks, a toolless state with 6 planks is kept (0) and one with 7 is pruned (`inf`). With a wooden axe held, 6 planks are pruned too. |
| Pruning.NoCeilingKeeps | src/craft_planner.py:124-127 | Assume the tools are within limits. An action whose first product has no ceiling is kept. |
| Pruning.Priority | src/craft_planner.py:180 | `total_cost + heuristic` is the total cost when the heuristic is 0, and `inf` when it is `inf`. |
| Planner.EntryLessStrictTotal | src/craft_planner.py:149 | The heap's `<` on `(priority, state)` tuples is a strict total order. |
| Planner.LeastIsUnique | src/craft_planner.py:149 | A frontier has at most one least entry, so `heappop`'s choice is determined. |
| Planner.PopMin | src/craft_planner.py:149 | `heappop` returns an entry of the frontier that no other entry is below. The rest is the frontier minus that entry, as a multiset. |
| Planner.StartSound | src/craft_planner.py:144-146 | The initial bookkeeping satisfies the search invariant. |
| Planner.RecordKeepsSound | src/craft_planner.py:175-179 | Recording a cheaper route to a successor keeps the invariant: equal key sets, states shaped like the initial state, non-negative distances, consistent backpointers, and only the initial state without a predecessor. It never overwrites the initial state or the current state. |
| Planner.SoundIsChained | src/craft_planner.py:155-162 | Under the invariant, every backpointer leads to a state of strictly lower distance, and the initial state is the only root. So the backpointer walk terminates at the initial state. |
| Planner.GraphExpansion | src/craft_planner.py:174 | `graph(currentState)` can be called without KeyError, and yields only successors of the current state. |
| Planner.EntryFor | src/craft_planner.py:180 | The pushed entry holds the successor, with priority `inf` or distance plus step cost. |
| Planner.Relaxation | src/craft_planner.py:174-180 | The inner loop over the first `n` successors, one pass per successor: a pass records and pushes its successor only when it improves on the bookkeeping so far. Only positions below `n` are pushed, and the two maps keep equal key sets. |
| Planner.RelaxationPushed | src/craft_planner.py:177-180 | Successor `j` is pushed exactly when it is unrecorded, or strictly cheaper than recorded, after the passes over the successors before it. |
| Planner.RelaxationOrdered | src/craft_planner.py:174-180 | The pushed positions are strictly increasing: successors are pushed in `graph`'s order, each at most once. |
| Planner.RelaxationEntries | src/craft_planner.py:180 | The frontier keeps its old entries as a prefix. It then gains exactly one entry per push: the pushed successor's entry, with priority `inf` or the distance plus the step cost. |
| Planner.RelaxationKeys | src/craft_planner.py:177-178 | Afterwards the recorded states are exactly the old ones plus every successor. |
| Planner.RelaxationFrame | src/craft_planner.py:177-179 | A state that no push wrote keeps its distance and backpointer. It is recorded afterwards exactly when it was before. |
| Planner.RelaxationLastWrite | src/craft_planner.py:178-179 | A pushed state ends with what its last push wrote: the current distance plus its step cost, and a backpointer to the current state with that recipe. |
| Planner.RelaxationBounds | src/craft_planner.py:175-178 | No distance goes up. Every successor ends at most the current distance plus its step cost away. |
| Planner.RelaxationSound | src/craft_planner.py:174-179 | The loop keeps the bookkeeping invariant, and the current state's distance is unchanged. |
| Planner.Relax | src/craft_planner.py:174-180 | The loop as a method. Its result is exactly `Relaxation` over all successors, with `src` the pushed positions. It keeps the invariant and never raises a distance. Each successor ends at most the current distance plus its cost away. States not pushed keep their entries, and no other state becomes a key. The frontier keeps its prefix and gains one entry per pushed successor, carrying that successor with its priority. |
| Planner.Walk | src/craft_planner.py:153-171 | The corrected walk runs from the goal back to the initial state. It returns a path that starts at the initial state and ends with `(goal, 'Done')`, and each state's recorded recipe is named by the step before it. A goal with no predecessor gives `[(goal, 'Done')]`. |
| Planner.TracedLeads | src/craft_planner.py:177-179 | Along a path that follows the backpointers, each step's recipe passes its check and its effect gives the next state. |
| Planner.Reverse | src/craft_planner.py:171 | `path[::-1]` has the same length, with elements in reverse order. |
| Planner.FollowAsWritten | src/craft_planner.py:158-163 | The source's inner walk loop as written only appends. When it terminates, the last element read has no action. |
| Planner.WalkAsWritten | src/craft_planner.py:154-171 | The source's reconstruction as written: a result ends with `(goal, 'Done')`, and a longer result starts with an action-less state. |
| Planner.AsWrittenOneStepRaises | src/craft_planner.py:155-161 | As written, a goal one step from the initial state raises KeyError. |
| Planner.AsWrittenTwoStepsSkips | src/craft_planner.py:155-171 | As written, a goal two steps from the initial state gives a two-element path without the intermediate state and without either action. |
| Planner.WalkIsPlan | src/craft_planner.py:152-171 | The corrected walk from a popped goal state is a valid plan. |
| Planner.PoppedCover | src/craft_planner.py:149 | After the pop, every state that was recorded and not yet expanded is the popped one or still in the frontier. |
| Planner.RelaxedCover | src/craft_planner.py:174-180 | After relaxation, every recorded state is expanded, still in the frontier, or newly pushed. |
| Planner.CurrentExpanded | src/craft_planner.py:172-180 | Once the popped non-goal state is relaxed, every recipe whose check passes there leads to a recorded state. |
| Planner.CoveredAfterExpand | src/craft_planner.py:149-180 | One pop and expansion keeps the cover: every recorded state is expanded or in the frontier, with the popped state now expanded. |
| Planner.PlanStaysClosed | src/craft_planner.py:174-180 | If the frontier is empty and every recorded state is expanded, each state of a recipe chain from the initial state was expanded. Successors with priority `inf` are still pushed and recorded. |
| Planner.NoPlanWhenExhausted | src/craft_planner.py:148-153 | When the frontier is empty, no valid plan from the initial state reaches the goal. |
| Planner.Search | src/craft_planner.py:130-188 | A returned plan starts at the initial inventory. Each step applies the named recipe, whose check holds, and the plan ends in a goal state marked `"Done"`. An initial state that meets the goal gives `[(initial, 'Done')]` whenever the budget allows a pop. `EmptyFrontier` means that no valid plan exists. A timeout uses the whole budget. An empty frontier is reported before the budget runs out. |

## Left out

- The `__main__` block (lines 191-227) is not modelled. It loads `Crafting.json`, builds the recipes, sets up the initial state and prints the plan. The model takes the recipes, the initial state and the goal as parameters.
- `State.__str__` and every `print` in `search` are not modelled.
- Planner.Search: the wall-clock limit is replaced by a budget of `fuel` pops. The deadline check after each expansion becomes the loop test before the next pop. So the outer `while time() - start_time < limit` loop runs exactly once, as it does in the source: that loop is left only through `break` once the deadline has passed, and its test then fails straight away.
- Planner.Search: when the frontier runs dry, `heappop` raises IndexError, because the source's `while queue is not None` never stops by its own test. The model returns the value `EmptyFrontier` where the source raises.
- Planner.Search: it rebuilds the path with the corrected `Walk`, not with the walk of lines 155-163 as written. That walk is modelled separately, as `WalkAsWritten` (see Findings).
- Planner.Search: the domain conditions are preconditions (`RecipesOk`, `GoalOk`). The source raises only when the search reaches such a lookup. An item missing from the state raises KeyError. A recipe whose Produces entry is absent raises KeyError at `Crafting['Recipes'][action]['Produces']` in `heuristic` (line 124). The model reads an absent Produces as an empty dictionary. An empty Produces raises StopIteration at `next(iter(...))`. `check` and `is_goal` stop at the first failing item. Produces is read only for a recipe whose check passes, and the tool items only when a successor is pushed. The model requires these conditions of every recipe and goal item up front, as a one-time check of the domain. So it also excludes domains whose faulty parts the source never reaches. One example is an initial inventory that already meets the goal, which the source returns before evaluating any check. The same preconditions require positive recipe costs. In the source, the strict improvement test of line 177 alone keeps the backpointers acyclic, even with zero costs. The model's `Chained` states instead that each backpointer leads to a strictly lower distance, and the walk's `decreases distance[s]` needs that. Both use the strict test of line 177 together with positive costs, so zero-cost recipes are outside the model.
- Planner.Search: `Time` values are assumed to be integers; the model's costs are `int`, not floats.
- Planner.Search: the model does not claim that the plan has minimum cost. The heuristic is not admissible: `inf` sends a successor to the back of the frontier, so a costlier route to the goal can be popped first. No stale frontier entry is discarded either, so the source does not promise optimality.
- Planner.Search: `search` receives `graph` and `heuristic` as parameters. The model fixes them to the module's `graph` and `heuristic`, its only callers' arguments.
- `graph` yields the action's name. `heuristic` uses that name to look the action's Produces up again in `Crafting['Recipes']`. The model passes the recipe itself, which yields the same dictionary because recipe names are the keys of that table.
- The values of a recipe's Requires are never read (only `state[item] > 0` is tested), so they are kept as booleans and not interpreted.
- Pruning.Heuristic: `inf` is the symbolic `Infinite`, not a float.
- Pruning.Heuristic: the code prunes every state holding an axe, including the successor in which the first axe was just made (line 118), not only further axe-producing actions. The model follows the code.
- Planner.PopMin: `heapq`'s binary-heap layout is not modelled. The frontier is a sequence, and the pop removes one least entry. The heap invariant guarantees that this is the entry `heappop` returns, since `LeastIsUnique` shows the least entry is unique.
- Inventory.Copy: only the resulting dictionary is modelled, not the aliasing. Every state is a value, so an in-place update of a shared dictionary is not represented.

## Findings

| source | as written | input that shows it | evidently intended | confidence | as-written member | corrected member |
|---|---|---|---|---|---|---|
| src/craft_planner.py:155-162 | The walk first reads the goal's predecessor. Each loop pass then jumps from that state to its own predecessor *before* appending, and pairs it with the action that led *into* it. | A goal one recipe away from the initial state: the loop moves to the initial state's predecessor `None`, and `curBackState[None]` raises KeyError. A goal two recipes away: the result is `[(initial, None), (goal, 'Done')]`, missing the intermediate state and both actions. | The path from the initial state to the goal, ending with `(goal, 'Done')`: one recipe away gives `[(initial, recipe), (goal, 'Done')]`. Each state is paired with the action taken from it. The comment at lines 136-137 pairs each state with the action that led into it instead. The model chooses the first reading because the `'Done'` marker on the goal (line 154) and the main block's loop (lines 225-227), which prints each state and then its action, both fit it. | not executed | Planner.WalkAsWritten, Planner.AsWrittenOneStepRaises, Planner.AsWrittenTwoStepsSkips | Planner.Walk, Planner.WalkIsPlan |
