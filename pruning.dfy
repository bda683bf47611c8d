/** The domain-specific pruning heuristic: not a distance estimate but a
    filter that returns 0 (keep) or infinity (push to the back of the
    frontier) for a candidate successor. */
module Pruning {
  import opened Inventory

  /** A frontier priority: a finite number or Python's `inf`. */
  datatype Estimate = Finite(value: int) | Infinite

  /** The ceiling table `item_limit`: the most of each bulk resource worth holding. */
  const ItemLimit: map<string, int> := map[
    "coal" := 1,
    "cobble" := 8,
    "ingot" := 6,
    "ore" := 1,
    "plank" := 6,
    "stick" := 6,
    "wood" := 1
  ]

  /** The tool items the heuristic looks up in every state. */
  const ToolItems: set<string> := {
    "bench", "furnace",
    "wooden_axe", "stone_axe", "iron_axe",
    "wooden_pickaxe", "stone_pickaxe", "iron_pickaxe"
  }

  /** `heuristic(state, action)` on the state after the action. `produces`
      is the action's Produces dictionary; its first key is the item the
      ceiling table is consulted for. The result is infinite when more than
      one bench or furnace is held, when any axe is held, when more than one
      pickaxe of some tier is held, or when the action's first produced item
      has a ceiling and the state holds more than it; otherwise it is 0. */
  function Heuristic(s: State, produces: Dict<int>): (h: Estimate)
    requires ToolItems <= s.vals.Keys
    requires |produces.keys| > 0 && produces.keys[0] in s.vals
    ensures h == Finite(0) || h == Infinite
    ensures h == Infinite <==> !ToolsWithinLimits(s) || OverCeiling(s, produces.keys[0])
  {
    if s.vals["bench"] > 1 then Infinite
    else if s.vals["furnace"] > 1 then Infinite
    else if s.vals["wooden_axe"] > 0 || s.vals["stone_axe"] > 0 || s.vals["iron_axe"] > 0 then Infinite
    else if s.vals["wooden_pickaxe"] > 1 || s.vals["stone_pickaxe"] > 1 || s.vals["iron_pickaxe"] > 1 then Infinite
    else
      var first := produces.keys[0];
      if first in ItemLimit && s.vals[first] > ItemLimit[first] then Infinite
      else Finite(0)
  }

  /** No bench or furnace beyond the first, no axe, at most one pickaxe per tier. */
  ghost predicate ToolsWithinLimits(s: State)
    requires ToolItems <= s.vals.Keys
  {
    && s.vals["bench"] <= 1 && s.vals["furnace"] <= 1
    && s.vals["wooden_axe"] <= 0 && s.vals["stone_axe"] <= 0 && s.vals["iron_axe"] <= 0
    && s.vals["wooden_pickaxe"] <= 1 && s.vals["stone_pickaxe"] <= 1 && s.vals["iron_pickaxe"] <= 1
  }

  /** The state holds more of `item` than its ceiling, if it has one. */
  ghost predicate OverCeiling(s: State, item: string)
    requires item in s.vals
  {
    item in ItemLimit && s.vals[item] > ItemLimit[item]
  }

  /** Every entry of the ceiling table, both ways: with the tools within
      their limits, an action whose first product is a bulk item keeps the
      successor up to the ceiling and prunes it one past the ceiling. */
  lemma CeilingTable(s: State, produces: Dict<int>)
    requires ToolItems <= s.vals.Keys && ToolsWithinLimits(s)
    requires |produces.keys| > 0 && produces.keys[0] in s.vals && produces.keys[0] in ItemLimit
    ensures s.vals[produces.keys[0]] <= ItemLimit[produces.keys[0]] ==> Heuristic(s, produces) == Finite(0)
    ensures s.vals[produces.keys[0]] == ItemLimit[produces.keys[0]] + 1 ==> Heuristic(s, produces) == Infinite
  {
  }

  /** The ceiling of each bulk item, by number: with the tools within their
      limits, a successor whose action first produces that item is kept
      exactly when it holds at most the ceiling. */
  lemma CeilingNumbers(s: State, produces: Dict<int>)
    requires ToolItems <= s.vals.Keys && ToolsWithinLimits(s)
    requires |produces.keys| > 0 && produces.keys[0] in s.vals
    ensures produces.keys[0] == "coal" ==> (Heuristic(s, produces) == Finite(0) <==> s.vals["coal"] <= 1)
    ensures produces.keys[0] == "cobble" ==> (Heuristic(s, produces) == Finite(0) <==> s.vals["cobble"] <= 8)
    ensures produces.keys[0] == "ingot" ==> (Heuristic(s, produces) == Finite(0) <==> s.vals["ingot"] <= 6)
    ensures produces.keys[0] == "ore" ==> (Heuristic(s, produces) == Finite(0) <==> s.vals["ore"] <= 1)
    ensures produces.keys[0] == "plank" ==> (Heuristic(s, produces) == Finite(0) <==> s.vals["plank"] <= 6)
    ensures produces.keys[0] == "stick" ==> (Heuristic(s, produces) == Finite(0) <==> s.vals["stick"] <= 6)
    ensures produces.keys[0] == "wood" ==> (Heuristic(s, produces) == Finite(0) <==> s.vals["wood"] <= 1)
  {
  }

  /** A state holding no tools and `plank` planks, plus `axe` wooden axes. */
  function PlankState(plank: int, axe: int): (s: State)
    ensures ToolItems <= s.vals.Keys && "plank" in s.vals && s.vals["plank"] == plank
  {
    Dict(["bench", "furnace", "wooden_axe", "stone_axe", "iron_axe",
          "wooden_pickaxe", "stone_pickaxe", "iron_pickaxe", "plank"],
         map["bench" := 0, "furnace" := 0, "wooden_axe" := axe, "stone_axe" := 0, "iron_axe" := 0,
             "wooden_pickaxe" := 0, "stone_pickaxe" := 0, "iron_pickaxe" := 0, "plank" := plank])
  }

  /** Crafting planks: six planks are kept, a seventh is pruned, and any
      state holding a wooden axe is pruned whatever its planks. */
  lemma PlankExamples(produces: Dict<int>)
    requires |produces.keys| > 0 && produces.keys[0] == "plank"
    ensures Heuristic(PlankState(6, 0), produces) == Finite(0)
    ensures Heuristic(PlankState(7, 0), produces) == Infinite
    ensures Heuristic(PlankState(6, 1), produces) == Infinite
  {
  }

  /** A successor whose first product has no ceiling is kept whenever the tools are within their limits. */
  lemma NoCeilingKeeps(s: State, produces: Dict<int>)
    requires ToolItems <= s.vals.Keys && ToolsWithinLimits(s)
    requires |produces.keys| > 0 && produces.keys[0] in s.vals && produces.keys[0] !in ItemLimit
    ensures Heuristic(s, produces) == Finite(0)
  {
  }

  /** The frontier priority `total_cost + heuristic(...)`. */
  function Priority(total: int, h: Estimate): (p: Estimate)
    ensures h == Finite(0) ==> p == Finite(total)
    ensures h == Infinite ==> p == Infinite
  {
    match h
    case Finite(v) => Finite(total + v)
    case Infinite => Infinite
  }

  /** `<` between priorities: numbers by value, every number below `inf`. */
  predicate EstimateLess(a: Estimate, b: Estimate) {
    match (a, b)
    case (Finite(x), Finite(y)) => x < y
    case (Finite(_), Infinite) => true
    case (Infinite, _) => false
  }
}
