/** Recipes compiled into a precondition (`check`) and a transition
    (`effect`), the goal test, and the successor generator `graph`. */
module Rules {
  import opened Inventory

  /** A recipe of the domain. An absent Consumes, Requires (`needs`) or Produces entry
      is an empty dictionary. Only the keys of Requires are ever read. */
  datatype Recipe = Recipe(
    name: string,
    consumes: Dict<int>,
    needs: Dict<bool>,
    produces: Dict<int>,
    cost: int)

  ghost predicate WellFormed(r: Recipe) {
    r.consumes.Valid() && r.needs.Valid() && r.produces.Valid()
  }

  /** Every item the recipe mentions is an item of `s` (otherwise the
      source's `state[item]` raises KeyError). */
  ghost predicate Over(r: Recipe, s: State) {
    && r.consumes.vals.Keys <= s.vals.Keys
    && r.needs.vals.Keys <= s.vals.Keys
    && r.produces.vals.Keys <= s.vals.Keys
  }

  /** The loop `for item in d: if not state[item] >= d[item]: return False`,
      from position `i` of `d`'s key order on. */
  function AtLeast(s: State, d: Dict<int>, i: nat): (ok: bool)
    requires d.Valid() && d.vals.Keys <= s.vals.Keys && i <= |d.keys|
    ensures ok <==> forall j :: i <= j < |d.keys| ==> s.vals[d.keys[j]] >= d.vals[d.keys[j]]
    decreases |d.keys| - i
  {
    if i == |d.keys| then true
    else if !(s.vals[d.keys[i]] >= d.vals[d.keys[i]]) then false
    else AtLeast(s, d, i + 1)
  }

  /** The loop `for item in d: if not state[item] > 0: return False`,
      from position `i` of `d`'s key order on. */
  function AllPresent(s: State, d: Dict<bool>, i: nat): (ok: bool)
    requires d.Valid() && d.vals.Keys <= s.vals.Keys && i <= |d.keys|
    ensures ok <==> forall j :: i <= j < |d.keys| ==> s.vals[d.keys[j]] > 0
    decreases |d.keys| - i
  {
    if i == |d.keys| then true
    else if !(s.vals[d.keys[i]] > 0) then false
    else AllPresent(s, d, i + 1)
  }

  /** `check(state)` built by `make_checker`: true exactly when every
      consumed amount is available and every required item is held. */
  function Check(r: Recipe, s: State): (ok: bool)
    requires WellFormed(r) && Over(r, s)
    ensures ok <==>
      && (forall k :: k in r.consumes.vals ==> s.vals[k] >= r.consumes.vals[k])
      && (forall k :: k in r.needs.vals ==> s.vals[k] > 0)
  {
    var ok := AtLeast(s, r.consumes, 0) && AllPresent(s, r.needs, 0);
    assert ok ==> forall k :: k in r.consumes.vals ==> s.vals[k] >= r.consumes.vals[k] by {
      if ok {
        forall k | k in r.consumes.vals ensures s.vals[k] >= r.consumes.vals[k] {
          var j :| 0 <= j < |r.consumes.keys| && r.consumes.keys[j] == k;
        }
      }
    }
    assert ok ==> forall k :: k in r.needs.vals ==> s.vals[k] > 0 by {
      if ok {
        forall k | k in r.needs.vals ensures s.vals[k] > 0 {
          var j :| 0 <= j < |r.needs.keys| && r.needs.keys[j] == k;
        }
      }
    }
    ok
  }

  /** The amount a recipe dictionary gives an item; 0 when it does not mention it. */
  function Amount(d: Dict<int>, k: string): int {
    if k in d.vals then d.vals[k] else 0
  }

  /** The state `effect` produces: every item moved by its produced amount
      minus its consumed amount, in the same key order. */
  function Apply(r: Recipe, s: State): (n: State)
    requires s.Valid()
    ensures n.Valid() && n.keys == s.keys && n.vals.Keys == s.vals.Keys
  {
    Dict(s.keys, map k | k in s.vals :: s.vals[k] + Amount(r.produces, k) - Amount(r.consumes, k))
  }

  /** The Produces pass of `effect`: `next_state[item] = produces[item] + next_state[item]`
      for every item of `d`, in `d`'s order. */
  method AddEach(st: State, d: Dict<int>) returns (next: State)
    requires st.Valid() && d.Valid() && d.vals.Keys <= st.vals.Keys
    ensures next.Valid() && next.keys == st.keys && next.vals.Keys == st.vals.Keys
    ensures forall k :: k in st.vals ==> next.vals[k] == st.vals[k] + Amount(d, k)
  {
    next := st;
    for i := 0 to |d.keys|
      invariant next.Valid() && next.keys == st.keys && next.vals.Keys == st.vals.Keys
      invariant forall k :: k in st.vals ==>
        next.vals[k] == st.vals[k] + (if k in d.keys[..i] then d.vals[k] else 0)
    {
      var k := d.keys[i];
      assert k !in d.keys[..i];
      assert d.keys[..i + 1] == d.keys[..i] + [k];
      next := next.Set(k, d.vals[k] + next.vals[k]);
    }
    assert d.keys[..|d.keys|] == d.keys;
  }

  /** The Consumes pass of `effect`: `next_state[item] = next_state[item] - consumes[item]`
      for every item of `d`, in `d`'s order. */
  method SubtractEach(st: State, d: Dict<int>) returns (next: State)
    requires st.Valid() && d.Valid() && d.vals.Keys <= st.vals.Keys
    ensures next.Valid() && next.keys == st.keys && next.vals.Keys == st.vals.Keys
    ensures forall k :: k in st.vals ==> next.vals[k] == st.vals[k] - Amount(d, k)
  {
    next := st;
    for i := 0 to |d.keys|
      invariant next.Valid() && next.keys == st.keys && next.vals.Keys == st.vals.Keys
      invariant forall k :: k in st.vals ==>
        next.vals[k] == st.vals[k] - (if k in d.keys[..i] then d.vals[k] else 0)
    {
      var k := d.keys[i];
      assert k !in d.keys[..i];
      assert d.keys[..i + 1] == d.keys[..i] + [k];
      next := next.Set(k, next.vals[k] - d.vals[k]);
    }
    assert d.keys[..|d.keys|] == d.keys;
  }

  /** `effect(state)` built by `make_effector`: a copy of the state, then
      every Produces amount added, then every Consumes amount subtracted.
      Each item ends at its old quantity plus produced minus consumed (also
      when it is both produced and consumed), the items the recipe does not
      mention keep their quantity, and the key order is the input's. */
  method Effect(r: Recipe, s: State) returns (next: State)
    requires WellFormed(r) && s.Valid() && Over(r, s)
    ensures next.keys == s.keys && next.vals.Keys == s.vals.Keys
    ensures forall k :: k in s.vals ==>
      next.vals[k] == s.vals[k] + Amount(r.produces, k) - Amount(r.consumes, k)
    ensures forall k :: k in s.vals && k !in r.produces.vals && k !in r.consumes.vals ==>
      next.vals[k] == s.vals[k]
    ensures next == Apply(r, s)
  {
    next := Copy(s);
    next := AddEach(next, r.produces);
    next := SubtractEach(next, r.consumes);
    ghost var a := Apply(r, s);
    assert next.vals.Keys == a.vals.Keys;
    forall k | k in next.vals ensures next.vals[k] == a.vals[k] {
    }
    assert next.vals == a.vals;
  }

  /** An accepted transition never makes a quantity negative: when every
      quantity and every produced amount is non-negative and the recipe's
      check passes, the effect leaves every quantity non-negative. */
  lemma EffectNonNegative(r: Recipe, s: State)
    requires WellFormed(r) && s.Valid() && Over(r, s)
    requires forall k :: k in s.vals ==> s.vals[k] >= 0
    requires forall k :: k in r.produces.vals ==> r.produces.vals[k] >= 0
    requires Check(r, s)
    ensures forall k :: k in Apply(r, s).vals ==> Apply(r, s).vals[k] >= 0
  {
    forall k | k in s.vals ensures Apply(r, s).vals[k] >= 0 {
      assert Amount(r.produces, k) >= 0;
      assert Amount(r.consumes, k) <= s.vals[k];
    }
  }

  /** `is_goal(state)` built by `make_goal_checker`: true exactly when every
      goal item is held in at least the goal quantity; an empty goal always holds. */
  function IsGoal(goal: Dict<int>, s: State): (ok: bool)
    requires goal.Valid() && goal.vals.Keys <= s.vals.Keys
    ensures ok <==> forall k :: k in goal.vals ==> s.vals[k] >= goal.vals[k]
    ensures goal.keys == [] ==> ok
  {
    var ok := AtLeast(s, goal, 0);
    assert ok ==> forall k :: k in goal.vals ==> s.vals[k] >= goal.vals[k] by {
      if ok {
        forall k | k in goal.vals ensures s.vals[k] >= goal.vals[k] {
          var j :| 0 <= j < |goal.keys| && goal.keys[j] == k;
        }
      }
    }
    ok
  }

  /** One triple yielded by `graph`: the recipe (whose name is the action
      and whose cost is the step cost) and the resulting state. */
  datatype Successor = Successor(recipe: Recipe, next: State) {
    function Cost(): int { recipe.cost }
  }

  /** `graph(state)`: for each recipe, in list order, whose check passes,
      its name, its effect on the state and its cost. */
  function Graph(recipes: seq<Recipe>, s: State): (succs: seq<Successor>)
    requires s.Valid()
    requires forall r :: r in recipes ==> WellFormed(r) && Over(r, s)
    ensures |succs| <= |recipes|
    ensures forall t :: t in succs ==> t.recipe in recipes && Check(t.recipe, s) && t.next == Apply(t.recipe, s)
    ensures forall r :: r in recipes && Check(r, s) ==> Successor(r, Apply(r, s)) in succs
  {
    GraphFromSound(recipes, s, 0);
    GraphFromComplete(recipes, s, 0);
    assert recipes[0..] == recipes;
    GraphFrom(recipes, s, 0)
  }

  /** The triples `graph` yields for `recipes[i..]`. */
  function GraphFrom(recipes: seq<Recipe>, s: State, i: nat): (succs: seq<Successor>)
    requires s.Valid() && i <= |recipes|
    requires forall r :: r in recipes ==> WellFormed(r) && Over(r, s)
    ensures |succs| <= |recipes| - i
    decreases |recipes| - i
  {
    if i == |recipes| then []
    else
      var r := recipes[i];
      var rest := GraphFrom(recipes, s, i + 1);
      if Check(r, s) then [Successor(r, Apply(r, s))] + rest else rest
  }

  lemma {:induction false} GraphFromSound(recipes: seq<Recipe>, s: State, i: nat)
    requires s.Valid() && i <= |recipes|
    requires forall r :: r in recipes ==> WellFormed(r) && Over(r, s)
    ensures forall t :: t in GraphFrom(recipes, s, i) ==>
      t.recipe in recipes && Check(t.recipe, s) && t.next == Apply(t.recipe, s)
    decreases |recipes| - i
  {
    if i < |recipes| {
      GraphFromSound(recipes, s, i + 1);
      var r, rest := recipes[i], GraphFrom(recipes, s, i + 1);
      assert r in recipes;
      forall t | t in GraphFrom(recipes, s, i) ensures t.recipe in recipes && Check(t.recipe, s) && t.next == Apply(t.recipe, s) {
        if t !in rest {
          assert t == Successor(r, Apply(r, s));
        }
      }
    }
  }

  lemma {:induction false} GraphFromComplete(recipes: seq<Recipe>, s: State, i: nat)
    requires s.Valid() && i <= |recipes|
    requires forall r :: r in recipes ==> WellFormed(r) && Over(r, s)
    ensures forall r :: r in recipes[i..] && Check(r, s) ==> Successor(r, Apply(r, s)) in GraphFrom(recipes, s, i)
    decreases |recipes| - i
  {
    if i < |recipes| {
      GraphFromComplete(recipes, s, i + 1);
      assert recipes[i..] == [recipes[i]] + recipes[i + 1..];
    }
  }

  /** Positions from `i` on of the recipes whose check passes at `s`. */
  function PositionsFrom(recipes: seq<Recipe>, s: State, i: nat): seq<nat>
    requires s.Valid() && i <= |recipes|
    requires forall r :: r in recipes ==> WellFormed(r) && Over(r, s)
    decreases |recipes| - i
  {
    if i == |recipes| then []
    else (if Check(recipes[i], s) then [i] else []) + PositionsFrom(recipes, s, i + 1)
  }

  lemma {:induction false} PositionsFromSpec(recipes: seq<Recipe>, s: State, i: nat)
    requires s.Valid() && i <= |recipes|
    requires forall r :: r in recipes ==> WellFormed(r) && Over(r, s)
    ensures forall j :: 0 <= j < |PositionsFrom(recipes, s, i)| ==>
      i <= PositionsFrom(recipes, s, i)[j] < |recipes|
    ensures forall j, l :: 0 <= j < l < |PositionsFrom(recipes, s, i)| ==>
      PositionsFrom(recipes, s, i)[j] < PositionsFrom(recipes, s, i)[l]
    ensures forall k :: i <= k < |recipes| ==> (Check(recipes[k], s) <==> k in PositionsFrom(recipes, s, i))
    decreases |recipes| - i
  {
    if i < |recipes| {
      PositionsFromSpec(recipes, s, i + 1);
    }
  }

  lemma {:induction false} GraphFromAtPositions(recipes: seq<Recipe>, s: State, i: nat)
    requires s.Valid() && i <= |recipes|
    requires forall r :: r in recipes ==> WellFormed(r) && Over(r, s)
    ensures |GraphFrom(recipes, s, i)| == |PositionsFrom(recipes, s, i)|
    ensures forall j :: 0 <= j < |GraphFrom(recipes, s, i)| ==>
      PositionsFrom(recipes, s, i)[j] < |recipes| &&
      GraphFrom(recipes, s, i)[j] ==
        Successor(recipes[PositionsFrom(recipes, s, i)[j]], Apply(recipes[PositionsFrom(recipes, s, i)[j]], s))
    decreases |recipes| - i
  {
    if i < |recipes| {
      GraphFromAtPositions(recipes, s, i + 1);
      var g, p := GraphFrom(recipes, s, i + 1), PositionsFrom(recipes, s, i + 1);
      var r := recipes[i];
      if Check(r, s) {
        var G, P := [Successor(r, Apply(r, s))] + g, [i] + p;
        assert GraphFrom(recipes, s, i) == G;
        assert PositionsFrom(recipes, s, i) == P;
        forall j | 1 <= j < |G| ensures P[j] < |recipes| && G[j] == Successor(recipes[P[j]], Apply(recipes[P[j]], s)) {
          assert G[j] == g[j - 1] && P[j] == p[j - 1];
        }
      } else {
        assert GraphFrom(recipes, s, i) == g;
        assert PositionsFrom(recipes, s, i) == p;
      }
    }
  }

  /** `graph` yields exactly one triple per applicable recipe, in recipe-list
      order, and nothing for the others: `idx` lists the positions of the
      applicable recipes, strictly increasing, and the j-th triple belongs
      to the recipe at `idx[j]`. */
  lemma GraphOrder(recipes: seq<Recipe>, s: State) returns (idx: seq<nat>)
    requires s.Valid()
    requires forall r :: r in recipes ==> WellFormed(r) && Over(r, s)
    ensures |idx| == |Graph(recipes, s)|
    ensures forall j :: 0 <= j < |idx| ==> idx[j] < |recipes|
    ensures forall j, l :: 0 <= j < l < |idx| ==> idx[j] < idx[l]
    ensures forall j :: 0 <= j < |idx| ==>
      Graph(recipes, s)[j] == Successor(recipes[idx[j]], Apply(recipes[idx[j]], s))
    ensures forall k :: 0 <= k < |recipes| ==> (Check(recipes[k], s) <==> k in idx)
  {
    idx := PositionsFrom(recipes, s, 0);
    PositionsFromSpec(recipes, s, 0);
    GraphFromAtPositions(recipes, s, 0);
    forall j | 0 <= j < |idx|
      ensures Graph(recipes, s)[j] == Successor(recipes[idx[j]], Apply(recipes[idx[j]], s))
    {
      assert Graph(recipes, s)[j] in Graph(recipes, s);
    }
  }
}
