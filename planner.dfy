/** The best-first search: a frontier of `(priority, state)` entries from
    which the least is popped, a best-known-cost map `distance`, a
    backpointer map, expansion through `graph` with successors pushed at
    `cost + heuristic`, and path reconstruction from the backpointers. */
module Planner {
  import opened Inventory
  import opened Rules
  import opened Pruning

  // ---------------------------------------------------------------------
  // The frontier

  /** A frontier entry `(priority, state)`. */
  datatype Entry = Entry(priority: Estimate, state: State)

  /** Python's `<` on `(priority, state)` tuples: by priority, ties broken by `State.__lt__`. */
  predicate EntryLess(a: Entry, b: Entry)
    requires a.state.Valid() && b.state.Valid()
  {
    EstimateLess(a.priority, b.priority) || (a.priority == b.priority && StateLess(a.state, b.state))
  }

  lemma EntryLessStrictTotal(a: Entry, b: Entry, c: Entry)
    requires a.state.Valid() && b.state.Valid() && c.state.Valid()
    ensures !EntryLess(a, a)
    ensures EntryLess(a, b) && EntryLess(b, c) ==> EntryLess(a, c)
    ensures a != b ==> EntryLess(a, b) || EntryLess(b, a)
  {
    StateLessStrictTotal(a.state, b.state, c.state);
    if a != b && a.priority == b.priority {
      assert a.state != b.state;
    }
  }

  /** Any two entries that are both least in a frontier are the same entry,
      so which copy the heap pops does not matter. */
  lemma LeastIsUnique(q: seq<Entry>, e: Entry, f: Entry)
    requires forall x :: x in q ==> x.state.Valid()
    requires e in q && f in q
    requires forall x :: x in q ==> !EntryLess(x, e)
    requires forall x :: x in q ==> !EntryLess(x, f)
    ensures e == f
  {
    EntryLessStrictTotal(e, f, e);
  }

  /** `heappop(queue)`: removes and returns a least entry of the frontier. */
  method PopMin(q: seq<Entry>) returns (e: Entry, rest: seq<Entry>)
    requires |q| > 0
    requires forall x :: x in q ==> x.state.Valid()
    ensures e in q && multiset(rest) + multiset{e} == multiset(q)
    ensures forall x :: x in q ==> !EntryLess(x, e)
  {
    var m := 0;
    EntryLessStrictTotal(q[0], q[0], q[0]);
    for i := 1 to |q|
      invariant 0 <= m < i
      invariant forall j :: 0 <= j < i ==> !EntryLess(q[j], q[m])
    {
      if EntryLess(q[i], q[m]) {
        forall j | 0 <= j < i ensures !EntryLess(q[j], q[i]) {
          EntryLessStrictTotal(q[j], q[i], q[m]);
        }
        EntryLessStrictTotal(q[i], q[i], q[i]);
        m := i;
      }
    }
    e := q[m];
    rest := q[..m] + q[m + 1..];
    assert q == q[..m] + [q[m]] + q[m + 1..];
    forall x | x in q ensures !EntryLess(x, e) {
      var j :| 0 <= j < |q| && q[j] == x;
    }
  }

  // ---------------------------------------------------------------------
  // The domain and the search bookkeeping
  //
  // The quantified facts below carry explicit triggers on the named
  // predicate they state, so each is instantiated only where a proof
  // mentions it.

  /** One recipe of the domain, over the items of `s`: it mentions only
      items of `s`, has a positive cost and produces something (the
      heuristic reads its first product). */
  ghost predicate RecipeOk(r: Recipe, s: State) {
    WellFormed(r) && Over(r, s) && r.cost > 0 && |r.produces.keys| > 0
  }

  /** What the loaded domain must satisfy for the search never to raise:
      every recipe is as above and the heuristic's tool items are items of
      the initial state. */
  ghost predicate RecipesOk(recipes: seq<Recipe>, begin: State) {
    && begin.Valid() && ToolItems <= begin.vals.Keys
    && forall r {:trigger RecipeOk(r, begin)} :: r in recipes ==> RecipeOk(r, begin)
  }

  /** The goal mentions only items of the initial state. */
  ghost predicate GoalOk(goal: Dict<int>, begin: State) {
    goal.Valid() && goal.vals.Keys <= begin.vals.Keys
  }

  /** `s` has the items of `begin`, in the same order. */
  ghost predicate SameShape(s: State, begin: State) {
    s.Valid() && s.keys == begin.keys && s.vals.Keys == begin.vals.Keys
  }

  /** Every state the search reaches has the shape of the initial state, so the domain conditions carry over. */
  lemma RecipesOkShape(recipes: seq<Recipe>, begin: State, s: State)
    requires RecipesOk(recipes, begin) && SameShape(s, begin)
    ensures RecipesOk(recipes, s)
  {
    forall r | r in recipes ensures RecipeOk(r, s) {
      assert RecipeOk(r, begin);
    }
  }

  /** An entry of `curBackState`: `(None, None)` for the initial state, or
      the predecessor state and the recipe that led from it. */
  datatype Link = Start | From(prev: State, recipe: Recipe)

  /** The backpointer of `s` names a recipe of the list whose check holds at
      the predecessor and whose effect on the predecessor is `s`, and the
      recorded distance of `s` is at least the predecessor's plus the cost. */
  ghost predicate LinkOk(recipes: seq<Recipe>, distance: map<State, int>, back: map<State, Link>, s: State)
    requires distance.Keys == back.Keys && s in back && back[s].From?
  {
    var p, r := back[s].prev, back[s].recipe;
    && p in back && p.Valid() && r in recipes && WellFormed(r) && Over(r, p)
    && Check(r, p) && Apply(r, p) == s
    && distance[s] >= distance[p] + r.cost
  }

  /** What the search records about a state it has reached: the initial
      state's items, a non-negative distance, a consistent backpointer, and
      no missing predecessor unless it is the initial state. */
  ghost predicate Recorded(recipes: seq<Recipe>, begin: State, distance: map<State, int>, back: map<State, Link>, s: State)
    requires distance.Keys == back.Keys && s in back
  {
    && SameShape(s, begin) && distance[s] >= 0
    && (back[s] == Start ==> s == begin)
    && (back[s].From? ==> LinkOk(recipes, distance, back, s))
  }

  /** The invariant of the search bookkeeping: `distance` and
      `curBackState` have the same keys, the initial state is recorded at
      distance 0 with no predecessor, and every state is recorded as above. */
  ghost predicate Sound(recipes: seq<Recipe>, begin: State, distance: map<State, int>, back: map<State, Link>) {
    && distance.Keys == back.Keys
    && begin in back && back[begin] == Start && distance[begin] == 0
    && forall s {:trigger Recorded(recipes, begin, distance, back, s)} :: s in back ==> Recorded(recipes, begin, distance, back, s)
  }

  /** The initial state is the only state without a predecessor. */
  ghost predicate Rooted(begin: State, back: map<State, Link>) {
    && begin in back && back[begin] == Start
    && (forall s {:trigger back[s]} :: s in back && back[s] == Start ==> s == begin)
  }

  /** Following a backpointer strictly lowers the recorded distance, which stays non-negative. */
  ghost predicate Chained(distance: map<State, int>, back: map<State, Link>) {
    && distance.Keys == back.Keys
    && (forall s :: s in back ==> distance[s] >= 0)
    && (forall s {:trigger back[s]} :: s in back && back[s].From? ==> back[s].prev in back && distance[back[s].prev] < distance[s])
  }

  lemma SoundMember(recipes: seq<Recipe>, begin: State, distance: map<State, int>, back: map<State, Link>, s: State)
    requires Sound(recipes, begin, distance, back) && s in distance
    ensures s in back && SameShape(s, begin) && distance[s] >= 0
  {
    assert Recorded(recipes, begin, distance, back, s);
  }

  /** Costs are positive, so the backpointers never form a cycle and lead
      back to the initial state. */
  lemma SoundIsChained(recipes: seq<Recipe>, begin: State, distance: map<State, int>, back: map<State, Link>)
    requires RecipesOk(recipes, begin) && Sound(recipes, begin, distance, back)
    ensures Rooted(begin, back) && Chained(distance, back)
  {
    forall s | s in back ensures distance[s] >= 0 && (back[s] == Start ==> s == begin) {
      assert Recorded(recipes, begin, distance, back, s);
    }
    forall s | s in back && back[s].From? ensures back[s].prev in back && distance[back[s].prev] < distance[s] {
      assert Recorded(recipes, begin, distance, back, s);
      assert RecipeOk(back[s].recipe, begin);
    }
  }

  /** The bookkeeping right after setup: only the initial state, at distance 0, with no predecessor. */
  lemma StartSound(recipes: seq<Recipe>, begin: State)
    requires begin.Valid()
    ensures Sound(recipes, begin, map[begin := 0], map[begin := Start])
  {
    var d, b := map[begin := 0], map[begin := Start];
    forall s | s in b ensures Recorded(recipes, begin, d, b, s) {
      assert s == begin;
    }
  }

  /** Recording `n` with distance `distance[cur] + r.cost` and backpointer
      `(cur, r)`, as the search does when it finds a cheaper way to `n`,
      keeps the bookkeeping invariant and never touches the initial state
      or `cur` itself. */
  lemma RecordKeepsSound(recipes: seq<Recipe>, begin: State, distance: map<State, int>, back: map<State, Link>,
                         cur: State, r: Recipe, n: State)
    requires Sound(recipes, begin, distance, back) && cur in distance
    requires r in recipes && RecipeOk(r, cur) && cur.Valid() && Check(r, cur) && n == Apply(r, cur)
    requires n !in distance || distance[cur] + r.cost < distance[n]
    ensures n != begin && n != cur
    ensures Sound(recipes, begin, distance[n := distance[cur] + r.cost], back[n := From(cur, r)])
  {
    assert Recorded(recipes, begin, distance, back, cur);
    var d, b := distance[n := distance[cur] + r.cost], back[n := From(cur, r)];
    assert d.Keys == b.Keys;
    assert Recorded(recipes, begin, d, b, n);
    forall s | s in b && s != n ensures Recorded(recipes, begin, d, b, s) {
      RecordKeepsOther(recipes, begin, distance, back, cur, r, n, s);
    }
  }

  /** A state other than the one recorded keeps its record: its own entries
      are unchanged, and its predecessor's distance can only have dropped. */
  lemma RecordKeepsOther(recipes: seq<Recipe>, begin: State, distance: map<State, int>, back: map<State, Link>,
                         cur: State, r: Recipe, n: State, s: State)
    requires Sound(recipes, begin, distance, back) && cur in distance && distance[cur] >= 0 && r.cost > 0
    requires n !in distance || distance[cur] + r.cost < distance[n]
    requires s in back && s != n
    ensures Recorded(recipes, begin, distance[n := distance[cur] + r.cost], back[n := From(cur, r)], s)
  {
    assert Recorded(recipes, begin, distance, back, s);
    if back[s].From? {
      assert LinkOk(recipes, distance, back, s);
    }
  }

  // ---------------------------------------------------------------------
  // Expansion

  /** `t` is what `graph` yields at `s` for one of the recipes: a recipe of
      the domain whose check holds at `s`, and its effect on `s`. */
  ghost predicate Yields(recipes: seq<Recipe>, s: State, t: Successor)
    requires s.Valid()
  {
    t.recipe in recipes && RecipeOk(t.recipe, s) && Check(t.recipe, s) && t.next == Apply(t.recipe, s)
  }

  /** Every successor in `succs` is yielded at `s`. */
  ghost predicate Expansion(recipes: seq<Recipe>, s: State, succs: seq<Successor>)
    requires s.Valid()
  {
    forall t {:trigger Yields(recipes, s, t)} :: t in succs ==> Yields(recipes, s, t)
  }

  /** Under the domain conditions at `s`, `graph` can be called at `s`. */
  lemma GraphCallable(recipes: seq<Recipe>, s: State)
    requires RecipesOk(recipes, s)
    ensures forall r :: r in recipes ==> WellFormed(r) && Over(r, s)
  {
    forall r | r in recipes ensures WellFormed(r) && Over(r, s) {
      assert RecipeOk(r, s);
    }
  }

  /** Everything `graph` yields at `s` is a successor of `s`. */
  lemma GraphExpansion(recipes: seq<Recipe>, s: State)
    requires RecipesOk(recipes, s)
    ensures forall r :: r in recipes ==> WellFormed(r) && Over(r, s)
    ensures Expansion(recipes, s, Graph(recipes, s))
  {
    GraphCallable(recipes, s);
    var succs := Graph(recipes, s);
    forall t | t in succs ensures Yields(recipes, s, t) {
      assert RecipeOk(t.recipe, s);
    }
  }

  /** The heuristic can be evaluated on a successor: the tool items and the
      recipe's first product are items of the successor state. */
  ghost predicate Scorable(t: Successor) {
    ToolItems <= t.next.vals.Keys && |t.recipe.produces.keys| > 0 && t.recipe.produces.keys[0] in t.next.vals
  }

  lemma YieldsScorable(recipes: seq<Recipe>, s: State, t: Successor)
    requires s.Valid() && ToolItems <= s.vals.Keys && Yields(recipes, s, t)
    ensures Scorable(t)
  {
    var p := t.recipe.produces;
    assert p.keys[0] in p.vals;
  }

  /** The frontier entry pushed for successor `t` of a state at distance `d`:
      priority `d + cost + heuristic`. */
  function EntryFor(d: int, t: Successor): (e: Entry)
    requires Scorable(t)
    ensures e.state == t.next
    ensures e.priority == Infinite || e.priority == Finite(d + t.Cost())
  {
    Entry(Priority(d + t.Cost(), Heuristic(t.next, t.recipe.produces)), t.next)
  }

  /** Recording one successor of the inner loop when it improves on the
      known distance keeps the bookkeeping invariant. */
  lemma RelaxStep(recipes: seq<Recipe>, begin: State, cur: State, succs: seq<Successor>, i: nat,
                  distance: map<State, int>, back: map<State, Link>)
    requires cur.Valid() && Expansion(recipes, cur, succs) && i < |succs|
    requires Sound(recipes, begin, distance, back) && cur in distance
    requires succs[i].next !in distance || distance[cur] + succs[i].recipe.cost < distance[succs[i].next]
    ensures succs[i].next != cur
    ensures Sound(recipes, begin, distance[succs[i].next := distance[cur] + succs[i].recipe.cost],
                  back[succs[i].next := From(cur, succs[i].recipe)])
  {
    assert Yields(recipes, cur, succs[i]);
    RecordKeepsSound(recipes, begin, distance, back, cur, succs[i].recipe, succs[i].next);
  }

  /** Every successor of the expansion can be scored and costs a positive
      amount to reach. */
  lemma ExpansionScorable(recipes: seq<Recipe>, cur: State, succs: seq<Successor>)
    requires cur.Valid() && ToolItems <= cur.vals.Keys && Expansion(recipes, cur, succs)
    ensures AllScorable(succs)
    ensures forall j :: 0 <= j < |succs| ==> succs[j].Cost() > 0
  {
    forall j | 0 <= j < |succs| ensures Scorable(succs[j]) && succs[j].Cost() > 0 {
      assert Yields(recipes, cur, succs[j]);
      YieldsScorable(recipes, cur, succs[j]);
    }
  }

  /** The successors of `succs` can all be scored. */
  ghost predicate AllScorable(succs: seq<Successor>) {
    forall j {:trigger Scorable(succs[j])} :: 0 <= j < |succs| ==> Scorable(succs[j])
  }

  /** The bookkeeping after the inner loop has gone over a prefix of the
      successors: the distances, the backpointers, the positions of the
      successors it pushed, in order, and the frontier. */
  datatype Relaxed = Relaxed(dist: map<State, int>, back: map<State, Link>, pushed: seq<nat>, frontier: seq<Entry>)

  /** Successor `t`, reached at cost `d + t.Cost()`, improves on `r`: it has
      no distance yet, or a strictly larger one. */
  predicate Improves(r: Relaxed, d: int, t: Successor) {
    t.next !in r.dist || d + t.Cost() < r.dist[t.next]
  }

  /** One pass of the inner loop, for successor `i` of `cur`, which is at
      distance `d`: if the successor improves, it gets the distance
      `d + cost` and a backpointer to `cur`, and its entry is pushed;
      otherwise nothing changes. */
  function RelaxOne(r: Relaxed, cur: State, d: int, succs: seq<Successor>, i: nat): Relaxed
    requires i < |succs| && Scorable(succs[i])
  {
    var t := succs[i];
    if Improves(r, d, t) then
      Relaxed(r.dist[t.next := d + t.Cost()], r.back[t.next := From(cur, t.recipe)], r.pushed + [i], r.frontier + [EntryFor(d, t)])
    else r
  }

  /** The inner loop over `succs[..n]` as a function of the bookkeeping and
      the frontier it starts from. */
  function Relaxation(distance: map<State, int>, back: map<State, Link>, queue: seq<Entry>, cur: State, d: int,
                      succs: seq<Successor>, n: nat): (r: Relaxed)
    requires n <= |succs| && AllScorable(succs)
    ensures forall k :: 0 <= k < |r.pushed| ==> r.pushed[k] < n
    ensures distance.Keys == back.Keys ==> r.dist.Keys == r.back.Keys
    decreases n
  {
    if n == 0 then Relaxed(distance, back, [], queue)
    else
      assert Scorable(succs[n - 1]);
      RelaxOne(Relaxation(distance, back, queue, cur, d, succs, n - 1), cur, d, succs, n - 1)
  }

  /** The states whose entries the pushes named by `pushed` wrote. */
  ghost function PushedStates(succs: seq<Successor>, pushed: seq<nat>): set<State> {
    set k | 0 <= k < |pushed| && pushed[k] < |succs| :: succs[pushed[k]].next
  }

  /** Successor `j` is pushed exactly when it improves on the bookkeeping
      as it stands after the successors before it. */
  lemma {:induction false} RelaxationPushed(distance: map<State, int>, back: map<State, Link>, queue: seq<Entry>, cur: State, d: int,
                                            succs: seq<Successor>, n: nat)
    requires n <= |succs| && AllScorable(succs)
    ensures forall j {:trigger j in Relaxation(distance, back, queue, cur, d, succs, n).pushed} :: 0 <= j < n ==>
      (j in Relaxation(distance, back, queue, cur, d, succs, n).pushed <==> Improves(Relaxation(distance, back, queue, cur, d, succs, j), d, succs[j]))
    decreases n
  {
    if n > 0 {
      RelaxationPushed(distance, back, queue, cur, d, succs, n - 1);
      var p := Relaxation(distance, back, queue, cur, d, succs, n - 1).pushed;
      var p' := Relaxation(distance, back, queue, cur, d, succs, n).pushed;
      assert p' == p || p' == p + [n - 1];
      forall j | 0 <= j < n
        ensures j in p' <==> Improves(Relaxation(distance, back, queue, cur, d, succs, j), d, succs[j])
      {
        if j < n - 1 {
          assert j in p' <==> j in p;
        } else {
          assert n - 1 !in p;
        }
      }
    }
  }

  /** `p` lists positions in strictly increasing order. */
  ghost predicate Increasing(p: seq<nat>) {
    forall k, l :: 0 <= k < l < |p| ==> p[k] < p[l]
  }

  /** The successors are pushed in list order, each at most once. */
  lemma {:induction false} RelaxationOrdered(distance: map<State, int>, back: map<State, Link>, queue: seq<Entry>, cur: State, d: int,
                                             succs: seq<Successor>, n: nat)
    requires n <= |succs| && AllScorable(succs)
    ensures Increasing(Relaxation(distance, back, queue, cur, d, succs, n).pushed)
    decreases n
  {
    if n > 0 {
      RelaxationOrdered(distance, back, queue, cur, d, succs, n - 1);
      var p := Relaxation(distance, back, queue, cur, d, succs, n - 1).pushed;
      forall k | 0 <= k < |p| ensures p[k] < n - 1 {
      }
    }
  }

  /** The frontier grows only at the back, by one entry per pushed
      successor: the entry for that successor, with priority `inf` or `d`
      plus the step cost. */
  lemma {:induction false} RelaxationEntries(distance: map<State, int>, back: map<State, Link>, queue: seq<Entry>, cur: State, d: int,
                                             succs: seq<Successor>, n: nat)
    requires n <= |succs| && AllScorable(succs)
    ensures var r := Relaxation(distance, back, queue, cur, d, succs, n);
      && |r.frontier| == |queue| + |r.pushed| && r.frontier[..|queue|] == queue
      && forall k {:trigger r.pushed[k]} :: 0 <= k < |r.pushed| ==>
           Scorable(succs[r.pushed[k]]) && r.frontier[|queue| + k] == EntryFor(d, succs[r.pushed[k]])
    decreases n
  {
    if n > 0 {
      RelaxationEntries(distance, back, queue, cur, d, succs, n - 1);
      var r := Relaxation(distance, back, queue, cur, d, succs, n - 1);
      var r' := Relaxation(distance, back, queue, cur, d, succs, n);
      if Improves(r, d, succs[n - 1]) {
        assert r'.frontier[..|queue|] == r.frontier[..|queue|];
        forall k | 0 <= k < |r'.pushed|
          ensures Scorable(succs[r'.pushed[k]]) && r'.frontier[|queue| + k] == EntryFor(d, succs[r'.pushed[k]])
        {
          if k < |r.pushed| {
            assert r'.frontier[|queue| + k] == r.frontier[|queue| + k] && r'.pushed[k] == r.pushed[k];
          } else {
            assert r'.pushed[k] == n - 1;
          }
        }
      }
    }
  }

  /** The loop adds exactly the successors as new keys. */
  lemma {:induction false} RelaxationKeys(distance: map<State, int>, back: map<State, Link>, queue: seq<Entry>, cur: State, d: int,
                                          succs: seq<Successor>, n: nat)
    requires n <= |succs| && AllScorable(succs)
    ensures Relaxation(distance, back, queue, cur, d, succs, n).dist.Keys == distance.Keys + set j | 0 <= j < n :: succs[j].next
    decreases n
  {
    if n > 0 {
      RelaxationKeys(distance, back, queue, cur, d, succs, n - 1);
      assert (set j | 0 <= j < n :: succs[j].next) == (set j | 0 <= j < n - 1 :: succs[j].next) + {succs[n - 1].next};
    }
  }

  /** A state that no push of `r` wrote has the entries it had in
      `distance` and `back`, and is a key exactly when it was before. */
  ghost predicate Framed(r: Relaxed, distance: map<State, int>, back: map<State, Link>, succs: seq<Successor>) {
    forall s {:trigger s in r.dist} :: s !in PushedStates(succs, r.pushed) ==>
      (s in r.dist <==> s in distance) && (s in distance ==> s in r.back && s in back && r.dist[s] == distance[s] && r.back[s] == back[s])
  }

  lemma RelaxOneFramed(r: Relaxed, distance: map<State, int>, back: map<State, Link>, cur: State, d: int,
                       succs: seq<Successor>, i: nat)
    requires i < |succs| && Scorable(succs[i]) && Framed(r, distance, back, succs)
    ensures Framed(RelaxOne(r, cur, d, succs, i), distance, back, succs)
  {
    var t := succs[i];
    if Improves(r, d, t) {
      var p := r.pushed + [i];
      assert PushedStates(succs, p) == PushedStates(succs, r.pushed) + {t.next} by {
        assert forall k :: 0 <= k < |r.pushed| ==> p[k] == r.pushed[k];
        assert p[|r.pushed|] == i;
      }
    }
  }

  /** A state that no push wrote keeps its entries. */
  lemma {:induction false} RelaxationFrame(distance: map<State, int>, back: map<State, Link>, queue: seq<Entry>, cur: State, d: int,
                                           succs: seq<Successor>, n: nat)
    requires n <= |succs| && AllScorable(succs) && distance.Keys == back.Keys
    ensures Framed(Relaxation(distance, back, queue, cur, d, succs, n), distance, back, succs)
    decreases n
  {
    if n > 0 {
      RelaxationFrame(distance, back, queue, cur, d, succs, n - 1);
      assert Scorable(succs[n - 1]);
      RelaxOneFramed(Relaxation(distance, back, queue, cur, d, succs, n - 1), distance, back, cur, d, succs, n - 1);
    }
  }

  /** Push `k` of `pushed` is the last that writes its state. */
  ghost predicate LastPush(succs: seq<Successor>, pushed: seq<nat>, k: nat)
    requires k < |pushed| && forall l :: 0 <= l < |pushed| ==> pushed[l] < |succs|
  {
    forall l :: k < l < |pushed| ==> succs[pushed[l]].next != succs[pushed[k]].next
  }

  /** The state written by each last push holds what that push wrote: the
      distance `d` plus that successor's cost, and a backpointer to `cur`
      with that successor's recipe. */
  ghost predicate WrittenLast(r: Relaxed, cur: State, d: int, succs: seq<Successor>)
    requires forall l :: 0 <= l < |r.pushed| ==> r.pushed[l] < |succs|
  {
    forall k {:trigger LastPush(succs, r.pushed, k)} :: 0 <= k < |r.pushed| && LastPush(succs, r.pushed, k) ==>
      && succs[r.pushed[k]].next in r.dist && r.dist[succs[r.pushed[k]].next] == d + succs[r.pushed[k]].Cost()
      && succs[r.pushed[k]].next in r.back && r.back[succs[r.pushed[k]].next] == From(cur, succs[r.pushed[k]].recipe)
  }

  lemma RelaxOneWrittenLast(r: Relaxed, cur: State, d: int, succs: seq<Successor>, i: nat)
    requires i < |succs| && Scorable(succs[i]) && forall l :: 0 <= l < |r.pushed| ==> r.pushed[l] < i
    requires WrittenLast(r, cur, d, succs)
    ensures var r' := RelaxOne(r, cur, d, succs, i);
      (forall l :: 0 <= l < |r'.pushed| ==> r'.pushed[l] < |succs|) && WrittenLast(r', cur, d, succs)
  {
    var r' := RelaxOne(r, cur, d, succs, i);
    var t := succs[i];
    if Improves(r, d, t) {
      forall k | 0 <= k < |r'.pushed| && LastPush(succs, r'.pushed, k)
        ensures && succs[r'.pushed[k]].next in r'.dist && r'.dist[succs[r'.pushed[k]].next] == d + succs[r'.pushed[k]].Cost()
                && succs[r'.pushed[k]].next in r'.back && r'.back[succs[r'.pushed[k]].next] == From(cur, succs[r'.pushed[k]].recipe)
      {
        if k < |r.pushed| {
          assert r'.pushed[|r.pushed|] == i;
          assert succs[r'.pushed[|r.pushed|]].next != succs[r'.pushed[k]].next;
          assert LastPush(succs, r.pushed, k) by {
            forall l | k < l < |r.pushed| ensures succs[r.pushed[l]].next != succs[r.pushed[k]].next {
              assert r'.pushed[l] == r.pushed[l];
            }
          }
          assert r'.pushed[k] == r.pushed[k];
        }
      }
    }
  }

  /** A state's final entries come from the last push that wrote it. */
  lemma {:induction false} RelaxationLastWrite(distance: map<State, int>, back: map<State, Link>, queue: seq<Entry>, cur: State, d: int,
                                               succs: seq<Successor>, n: nat)
    requires n <= |succs| && AllScorable(succs)
    ensures WrittenLast(Relaxation(distance, back, queue, cur, d, succs, n), cur, d, succs)
    decreases n
  {
    if n > 0 {
      RelaxationLastWrite(distance, back, queue, cur, d, succs, n - 1);
      assert Scorable(succs[n - 1]);
      RelaxOneWrittenLast(Relaxation(distance, back, queue, cur, d, succs, n - 1), cur, d, succs, n - 1);
    }
  }

  /** No distance goes up, and every successor ends at most `d` plus its
      cost away. */
  lemma {:induction false} RelaxationBounds(distance: map<State, int>, back: map<State, Link>, queue: seq<Entry>, cur: State, d: int,
                                            succs: seq<Successor>, n: nat)
    requires n <= |succs| && AllScorable(succs)
    ensures var r := Relaxation(distance, back, queue, cur, d, succs, n);
      && (forall s :: s in distance ==> s in r.dist && r.dist[s] <= distance[s])
      && (forall j :: 0 <= j < n ==> succs[j].next in r.dist && r.dist[succs[j].next] <= d + succs[j].Cost())
    decreases n
  {
    if n > 0 {
      RelaxationBounds(distance, back, queue, cur, d, succs, n - 1);
    }
  }

  /** Relaxing the successors of `cur` keeps the bookkeeping invariant and
      leaves the distance of `cur` itself unchanged. */
  lemma {:induction false} RelaxationSound(recipes: seq<Recipe>, begin: State, cur: State, succs: seq<Successor>,
                                           distance: map<State, int>, back: map<State, Link>, queue: seq<Entry>, n: nat)
    requires cur.Valid() && Expansion(recipes, cur, succs) && n <= |succs| && AllScorable(succs)
    requires Sound(recipes, begin, distance, back) && cur in distance
    ensures var r := Relaxation(distance, back, queue, cur, distance[cur], succs, n);
      Sound(recipes, begin, r.dist, r.back) && cur in r.dist && r.dist[cur] == distance[cur]
    decreases n
  {
    if n > 0 {
      RelaxationSound(recipes, begin, cur, succs, distance, back, queue, n - 1);
      var r := Relaxation(distance, back, queue, cur, distance[cur], succs, n - 1);
      if Improves(r, distance[cur], succs[n - 1]) {
        RelaxStep(recipes, begin, cur, succs, n - 1, r.dist, r.back);
      }
    }
  }

  /** One improving pass of the inner loop, spelled out. With a positive
      step cost, the improved successor is never the expanded state. */
  lemma RelaxOneImproves(r: Relaxed, cur: State, d: int, succs: seq<Successor>, i: nat, total: int)
    requires i < |succs| && Scorable(succs[i]) && total == d + succs[i].Cost()
    requires succs[i].next !in r.dist || total < r.dist[succs[i].next]
    requires cur in r.dist && r.dist[cur] == d && succs[i].Cost() > 0
    ensures succs[i].next != cur
    ensures RelaxOne(r, cur, d, succs, i) ==
      Relaxed(r.dist[succs[i].next := total], r.back[succs[i].next := From(cur, succs[i].recipe)],
              r.pushed + [i], r.frontier + [EntryFor(d, succs[i])])
  {
  }

  /** What the whole inner loop establishes, stated on `Relaxation`: the
      bookkeeping invariant, the frontier entries' states are recorded,
      distances only decrease, every successor ends at most `distance[cur]`
      plus its cost away, and the `k`-th entry added is the one for the
      `k`-th pushed successor. */
  lemma RelaxationFacts(recipes: seq<Recipe>, begin: State, cur: State, succs: seq<Successor>,
                        distance: map<State, int>, back: map<State, Link>, queue: seq<Entry>)
    requires cur.Valid() && Expansion(recipes, cur, succs) && AllScorable(succs)
    requires Sound(recipes, begin, distance, back) && cur in distance
    requires forall e :: e in queue ==> e.state in distance
    ensures var r := Relaxation(distance, back, queue, cur, distance[cur], succs, |succs|);
      && Sound(recipes, begin, r.dist, r.back)
      && (forall e :: e in r.frontier ==> e.state in r.dist)
      && (forall s :: s in distance ==> s in r.dist && r.dist[s] <= distance[s])
      && (forall j :: 0 <= j < |succs| ==> succs[j].next in r.dist && r.dist[succs[j].next] <= distance[cur] + succs[j].Cost())
      && Framed(r, distance, back, succs)
      && |r.frontier| == |queue| + |r.pushed| && r.frontier[..|queue|] == queue
      && (forall k :: 0 <= k < |r.pushed| ==> r.pushed[k] < |succs| && Scorable(succs[r.pushed[k]]))
      && (forall k :: 0 <= k < |r.pushed| ==> r.frontier[|queue| + k] == EntryFor(distance[cur], succs[r.pushed[k]]))
  {
    var r := Relaxation(distance, back, queue, cur, distance[cur], succs, |succs|);
    RelaxationSound(recipes, begin, cur, succs, distance, back, queue, |succs|);
    RelaxationBounds(distance, back, queue, cur, distance[cur], succs, |succs|);
    RelaxationEntries(distance, back, queue, cur, distance[cur], succs, |succs|);
    RelaxationFrame(distance, back, queue, cur, distance[cur], succs, |succs|);
    var q := r.frontier;
    forall e | e in q ensures e.state in r.dist {
      var k :| 0 <= k < |q| && q[k] == e;
      if k >= |queue| {
        assert q[|queue| + (k - |queue|)] == EntryFor(distance[cur], succs[r.pushed[k - |queue|]]);
      } else {
        assert q[..|queue|][k] == e;
        assert e in queue;
      }
    }
  }

  /** The inner loop of the search over `graph(currentState)`: it computes
      `Relaxation`, so every successor reached more cheaply than recorded
      gets the new distance and a backpointer to `cur` and has its entry
      pushed at the back of the frontier (`src` names which successors, in
      order), and nothing else changes. Distances only decrease, every
      successor ends up at most `distance[cur]` plus its step cost, and the
      bookkeeping invariant is kept. */
  method Relax(ghost recipes: seq<Recipe>, ghost begin: State, cur: State, succs: seq<Successor>,
               distance: map<State, int>, back: map<State, Link>, queue: seq<Entry>)
    returns (dist: map<State, int>, bk: map<State, Link>, q: seq<Entry>, ghost src: seq<nat>)
    requires cur.Valid() && ToolItems <= cur.vals.Keys && Expansion(recipes, cur, succs)
    requires Sound(recipes, begin, distance, back) && cur in distance
    requires forall e :: e in queue ==> e.state in distance
    ensures AllScorable(succs)
    ensures Relaxed(dist, bk, src, q) == Relaxation(distance, back, queue, cur, distance[cur], succs, |succs|)
    ensures Sound(recipes, begin, dist, bk)
    ensures forall e :: e in q ==> e.state in dist
    ensures forall s :: s in distance ==> s in dist && dist[s] <= distance[s]
    ensures forall j :: 0 <= j < |succs| ==> succs[j].next in dist && dist[succs[j].next] <= distance[cur] + succs[j].Cost()
    ensures forall s :: s !in PushedStates(succs, src) ==>
      (s in dist <==> s in distance) && (s in distance ==> dist[s] == distance[s] && bk[s] == back[s])
    ensures |q| == |queue| + |src| && q[..|queue|] == queue
    ensures forall k :: 0 <= k < |src| ==> src[k] < |succs| && Scorable(succs[src[k]])
    ensures forall k :: 0 <= k < |src| ==> q[|queue| + k] == EntryFor(distance[cur], succs[src[k]])
  {
    ExpansionScorable(recipes, cur, succs);
    dist, bk, q, src := distance, back, queue, [];
    for i := 0 to |succs|
      invariant Relaxed(dist, bk, src, q) == Relaxation(distance, back, queue, cur, distance[cur], succs, i)
      invariant cur in dist && dist[cur] == distance[cur]
    {
      ghost var before := Relaxed(dist, bk, src, q);
      var t := succs[i];
      var total := dist[cur] + t.Cost();
      if t.next !in dist || total < dist[t.next] {
        assert Scorable(succs[i]);
        RelaxOneImproves(before, cur, distance[cur], succs, i, total);
        var e := EntryFor(dist[cur], t);
        ghost var old_dist := dist;
        dist := dist[t.next := total];
        assert dist[cur] == old_dist[cur];
        bk := bk[t.next := From(cur, t.recipe)];
        q := q + [e];
        src := src + [i];
      } else {
        assert RelaxOne(before, cur, distance[cur], succs, i) == before;
      }
    }
    RelaxationFacts(recipes, begin, cur, succs, distance, back, queue);
  }

  // ---------------------------------------------------------------------
  // Path reconstruction

  /** One element of a plan: a state and the action applied to it (`"Done"` on the last). */
  datatype Step = Step(state: State, action: string)

  /** Some recipe of the list named `a` applies at `p` and leads to `n`. */
  ghost predicate Leads(recipes: seq<Recipe>, p: State, a: string, n: State) {
    p.Valid() &&
    exists r :: r in recipes && WellFormed(r) && Over(r, p) && r.name == a && Check(r, p) && Apply(r, p) == n
  }

  /** A plan from `initial`: consecutive states are linked by the named
      recipe, and the last element is a goal state marked `"Done"`. */
  ghost predicate ValidPlan(recipes: seq<Recipe>, initial: State, goal: Dict<int>, path: seq<Step>) {
    && |path| >= 1 && path[0].state == initial
    && path[|path| - 1].action == "Done"
    && GoalOk(goal, initial) && SameShape(path[|path| - 1].state, initial)
    && IsGoal(goal, path[|path| - 1].state)
    && forall i :: 0 <= i < |path| - 1 ==> Leads(recipes, path[i].state, path[i].action, path[i + 1].state)
  }

  /** `b` is recorded in `back` with `a`'s state as predecessor and `a`'s
      action as the name of the recipe. */
  ghost predicate Backed(back: map<State, Link>, a: Step, b: Step) {
    && b.state in back && back[b.state].From?
    && back[b.state].prev == a.state && back[b.state].recipe.name == a.action
  }

  /** Each element of `path` after the first is backed by the element before it. */
  ghost predicate Traced(back: map<State, Link>, path: seq<Step>) {
    |path| <= 1 || (Backed(back, path[0], path[1]) && Traced(back, path[1..]))
  }

  /** The corrected reconstruction: from the goal state back along the
      backpointers to the initial state, pairing each state with the action
      taken FROM it, so the goal state carries `"Done"`. The comment on
      `search` pairs each state with the action that led INTO it instead;
      the `"Done"` marker on the goal state and the printing loop of the
      main block, which prints each state and then the action to apply
      next, both fit the pairing chosen here, and a plan under the other
      reading would give the initial state no action. */
  method Walk(ghost begin: State, distance: map<State, int>, back: map<State, Link>, goalState: State)
    returns (path: seq<Step>)
    requires Rooted(begin, back) && Chained(distance, back) && goalState in back
    ensures |path| >= 1 && path[0].state == begin && path[|path| - 1] == Step(goalState, "Done")
    ensures Traced(back, path)
    ensures back[goalState] == Start ==> path == [Step(goalState, "Done")]
  {
    path := [Step(goalState, "Done")];
    var s := goalState;
    while back[s].From?
      invariant s in back
      invariant |path| >= 1 && path[0].state == s && path[|path| - 1] == Step(goalState, "Done")
      invariant Traced(back, path)
      invariant back[goalState] == Start ==> s == goalState && path == [Step(goalState, "Done")]
      decreases distance[s]
    {
      var p, r := back[s].prev, back[s].recipe;
      ghost var tail := path;
      path := [Step(p, r.name)] + path;
      assert path[1..] == tail;
      s := p;
    }
  }

  /** A path that follows consistent backpointers links each state to the
      next by the recipe it names. */
  lemma {:induction false} TracedLeads(recipes: seq<Recipe>, begin: State, distance: map<State, int>, back: map<State, Link>, path: seq<Step>)
    requires Sound(recipes, begin, distance, back) && Traced(back, path)
    ensures forall i :: 0 <= i < |path| - 1 ==> Leads(recipes, path[i].state, path[i].action, path[i + 1].state)
    decreases |path|
  {
    if |path| > 1 {
      TracedLeads(recipes, begin, distance, back, path[1..]);
      var n := path[1].state;
      assert Recorded(recipes, begin, distance, back, n);
      assert LinkOk(recipes, distance, back, n);
      var r := back[n].recipe;
      assert r in recipes && WellFormed(r) && Over(r, path[0].state) && r.name == path[0].action;
      forall i | 1 <= i < |path| - 1 ensures Leads(recipes, path[i].state, path[i].action, path[i + 1].state) {
        assert path[i] == path[1..][i - 1] && path[i + 1] == path[1..][i];
      }
    }
  }

  /** An element of the path the source builds: a state and an action, absent (`None`) for the initial state. */
  datatype RawStep = RawStep(state: State, action: Option)
  datatype Option = None | Some(name: string)

  /** The outcome of the source's walk: a path, or the KeyError it raises. */
  datatype Walked = Walked(path: seq<RawStep>) | KeyError

  function ActionOf(l: Link): Option {
    match l
    case Start => None
    case From(_, r) => Some(r.name)
  }

  function Reverse(s: seq<RawStep>): (r: seq<RawStep>)
    ensures |r| == |s| && forall i :: 0 <= i < |s| ==> r[i] == s[|s| - 1 - i]
  {
    if s == [] then [] else Reverse(s[1..]) + [s[0]]
  }

  /** The body of the source's `while previous_action is not None` loop,
      entered with `previousState == prev`: it first moves `previousState`
      to the predecessor of `prev` (None for the initial state, whose lookup
      then raises KeyError), reads that state's action, and only then
      appends; the loop stops once the action read is None. */
  function FollowAsWritten(distance: map<State, int>, back: map<State, Link>, prev: State, acc: seq<RawStep>): (w: Walked)
    requires Chained(distance, back) && prev in back
    ensures w.Walked? ==> |w.path| > |acc| && w.path[..|acc|] == acc
    ensures w.Walked? ==> w.path[|w.path| - 1].action.None?
    decreases distance[prev]
  {
    match back[prev]
    case Start => KeyError
    case From(p, _) =>
      var action := ActionOf(back[p]);
      var acc' := acc + [RawStep(p, action)];
      if action.None? then Walked(acc') else FollowAsWritten(distance, back, p, acc')
  }

  /** The source's path reconstruction as written, reversed at the end: a
      goal state with no predecessor gives `[(goal, 'Done')]`; otherwise the
      walk starts from its predecessor. */
  function WalkAsWritten(distance: map<State, int>, back: map<State, Link>, goalState: State): (w: Walked)
    requires Chained(distance, back) && goalState in back
    ensures w.Walked? ==> |w.path| >= 1 && w.path[|w.path| - 1] == RawStep(goalState, Some("Done"))
    ensures w.Walked? && |w.path| > 1 ==> w.path[0].action.None?
  {
    match back[goalState]
    case Start => Walked([RawStep(goalState, Some("Done"))])
    case From(p, _) =>
      match FollowAsWritten(distance, back, p, [RawStep(goalState, Some("Done"))])
      case KeyError => KeyError
      case Walked(acc) => Walked(Reverse(acc))
  }

  /** As written, a goal reached in one step from the initial state makes the
      walk look up the backpointer of None: it raises KeyError instead of
      returning the plan. */
  lemma AsWrittenOneStepRaises(distance: map<State, int>, back: map<State, Link>, goalState: State)
    requires Chained(distance, back) && goalState in back
    requires back[goalState].From? && back[back[goalState].prev] == Start
    ensures WalkAsWritten(distance, back, goalState) == KeyError
  {
  }

  /** As written, a goal reached in two steps gives a two-element path: the
      intermediate state and the first action are skipped. */
  lemma AsWrittenTwoStepsSkips(distance: map<State, int>, back: map<State, Link>, goalState: State)
    requires Chained(distance, back) && goalState in back
    requires back[goalState].From? && back[back[goalState].prev].From?
    requires back[back[back[goalState].prev].prev] == Start
    ensures WalkAsWritten(distance, back, goalState) ==
      Walked([RawStep(back[back[goalState].prev].prev, None), RawStep(goalState, Some("Done"))])
  {
    var m := back[goalState].prev;
    var b := back[m].prev;
    assert FollowAsWritten(distance, back, m, [RawStep(goalState, Some("Done"))]) ==
      Walked([RawStep(goalState, Some("Done")), RawStep(b, None)]);
  }

  // ---------------------------------------------------------------------
  // The search

  datatype Outcome =
    | Plan(path: seq<Step>)   // a goal state was popped
    | Timeout                 // the step budget ran out (the source returns None)
    | EmptyFrontier           // the frontier ran dry (the source's heappop raises IndexError)

  /** The walk from a goal state yields a valid plan. */
  lemma WalkIsPlan(recipes: seq<Recipe>, initial: State, goal: Dict<int>,
                   distance: map<State, int>, back: map<State, Link>, g: State, path: seq<Step>)
    requires GoalOk(goal, initial) && Sound(recipes, initial, distance, back) && g in back
    requires SameShape(g, initial) && IsGoal(goal, g)
    requires |path| >= 1 && path[0].state == initial && path[|path| - 1] == Step(g, "Done")
    requires Traced(back, path)
    ensures ValidPlan(recipes, initial, goal, path)
  {
    TracedLeads(recipes, initial, distance, back, path);
  }

  // ---------------------------------------------------------------------
  // What an exhausted frontier means

  /** The states of the frontier. */
  ghost function QueueStates(q: seq<Entry>): set<State> {
    set e | e in q :: e.state
  }

  /** `s` was popped and expanded: it has the shape of the initial state,
      it does not meet the goal, and every recipe whose check holds at it
      leads to a recorded state. */
  ghost predicate Expanded(recipes: seq<Recipe>, goal: Dict<int>, begin: State, distance: map<State, int>, s: State) {
    && SameShape(s, begin) && goal.Valid() && goal.vals.Keys <= s.vals.Keys && !IsGoal(goal, s)
    && forall r :: r in recipes ==> RecipeOk(r, s) && (Check(r, s) ==> Apply(r, s) in distance)
  }

  /** Every recorded state is still in the frontier or was expanded. */
  ghost predicate Covered(recipes: seq<Recipe>, goal: Dict<int>, begin: State, distance: map<State, int>,
                          queue: seq<Entry>, closed: set<State>) {
    && closed <= distance.Keys
    && distance.Keys <= closed + QueueStates(queue)
    && forall s {:trigger Expanded(recipes, goal, begin, distance, s)} :: s in closed ==> Expanded(recipes, goal, begin, distance, s)
  }

  lemma ExpandedGrows(recipes: seq<Recipe>, goal: Dict<int>, begin: State, d1: map<State, int>, d2: map<State, int>, s: State)
    requires Expanded(recipes, goal, begin, d1, s) && d1.Keys <= d2.Keys
    ensures Expanded(recipes, goal, begin, d2, s)
  {
  }

  /** Recording more states keeps every expanded state expanded. */
  lemma ClosedStaysExpanded(recipes: seq<Recipe>, goal: Dict<int>, begin: State,
                            d1: map<State, int>, d2: map<State, int>, closed: set<State>)
    requires forall s {:trigger Expanded(recipes, goal, begin, d1, s)} :: s in closed ==> Expanded(recipes, goal, begin, d1, s)
    requires d1.Keys <= d2.Keys
    ensures forall s {:trigger Expanded(recipes, goal, begin, d2, s)} :: s in closed ==> Expanded(recipes, goal, begin, d2, s)
  {
    forall s | s in closed ensures Expanded(recipes, goal, begin, d2, s) {
      assert Expanded(recipes, goal, begin, d1, s);
      ExpandedGrows(recipes, goal, begin, d1, d2, s);
    }
  }

  /** After the pop, every state recorded before is the popped one or
      still in the rest of the frontier, unless it was expanded. */
  lemma PoppedCover(closed: set<State>, queue: seq<Entry>, e: Entry, rest: seq<Entry>, s: State)
    requires multiset(rest) + multiset{e} == multiset(queue)
    requires s in closed + QueueStates(queue)
    ensures s in closed + {e.state} + QueueStates(rest)
  {
    if s !in closed && s != e.state {
      var x :| x in queue && x.state == s;
      assert x in multiset(queue);
      assert x in multiset(rest);
    }
  }

  /** The relaxation keeps every recorded state in `old_cover`, in the kept
      part of the frontier, or among the pushed entries. */
  lemma RelaxedCover(distance: map<State, int>, rest: seq<Entry>, succs: seq<Successor>,
                     dist: map<State, int>, q: seq<Entry>, src: seq<nat>, old_cover: set<State>)
    requires forall s :: s !in PushedStates(succs, src) && s in dist ==> s in distance
    requires |q| == |rest| + |src| && q[..|rest|] == rest
    requires forall k :: 0 <= k < |src| ==> src[k] < |succs| && q[|rest| + k].state == succs[src[k]].next
    requires distance.Keys <= old_cover + QueueStates(rest)
    ensures dist.Keys <= old_cover + QueueStates(q)
  {
    forall s | s in dist ensures s in old_cover + QueueStates(q) {
      if s in PushedStates(succs, src) {
        var k :| 0 <= k < |src| && src[k] < |succs| && succs[src[k]].next == s;
        assert q[|rest| + k] in q;
      } else if s !in old_cover {
        assert s in QueueStates(rest);
        var x :| x in rest && x.state == s;
        var j :| 0 <= j < |rest| && rest[j] == x;
        assert q[..|rest|][j] == x;
        assert x in q;
      }
    }
  }

  /** The popped state is expanded once its successors are relaxed. */
  lemma CurrentExpanded(recipes: seq<Recipe>, goal: Dict<int>, begin: State, cur: State,
                        succs: seq<Successor>, dist: map<State, int>)
    requires GoalOk(goal, begin) && SameShape(cur, begin) && RecipesOk(recipes, cur) && !IsGoal(goal, cur)
    requires forall r :: r in recipes ==> WellFormed(r) && Over(r, cur)
    requires forall r :: r in recipes && Check(r, cur) ==> Successor(r, Apply(r, cur)) in succs
    requires forall j :: 0 <= j < |succs| ==> succs[j].next in dist
    ensures Expanded(recipes, goal, begin, dist, cur)
  {
    forall r | r in recipes ensures RecipeOk(r, cur) && (Check(r, cur) ==> Apply(r, cur) in dist) {
      assert RecipeOk(r, cur);
      if Check(r, cur) {
        var j :| 0 <= j < |succs| && succs[j] == Successor(r, Apply(r, cur));
      }
    }
  }

  /** Popping `e` from the frontier and relaxing its successors, so that
      `e`'s state is expanded, keeps every recorded state covered. */
  lemma CoveredAfterExpand(recipes: seq<Recipe>, goal: Dict<int>, begin: State,
                           distance: map<State, int>, queue: seq<Entry>, closed: set<State>,
                           e: Entry, rest: seq<Entry>, succs: seq<Successor>,
                           dist: map<State, int>, q: seq<Entry>, src: seq<nat>)
    requires Covered(recipes, goal, begin, distance, queue, closed)
    requires multiset(rest) + multiset{e} == multiset(queue) && e.state in distance
    requires Expanded(recipes, goal, begin, dist, e.state)
    requires forall s :: s in distance ==> s in dist
    requires forall s :: s !in PushedStates(succs, src) && s in dist ==> s in distance
    requires |q| == |rest| + |src| && q[..|rest|] == rest
    requires forall k :: 0 <= k < |src| ==> src[k] < |succs| && q[|rest| + k].state == succs[src[k]].next
    ensures Covered(recipes, goal, begin, dist, q, closed + {e.state})
  {
    var cur := e.state;
    forall s | s in distance ensures s in closed + {cur} + QueueStates(rest) {
      PoppedCover(closed, queue, e, rest, s);
    }
    RelaxedCover(distance, rest, succs, dist, q, src, closed + {cur});
    ClosedStaysExpanded(recipes, goal, begin, distance, dist, closed);
  }

  /** Every state along a chain of recipe steps from the initial state is
      expanded, once all recorded states are. */
  lemma {:induction false} PlanStaysClosed(recipes: seq<Recipe>, initial: State, goal: Dict<int>,
                                           distance: map<State, int>, closed: set<State>, path: seq<Step>, i: nat)
    requires Covered(recipes, goal, initial, distance, [], closed) && initial in distance
    requires |path| >= 1 && path[0].state == initial && i < |path|
    requires forall j :: 0 <= j < |path| - 1 ==> Leads(recipes, path[j].state, path[j].action, path[j + 1].state)
    ensures path[i].state in closed
    decreases i
  {
    assert QueueStates([]) == {};
    if i > 0 {
      PlanStaysClosed(recipes, initial, goal, distance, closed, path, i - 1);
      var p := path[i - 1].state;
      assert Expanded(recipes, goal, initial, distance, p);
      assert Leads(recipes, p, path[i - 1].action, path[i].state);
      var r :| r in recipes && WellFormed(r) && Over(r, p) && r.name == path[i - 1].action && Check(r, p) && Apply(r, p) == path[i].state;
      assert RecipeOk(r, p) && (Check(r, p) ==> Apply(r, p) in distance);
    }
  }

  /** When the frontier is empty and every recorded state, the initial one
      among them, has been expanded, no plan reaches the goal. */
  lemma NoPlanWhenExhausted(recipes: seq<Recipe>, initial: State, goal: Dict<int>,
                            distance: map<State, int>, closed: set<State>, path: seq<Step>)
    requires Covered(recipes, goal, initial, distance, [], closed) && initial in distance
    ensures !ValidPlan(recipes, initial, goal, path)
  {
    if |path| >= 1 && path[0].state == initial &&
       forall j :: 0 <= j < |path| - 1 ==> Leads(recipes, path[j].state, path[j].action, path[j + 1].state)
    {
      PlanStaysClosed(recipes, initial, goal, distance, closed, path, |path| - 1);
      assert Expanded(recipes, goal, initial, distance, path[|path| - 1].state);
    }
  }

  /** `search(graph, state, is_goal, limit, heuristic)` as one pass with a
      budget of `fuel` expansions in place of the wall-clock limit. A plan,
      when found, starts at the initial state, follows applicable recipes
      step by step and ends in a goal state marked `"Done"`; an initial
      state that already meets the goal gives the one-element plan; and
      an exhausted frontier means that no plan exists at all. */
  method Search(recipes: seq<Recipe>, initial: State, goal: Dict<int>, fuel: nat) returns (res: Outcome, visited: nat)
    requires RecipesOk(recipes, initial) && GoalOk(goal, initial)
    ensures res.Plan? ==> ValidPlan(recipes, initial, goal, res.path)
    ensures fuel > 0 && IsGoal(goal, initial) ==> res == Plan([Step(initial, "Done")])
    ensures res.EmptyFrontier? ==> forall path :: !ValidPlan(recipes, initial, goal, path)
    ensures visited <= fuel
    ensures res.Timeout? ==> visited == fuel
    ensures res.EmptyFrontier? ==> visited < fuel
  {
    var begin := Copy(initial);
    assert begin == initial;
    visited := 0;
    var queue := [Entry(Finite(0), begin)];
    var distance := map[begin := 0];
    var back := map[begin := Start];
    ghost var closed: set<State> := {};
    StartSound(recipes, begin);
    assert QueueStates(queue) == {begin};
    while visited < fuel
      invariant Sound(recipes, begin, distance, back)
      invariant forall e :: e in queue ==> e.state in distance
      invariant Covered(recipes, goal, begin, distance, queue, closed)
      invariant visited == 0 ==> queue == [Entry(Finite(0), begin)]
      invariant visited > 0 ==> !IsGoal(goal, begin)
      invariant visited <= fuel
      decreases fuel - visited
    {
      if queue == [] {
        forall path ensures !ValidPlan(recipes, initial, goal, path) {
          NoPlanWhenExhausted(recipes, initial, goal, distance, closed, path);
        }
        return EmptyFrontier, visited;
      }
      forall e | e in queue ensures e.state.Valid() {
        SoundMember(recipes, begin, distance, back, e.state);
      }
      ghost var first := visited == 0;
      ghost var popped := queue;
      var e, rest := PopMin(queue);
      forall x | x in rest ensures x.state in distance {
        assert x in multiset(rest) + multiset{e};
        assert x in multiset(queue);
      }
      queue := rest;
      visited := visited + 1;
      var cur := e.state;
      SoundMember(recipes, begin, distance, back, cur);
      assert first ==> cur == begin;
      if IsGoal(goal, cur) {
        SoundIsChained(recipes, begin, distance, back);
        var path := Walk(begin, distance, back, cur);
        WalkIsPlan(recipes, initial, goal, distance, back, cur, path);
        return Plan(path), visited;
      }
      RecipesOkShape(recipes, begin, cur);
      GraphExpansion(recipes, cur);
      var snapshot := Copy(cur);
      assert snapshot == cur;
      var succs := Graph(recipes, snapshot);
      ghost var before := distance;
      ghost var src;
      distance, back, queue, src := Relax(recipes, begin, cur, succs, distance, back, queue);
      CurrentExpanded(recipes, goal, begin, cur, succs, distance);
      CoveredAfterExpand(recipes, goal, begin, before, popped, closed, e, rest, succs, distance, queue, src);
      closed := closed + {cur};
    }
    res := Timeout;
  }
}
