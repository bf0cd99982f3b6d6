/** What every run of the notify bindings keeps. */
module NotifyHistory {
  import opened NotifySpec

  // ---------- Order: a grid holds its survivors ----------

  ghost predicate NoEmptyEntry(t: Table) {
    forall g | g in t :: t[g] != []
  }

  lemma SurvivesSnoc(ops: seq<Op>, op: Op, i: int, side: Side, grid: nat)
    requires 0 <= i < |ops|
    ensures Survives(ops + [op], i, side, grid) <==>
            Survives(ops, i, side, grid) && !Ends(op, side, grid, ops[i].item)
  {
    var longer := ops + [op];
    assert longer[|ops|] == op;
    assert forall j | 0 <= j < |ops| :: longer[j] == ops[j];
  }

  /** A further operation that is no cleanup keeps all survivors, or none. */
  lemma {:induction false} SurvivorsKept(ops: seq<Op>, op: Op, n: nat, side: Side, grid: nat)
    requires n <= |ops| && !op.Clean?
    ensures Survivors(ops + [op], n, side, grid) ==
            if op == Take(side, grid) then [] else Survivors(ops, n, side, grid)
  {
    if n > 0 {
      SurvivorsKept(ops, op, n - 1, side, grid);
      SurvivesSnoc(ops, op, n - 1, side, grid);
    }
  }

  lemma UnexpiredSnoc(items: seq<Item>, item: Item, now: int, maxAge: int)
    ensures Unexpired(items + [item], now, maxAge) ==
            Unexpired(items, now, maxAge) + if Expired(item, now, maxAge) then [] else [item]
  {
    assert (items + [item])[..|items|] == items;
  }

  /** A cleanup keeps the survivors that have not expired. */
  lemma {:induction false} SurvivorsCleaned(ops: seq<Op>, op: Op, n: nat, side: Side, grid: nat)
    requires n <= |ops| && op.Clean?
    ensures Survivors(ops + [op], n, side, grid) == Unexpired(Survivors(ops, n, side, grid), op.now, op.maxAge)
  {
    if n > 0 {
      SurvivorsCleaned(ops, op, n - 1, side, grid);
      SurvivesSnoc(ops, op, n - 1, side, grid);
      if Survives(ops, n - 1, side, grid) {
        UnexpiredSnoc(Survivors(ops, n - 1, side, grid), ops[n - 1].item, op.now, op.maxAge);
      }
    }
  }

  /**
   After any operations, a grid holds exactly the items that were bound to it and have
   since been neither returned nor cleaned up, in binding order; and no grid maps to an
   empty list. So that is what the next take returns.
   */
  lemma {:induction false} HoldsSurvivors(ops: seq<Op>, side: Side, grid: nat)
    ensures Pending(ops, side, grid) == Survivors(ops, |ops|, side, grid)
    ensures NoEmptyEntry(TableOf(Run(ops), side))
  {
    if ops != [] {
      var n := |ops| - 1;
      var init, op := ops[..n], ops[n];
      assert ops == init + [op];
      HoldsSurvivors(init, side, grid);
      var s := Run(init);
      if op.Clean? {
        SurvivorsCleaned(init, op, n, side, grid);
      } else {
        SurvivorsKept(init, op, n, side, grid);
      }
      assert Survives(ops, n, side, grid) <==> op.Add? && op.side == side && op.grid == grid;
    }
  }

  /** No item is returned twice: a take that returns it ends its wait. */
  lemma NotReturnedTwice(ops: seq<Op>, i: nat, j: nat, k: nat)
    requires i < j < k < |ops| && ops[i].Add? && ops[j] == Take(ops[i].side, ops[i].grid)
    ensures !Survives(ops[..k], i, ops[i].side, ops[i].grid)
  {
    assert ops[..k][j] == ops[j] && ops[..k][i] == ops[i];
  }

  /** The bindings of the survivors, in order: each survivor comes from its own operation. */
  lemma {:induction false} SurvivorsAreBound(ops: seq<Op>, n: nat, side: Side, grid: nat)
    requires n <= |ops|
    ensures |Bindings(ops, n, side, grid)| == |Survivors(ops, n, side, grid)|
    ensures forall k | 0 <= k < |Bindings(ops, n, side, grid)| ::
              var b := Bindings(ops, n, side, grid)[k];
              b < n && Survives(ops, b, side, grid) && Survivors(ops, n, side, grid)[k] == ops[b].item
    ensures forall j, k | 0 <= j < k < |Bindings(ops, n, side, grid)| ::
              Bindings(ops, n, side, grid)[j] < Bindings(ops, n, side, grid)[k]
  {
    if n > 0 {
      SurvivorsAreBound(ops, n - 1, side, grid);
    }
  }

  /** And no survivor is missing among them. */
  lemma {:induction false} BindingsAreComplete(ops: seq<Op>, n: nat, side: Side, grid: nat, b: nat)
    requires b < n <= |ops| && Survives(ops, b, side, grid)
    ensures b in Bindings(ops, n, side, grid)
  {
    if b < n - 1 {
      BindingsAreComplete(ops, n - 1, side, grid, b);
    }
  }

  /** After a cleanup nothing older than the age limit is left. */
  lemma CleanLeavesYoung(ops: seq<Op>, side: Side, grid: nat, now: int, maxAge: int)
    ensures forall item | item in Pending(ops + [Clean(now, maxAge)], side, grid) :: !Expired(item, now, maxAge)
  {
    var longer := ops + [Clean(now, maxAge)];
    assert longer[..|ops|] == ops;
    HoldsSurvivors(ops, side, grid);
    UnexpiredAreYoung(Pending(ops, side, grid), now, maxAge);
  }

  lemma {:induction false} UnexpiredAreYoung(items: seq<Item>, now: int, maxAge: int)
    ensures forall item | item in Unexpired(items, now, maxAge) :: item in items && !Expired(item, now, maxAge)
  {
    if items != [] {
      UnexpiredAreYoung(items[..|items| - 1], now, maxAge);
    }
  }

  // ---------- Conservation ----------

  lemma {:induction false} SumRemove(t: Table, f: seq<Item> -> nat, g: nat)
    requires g in t
    ensures Sum(t, f) == f(t[g]) + Sum(t - {g}, f)
    decreases |t|
  {
    var x :| x in t && Sum(t, f) == f(t[x]) + Sum(t - {x}, f);
    if x != g {
      SumRemove(t - {x}, f, g);
      SumRemove(t - {g}, f, x);
      assert t - {x} - {g} == t - {g} - {x};
    }
  }

  /** What the entry of `g` contributes, present or not. */
  lemma SizeOfEntry(t: Table, g: nat)
    ensures Size(t) == |Bound(t, g)| + Size(t - {g})
  {
    if g in t {
      SumRemove(t, Length(), g);
    } else {
      assert t - {g} == t;
    }
  }

  lemma {:induction false} UnexpiredCount(items: seq<Item>, now: int, maxAge: int)
    ensures |Unexpired(items, now, maxAge)| + ExpiredCount(items, now, maxAge) == |items|
  {
    if items != [] {
      UnexpiredCount(items[..|items| - 1], now, maxAge);
    }
  }

  lemma ToCleanOfEntry(t: Table, g: nat, now: int, maxAge: int)
    requires g in t
    ensures ToClean(t, now, maxAge) == ExpiredCount(t[g], now, maxAge) + ToClean(t - {g}, now, maxAge)
  {
    SumRemove(t, ExpiredIn(now, maxAge), g);
  }

  lemma CleanEntry(t: Table, g: nat, now: int, maxAge: int)
    requires g in t
    ensures Bound(CleanTable(t, now, maxAge), g) == Unexpired(t[g], now, maxAge)
    ensures CleanTable(t, now, maxAge) - {g} == CleanTable(t - {g}, now, maxAge)
  {
  }

  lemma {:induction false} CleanCount(t: Table, now: int, maxAge: int)
    ensures Size(CleanTable(t, now, maxAge)) + ToClean(t, now, maxAge) == Size(t)
    decreases |t|
  {
    if t == map[] {
      assert CleanTable(t, now, maxAge) == map[];
    } else {
      var g :| g in t;
      var cleaned := CleanTable(t, now, maxAge);
      assert Size(cleaned) == |Unexpired(t[g], now, maxAge)| + Size(CleanTable(t - {g}, now, maxAge)) by {
        CleanEntry(t, g, now, maxAge);
        SizeOfEntry(cleaned, g);
      }
      assert ToClean(t, now, maxAge) == ExpiredCount(t[g], now, maxAge) + ToClean(t - {g}, now, maxAge) by {
        ToCleanOfEntry(t, g, now, maxAge);
      }
      assert Size(t) == |t[g]| + Size(t - {g}) by {
        SizeOfEntry(t, g);
      }
      CleanCount(t - {g}, now, maxAge);
      UnexpiredCount(t[g], now, maxAge);
    }
  }

  /** How many items the operations have bound, returned and cleaned up. */
  function Added(ops: seq<Op>): nat {
    if ops == [] then 0
    else Added(ops[..|ops| - 1]) + if ops[|ops| - 1].Add? then 1 else 0
  }

  function Returned(ops: seq<Op>): nat {
    if ops == [] then 0
    else
      var init, op := ops[..|ops| - 1], ops[|ops| - 1];
      Returned(init) + if op.Take? then |Pending(init, op.side, op.grid)| else 0
  }

  ghost function Cleaned(ops: seq<Op>): nat {
    if ops == [] then 0
    else
      var init, op := ops[..|ops| - 1], ops[|ops| - 1];
      Cleaned(init)
      + if op.Clean? then ToClean(Run(init).before, op.now, op.maxAge) + ToClean(Run(init).after, op.now, op.maxAge)
        else 0
  }

  /** Nothing is lost or duplicated: what was bound has been returned, cleaned up, or is pending. */
  lemma {:induction false} NotifyConservation(ops: seq<Op>)
    ensures Added(ops) == Returned(ops) + Cleaned(ops) + StoreSize(Run(ops))
  {
    if ops != [] {
      var init, op := ops[..|ops| - 1], ops[|ops| - 1];
      NotifyConservation(init);
      var s := Run(init);
      match op
      case Add(side, grid, item) =>
        var t := TableOf(s, side);
        SizeOfEntry(t, grid);
        SizeOfEntry(t[grid := Bound(t, grid) + [item]], grid);
        assert t[grid := Bound(t, grid) + [item]] - {grid} == t - {grid};
      case Take(side, grid) =>
        SizeOfEntry(TableOf(s, side), grid);
      case Clean(now, maxAge) =>
        CleanCount(s.before, now, maxAge);
        CleanCount(s.after, now, maxAge);
    }
  }


  /** A cleanup keeps of what is bound, in order and one by one, exactly what was bound no more than `maxAge` ago. */
  lemma CleanKeepsExactly(ops: seq<Op>, side: Side, grid: nat, now: int, maxAge: int)
    ensures Pending(ops + [Clean(now, maxAge)], side, grid) == Young(Pending(ops, side, grid), now, maxAge)
  {
    var t := TableOf(Run(ops), side);
    assert (ops + [Clean(now, maxAge)])[..|ops|] == ops;
    UnexpiredIsYoung(Bound(t, grid), now, maxAge);
  }

  /** The items created at `now` - `maxAge` or later. */
  function Young(items: seq<Item>, now: int, maxAge: int): seq<Item> {
    if items == [] then []
    else (if items[0].createTime >= now - maxAge then [items[0]] else []) + Young(items[1..], now, maxAge)
  }

  lemma {:induction false} UnexpiredIsYoung(items: seq<Item>, now: int, maxAge: int)
    ensures Unexpired(items, now, maxAge) == Young(items, now, maxAge)
  {
    if items != [] {
      var init, last := items[..|items| - 1], items[|items| - 1];
      UnexpiredIsYoung(init, now, maxAge);
      YoungSnoc(init, last, now, maxAge);
      assert items == init + [last];
    }
  }

  lemma {:induction false} YoungSnoc(items: seq<Item>, item: Item, now: int, maxAge: int)
    ensures Young(items + [item], now, maxAge) ==
            Young(items, now, maxAge) + if item.createTime >= now - maxAge then [item] else []
  {
    if items != [] {
      YoungSnoc(items[1..], item, now, maxAge);
      assert (items + [item])[1..] == items[1..] + [item];
    }
  }
}
