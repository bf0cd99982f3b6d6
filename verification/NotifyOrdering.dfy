/** The notify bindings as the session runs them, each method proved to take one operation of `NotifySpec`. */
module NotifyOrdering {
  import opened Common
  import opened NotifySpec
  import opened NotifyHistory

  class MessageOrderingManager {
    var beforeRspNotifies: Table
    var afterRspNotifies: Table

    ghost function State(): Store
      reads this
    {
      Store(beforeRspNotifies, afterRspNotifies)
    }

    constructor ()
      ensures State() == EMPTY
    {
      beforeRspNotifies, afterRspNotifies := map[], map[];
    }

    /** A missing notify is refused. */
    method AddNotifyBindBeforeRsp(grid: nat, notify: Option<Item>) returns (ok: bool)
      modifies this
      ensures ok <==> notify.Some?
      ensures State() == if ok then ApplyOp(old(State()), Add(Before, grid, notify.value)) else old(State())
    {
      if notify.None? {
        return false;
      }
      beforeRspNotifies := beforeRspNotifies[grid := Bound(beforeRspNotifies, grid) + [notify.value]];
      return true;
    }

    method AddNotifyBindAfterRsp(grid: nat, notify: Option<Item>) returns (ok: bool)
      modifies this
      ensures ok <==> notify.Some?
      ensures State() == if ok then ApplyOp(old(State()), Add(After, grid, notify.value)) else old(State())
    {
      if notify.None? {
        return false;
      }
      afterRspNotifies := afterRspNotifies[grid := Bound(afterRspNotifies, grid) + [notify.value]];
      return true;
    }

    method GetAndRemoveBeforeNotifies(grid: nat) returns (notifies: seq<Item>)
      modifies this
      ensures notifies == Bound(TableOf(old(State()), Before), grid)
      ensures State() == ApplyOp(old(State()), Take(Before, grid))
    {
      notifies := Bound(beforeRspNotifies, grid);
      beforeRspNotifies := beforeRspNotifies - {grid};
    }

    method GetAndRemoveAfterNotifies(grid: nat) returns (notifies: seq<Item>)
      modifies this
      ensures notifies == Bound(TableOf(old(State()), After), grid)
      ensures State() == ApplyOp(old(State()), Take(After, grid))
    {
      notifies := Bound(afterRspNotifies, grid);
      afterRspNotifies := afterRspNotifies - {grid};
    }

    method GetPendingBeforeCount() returns (count: nat)
      ensures count == Size(State().before)
    {
      count := CountItems(beforeRspNotifies);
    }

    method GetPendingAfterCount() returns (count: nat)
      ensures count == Size(State().after)
    {
      count := CountItems(afterRspNotifies);
    }

    method CleanupExpiredNotifies(now: int, maxAge: int) returns (cleaned: nat)
      modifies this
      ensures State() == ApplyOp(old(State()), Clean(now, maxAge))
      ensures cleaned == ToClean(old(State()).before, now, maxAge) + ToClean(old(State()).after, now, maxAge)
    {
      var fromBefore, fromAfter;
      beforeRspNotifies, fromBefore := CleanMap(beforeRspNotifies, now, maxAge);
      afterRspNotifies, fromAfter := CleanMap(afterRspNotifies, now, maxAge);
      cleaned := fromBefore + fromAfter;
    }

    method Clear()
      modifies this
      ensures State() == EMPTY
    {
      beforeRspNotifies, afterRspNotifies := map[], map[];
    }
  }

  /** The number of items in all lists of `t`. */
  method CountItems(t: Table) returns (count: nat)
    ensures count == Size(t)
  {
    count := 0;
    var rest := t;
    while rest != map[]
      invariant count + Size(rest) == Size(t)
      decreases |rest|
    {
      var g :| g in rest.Keys;
      SumRemove(rest, Length(), g);
      count := count + |rest[g]|;
      rest := rest - {g};
    }
  }

  /** Keeps the items that have not expired, in their order, and counts the others. */
  method KeepUnexpired(items: seq<Item>, now: int, maxAge: int) returns (filtered: seq<Item>, cleaned: nat)
    ensures filtered == Unexpired(items, now, maxAge)
    ensures cleaned == ExpiredCount(items, now, maxAge)
  {
    filtered, cleaned := [], 0;
    for i := 0 to |items|
      invariant filtered == Unexpired(items[..i], now, maxAge)
      invariant cleaned == ExpiredCount(items[..i], now, maxAge)
    {
      assert items[..i + 1][..i] == items[..i];
      if now - items[i].createTime <= maxAge {
        filtered := filtered + [items[i]];
      } else {
        cleaned := cleaned + 1;
      }
    }
    assert items[..|items|] == items;
  }

  /** `r` is half way: the grids of `done` have been filtered, those of `rest` have not. */
  ghost predicate HalfClean(t: Table, done: Table, rest: Table, r: Table, now: int, maxAge: int) {
    done.Keys !! rest.Keys && t == done + rest && r == CleanTable(done, now, maxAge) + rest
  }

  lemma CleanOneMore(done: Table, g: nat, items: seq<Item>, now: int, maxAge: int)
    requires g !in done
    ensures CleanTable(done[g := items], now, maxAge) ==
            var kept := Unexpired(items, now, maxAge);
            if kept == [] then CleanTable(done, now, maxAge) else CleanTable(done, now, maxAge)[g := kept]
  {
  }

  lemma MoveEntry(a: Table, b: Table, g: nat, kept: seq<Item>)
    requires a.Keys !! b.Keys && g in b
    ensures a + b == a[g := b[g]] + (b - {g})
    ensures (a + b)[g := kept] == a[g := kept] + (b - {g})
    ensures a + b - {g} == a + (b - {g})
  {
  }

  lemma CleanStep(t: Table, done: Table, rest: Table, r: Table, g: nat, now: int, maxAge: int)
    requires HalfClean(t, done, rest, r, now, maxAge) && g in rest
    ensures g in r && r[g] == rest[g]
    ensures var kept := Unexpired(rest[g], now, maxAge);
            HalfClean(t, done[g := rest[g]], rest - {g}, if kept == [] then r - {g} else r[g := kept], now, maxAge)
  {
    var kept := Unexpired(rest[g], now, maxAge);
    assert t == done[g := rest[g]] + (rest - {g}) by {
      MoveEntry(done, rest, g, kept);
    }
    var cleaned := CleanTable(done, now, maxAge);
    assert cleaned.Keys <= done.Keys;
    MoveEntry(cleaned, rest, g, kept);
    CleanOneMore(done, g, rest[g], now, maxAge);
  }

  /** Filters every list of `t`, dropping the grids that are left with nothing. */
  method CleanMap(t: Table, now: int, maxAge: int) returns (r: Table, cleaned: nat)
    ensures r == CleanTable(t, now, maxAge)
    ensures cleaned == ToClean(t, now, maxAge)
  {
    r, cleaned := t, 0;
    ghost var done: Table, rest: Table := map[], t;
    var keys := t.Keys;
    assert CleanTable(done, now, maxAge) == map[];
    while keys != {}
      invariant keys == rest.Keys && HalfClean(t, done, rest, r, now, maxAge)
      invariant cleaned + ToClean(rest, now, maxAge) == ToClean(t, now, maxAge)
      decreases keys
    {
      var g :| g in keys;
      CleanStep(t, done, rest, r, g, now, maxAge);
      ToCleanOfEntry(rest, g, now, maxAge);
      var filtered, n := KeepUnexpired(r[g], now, maxAge);
      keys := keys - {g};
      done, rest := done[g := rest[g]], rest - {g};
      cleaned := cleaned + n;
      r := if filtered == [] then r - {g} else r[g := filtered];
    }
    assert rest == map[] && done == t && r == CleanTable(done, now, maxAge);
  }
}
