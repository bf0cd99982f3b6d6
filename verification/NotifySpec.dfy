/**
 The notifies bound to requests: two tables, one for before and one for after the
 response, from a request number (the grid) to the notifies bound to it.
 */
module NotifySpec {
  import opened Common

  datatype Item = Item(data: Bytes, createTime: int)

  datatype Side = Before | After

  function Payloads(items: seq<Item>): seq<Bytes> {
    seq(|items|, i requires 0 <= i < |items| => items[i].data)
  }

  type Table = map<nat, seq<Item>>

  datatype Store = Store(before: Table, after: Table)

  const EMPTY: Store := Store(map[], map[])

  function TableOf(s: Store, side: Side): Table {
    if side == Before then s.before else s.after
  }

  function WithTable(s: Store, side: Side, t: Table): Store {
    if side == Before then s.(before := t) else s.(after := t)
  }

  /** What is bound to `grid`; nothing, if it has no entry. */
  function Bound(t: Table, grid: nat): seq<Item> {
    if grid in t then t[grid] else []
  }

  predicate Expired(item: Item, now: int, maxAge: int) {
    now - item.createTime > maxAge
  }

  /** The items of `items` that have not expired, in their order. */
  function Unexpired(items: seq<Item>, now: int, maxAge: int): seq<Item> {
    if items == [] then []
    else
      var init, last := Unexpired(items[..|items| - 1], now, maxAge), items[|items| - 1];
      if Expired(last, now, maxAge) then init else init + [last]
  }

  function CleanTable(t: Table, now: int, maxAge: int): Table {
    map g | g in t && Unexpired(t[g], now, maxAge) != [] :: Unexpired(t[g], now, maxAge)
  }

  function ExpiredCount(items: seq<Item>, now: int, maxAge: int): nat {
    if items == [] then 0
    else ExpiredCount(items[..|items| - 1], now, maxAge) + if Expired(items[|items| - 1], now, maxAge) then 1 else 0
  }

  /** The sum of `f` over the lists of a table. */
  ghost function Sum(t: Table, f: seq<Item> -> nat): nat
    decreases |t|
  {
    if t == map[] then 0
    else
      var g :| g in t;
      f(t[g]) + Sum(t - {g}, f)
  }

  function Length(): seq<Item> -> nat {
    (items: seq<Item>) => |items|
  }

  function ExpiredIn(now: int, maxAge: int): seq<Item> -> nat {
    (items: seq<Item>) => ExpiredCount(items, now, maxAge)
  }

  /** How many items a table holds, and how many of them a cleanup would remove. */
  ghost function Size(t: Table): nat {
    Sum(t, Length())
  }

  ghost function ToClean(t: Table, now: int, maxAge: int): nat {
    Sum(t, ExpiredIn(now, maxAge))
  }

  ghost function StoreSize(s: Store): nat {
    Size(s.before) + Size(s.after)
  }

  // ---------- Operations ----------

  datatype Op =
    | Add(side: Side, grid: nat, item: Item)
    | Take(side: Side, grid: nat)
    | Clean(now: int, maxAge: int)

  function ApplyOp(s: Store, op: Op): Store {
    match op
    case Add(side, grid, item) =>
      var t := TableOf(s, side);
      WithTable(s, side, t[grid := Bound(t, grid) + [item]])
    case Take(side, grid) => WithTable(s, side, TableOf(s, side) - {grid})
    case Clean(now, maxAge) => Store(CleanTable(s.before, now, maxAge), CleanTable(s.after, now, maxAge))
  }

  /** The tables after the operations `ops` on an empty store. */
  function Run(ops: seq<Op>): Store {
    if ops == [] then EMPTY else ApplyOp(Run(ops[..|ops| - 1]), ops[|ops| - 1])
  }

  /** What taking `grid` returns after `ops`. */
  function Pending(ops: seq<Op>, side: Side, grid: nat): seq<Item> {
    Bound(TableOf(Run(ops), side), grid)
  }

  // ---------- The reference: who survives ----------

  /** The operation `op` ends the wait of an item bound to `grid`, by returning it or by cleaning it up. */
  predicate Ends(op: Op, side: Side, grid: nat, item: Item) {
    match op
    case Add(_, _, _) => false
    case Take(s, g) => s == side && g == grid
    case Clean(now, maxAge) => Expired(item, now, maxAge)
  }

  /** Operation `i` bound an item to `grid`, and nothing after it has ended the wait of that item. */
  ghost predicate Survives(ops: seq<Op>, i: int, side: Side, grid: nat) {
    && 0 <= i < |ops| && ops[i].Add? && ops[i].side == side && ops[i].grid == grid
    && forall j | i < j < |ops| :: !Ends(ops[j], side, grid, ops[i].item)
  }

  /** The items among the first `n` operations that survive all of `ops`, in binding order. */
  ghost function Survivors(ops: seq<Op>, n: nat, side: Side, grid: nat): seq<Item>
    requires n <= |ops|
  {
    if n == 0 then []
    else
      var init := Survivors(ops, n - 1, side, grid);
      if Survives(ops, n - 1, side, grid) then init + [ops[n - 1].item] else init
  }

  /** The operations that bound them. */
  ghost function Bindings(ops: seq<Op>, n: nat, side: Side, grid: nat): seq<nat>
    requires n <= |ops|
  {
    if n == 0 then []
    else
      var init := Bindings(ops, n - 1, side, grid);
      if Survives(ops, n - 1, side, grid) then init + [n - 1] else init
  }
}
