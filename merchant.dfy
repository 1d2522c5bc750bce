/**
 * The travelling merchant's stock replay of src/traveling_merchant.rs.
 *
 * For a seed, `seed_valid` replays the game's stock generation with the
 * platform's generator and compares each generated slot with the observed
 * one, giving up at the first mismatch. `Scan` and `Replay` state what the
 * game generates; `Verdict` states what the comparator answers, and
 * `VerdictMeaning` proves that it answers exactly "the observed stock is the
 * generated stock". The generator is threaded through as a value of its
 * state type.
 */
module Merchant {
  import opened Wrappers
  import opened Ints
  import opened Prng
  import opened Catalog
  import Sorting

  const STOCK_QUANTITY: int := 10

  /** The `f64` nearest to 0.1, which the quantity decider is compared with. */
  const TENTH_F64: real := 3602879701896397.0 / 36028797018963968.0

  datatype Platform = PC | Switch

  datatype Item = Item(index: u16, price: u16, quantity: u8)

  datatype TravelingMerchant = TravelingMerchant(platform: Platform, stock: seq<Item>)

  function Max(a: int, b: int): int
  {
    if a >= b then a else b
  }

  /** The quantity the decider selects: five when below 0.1, otherwise one. */
  function Quantity(decider: real): u8
  {
    if decider < TENTH_F64 then 5 else 1
  }

  /** The price of a slot: the larger of the constant and the catalog-price-proportional candidate. */
  function Price(constant: int, variable: int, base: int): int
  {
    Max(100 * constant, base * variable)
  }

  /** Every price the multipliers can produce for a catalog price. */
  function PriceSet(base: int): set<int>
  {
    set c, v | 1 <= c <= 10 && 3 <= v <= 5 :: Price(c, v, base)
  }

  /** The `u16` products of the price computation do not overflow for any id the cart can stock. */
  predicate PricesFit(t: Tables)
  {
    forall id :: id in Eligible(t) && id in t.objects ==> t.objects[id].price * 5 <= U16_MAX
  }

  /** The three draws made for every considered id: constant and variable multiplier, then the quantity decider. */
  datatype Multipliers<S> = Multipliers(constant: i32, variable: i32, decider: real, next: S)

  function DrawMultipliers<S(!new)>(g: Generator<S>, s: S): (m: Multipliers<S>)
    requires RangeSound(g)
    ensures 1 <= m.constant <= 10 && 3 <= m.variable <= 5
  {
    var c := g.range(s, 1, 11).value;
    var v := g.range(c.next, 3, 6).value;
    var d := g.float(v.next);
    Multipliers(c.value, v.value, d.value, d.next)
  }

  lemma PriceInPriceSet(m: Multipliers, base: int)
    requires 1 <= m.constant <= 10 && 3 <= m.variable <= 5
    ensures Price(m.constant, m.variable, base) in PriceSet(base)
  {
  }

  /**
   * What the replay relies on of the build's tables: every id below the limit
   * outside the first filter has a catalog record, and the fast-exclude table
   * is the one build.rs derives from the two filters.
   */
  predicate ReplayReady(t: Tables)
  {
    && (forall i :: 0 <= i < ID_LIMIT && i !in t.first ==> i in t.objects)
    && (forall i :: 0 <= i < ID_LIMIT ==> i in t.fastExclude && t.fastExclude[i] == FastExcludeOf(t.first, t.second, i))
  }

  lemma ValidTablesReady(t: Tables)
    requires TablesValid(t)
    ensures ReplayReady(t)
  {
  }

  /** An id the scan may commit: below the limit, outside both filters and not yet stocked. */
  predicate Free(t: Tables, used: set<int>, id: int)
  {
    0 <= id < ID_LIMIT && id !in t.first && id !in t.second && id !in used
  }

  /** The ids ruled out for the next slot. */
  function Taken(t: Tables, used: set<int>): set<int>
  {
    t.first + t.second + used
  }

  /** The first free id cyclically after `raw`. */
  function FirstFree(t: Tables, used: set<int>, raw: int): int
  {
    Cyclic(raw, FirstOutside(Taken(t, used), raw, 1))
  }

  lemma SubsetCovering(a: set<int>, b: set<int>)
    requires a <= b
    ensures (forall x :: x in b ==> x in a) ==> |a| == |b|
  {
    if forall x :: x in b ==> x in a {
      assert a == b;
    }
  }

  /** While fewer ids are stocked than are eligible, a free id follows every raw candidate within a full turn. */
  lemma FreeExists(t: Tables, used: set<int>, raw: int)
    requires 0 <= raw < ID_LIMIT
    requires used <= Eligible(t) && |used| < |Eligible(t)|
    ensures exists j :: 1 <= j <= ID_LIMIT && Free(t, used, Cyclic(raw, j))
    ensures FirstOutside(Taken(t, used), raw, 1) <= ID_LIMIT
    ensures Free(t, used, FirstFree(t, used, raw))
  {
    SubsetCovering(used, Eligible(t));
    var e :| e in Eligible(t) && e !in used;
    var j := OffsetTo(raw, e);
    assert Free(t, used, Cyclic(raw, j));
    WalkTerminates(Taken(t, used), raw);
  }

  /**
   * The scan from offset `k` after `raw`: ids in the first filter are skipped
   * without drawing; on PC, ids in the second filter are also skipped without
   * drawing, while Switch draws the multipliers for them before skipping; an
   * id already stocked is skipped after its draws. The first free id is
   * committed with its draws.
   */
  function Scan<S(!new)>(t: Tables, p: Platform, g: Generator<S>, used: set<int>, raw: int, k: int, s: S): (slot: (int, Multipliers<S>))
    requires RangeSound(g)
    requires 0 <= raw < ID_LIMIT && 1 <= k <= ID_LIMIT
    requires exists j :: k <= j <= ID_LIMIT && Free(t, used, Cyclic(raw, j))
    ensures Free(t, used, slot.0)
    ensures slot.0 == Cyclic(raw, FirstOutside(Taken(t, used), raw, k))
    ensures 1 <= slot.1.constant <= 10 && 3 <= slot.1.variable <= 5
    decreases ID_LIMIT - k
  {
    var id := Cyclic(raw, k);
    if id in t.first then Scan(t, p, g, used, raw, k + 1, s)
    else
      match p
      case PC =>
        if id in t.second then Scan(t, p, g, used, raw, k + 1, s)
        else
          var m := DrawMultipliers(g, s);
          if id in used then Scan(t, p, g, used, raw, k + 1, m.next) else (id, m)
      case Switch =>
        var m := DrawMultipliers(g, s);
        if id in t.second || id in used then Scan(t, p, g, used, raw, k + 1, m.next) else (id, m)
  }

  /** The scan commits exactly the id the fast-exclude early-out predicts. */
  lemma ScanCommitsFirstFree<S(!new)>(t: Tables, p: Platform, g: Generator<S>, used: set<int>, raw: int, s: S)
    requires RangeSound(g)
    requires 0 <= raw < ID_LIMIT
    requires used <= Eligible(t) && |used| < |Eligible(t)|
    ensures exists j :: 1 <= j <= ID_LIMIT && Free(t, used, Cyclic(raw, j))
    ensures Scan(t, p, g, used, raw, 1, s).0 == FirstFree(t, used, raw)
  {
    FreeExists(t, used, raw);
  }

  /** One slot of the replay: the raw candidate draw, then the scan after it. */
  function NextSlot<S(!new)>(t: Tables, p: Platform, g: Generator<S>, used: set<int>, s: S): (slot: (int, Multipliers<S>))
    requires RangeSound(g)
    requires used <= Eligible(t) && |used| < |Eligible(t)|
    ensures Free(t, used, slot.0)
    ensures 1 <= slot.1.constant <= 10 && 3 <= slot.1.variable <= 5
  {
    var raw := g.range(s, 2, ID_LIMIT as i32).value;
    FreeExists(t, used, raw.value);
    Scan(t, p, g, used, raw.value, 1, raw.next)
  }

  /** The item a committed slot puts on sale. */
  function SlotItem<S(!new)>(t: Tables, slot: (int, Multipliers<S>)): (item: Item)
    requires ReplayReady(t) && PricesFit(t)
    requires 0 <= slot.0 < ID_LIMIT && slot.0 !in t.first && slot.0 !in t.second
    requires 1 <= slot.1.constant <= 10 && 3 <= slot.1.variable <= 5
    ensures item.index == slot.0
    ensures item.price in PriceSet(t.objects[slot.0].price)
    ensures item.quantity == 5 <==> slot.1.decider < TENTH_F64
    ensures item.quantity == 1 <==> slot.1.decider >= TENTH_F64
  {
    var base := t.objects[slot.0].price;
    assert base * slot.1.variable <= base * 5;
    PriceInPriceSet(slot.1, base);
    Item(slot.0, Price(slot.1.constant, slot.1.variable, base), Quantity(slot.1.decider))
  }

  /** Committing a free id stocks one more eligible id. */
  lemma CommitFree(t: Tables, used: set<int>, id: int)
    requires used <= Eligible(t) && Free(t, used, id)
    ensures id in Eligible(t) && id !in used
    ensures used + {id} <= Eligible(t) && |used + {id}| == |used| + 1
  {
  }

  /** Every item offers an eligible id not in `used`. */
  predicate FreshIds(t: Tables, used: set<int>, stock: seq<Item>)
  {
    forall i :: 0 <= i < |stock| ==> stock[i].index in Eligible(t) && stock[i].index !in used
  }

  /** No id is offered twice. */
  predicate DistinctIds(stock: seq<Item>)
  {
    forall i, j :: 0 <= i < j < |stock| ==> stock[i].index != stock[j].index
  }

  /** Putting a free id before a stock fresh for it keeps the ids fresh and distinct. */
  lemma ConsFreshDistinct(t: Tables, used: set<int>, id: int, item: Item, rest: seq<Item>)
    requires item.index == id && id in Eligible(t) && id !in used
    requires FreshIds(t, used + {id}, rest) && DistinctIds(rest)
    ensures FreshIds(t, used, [item] + rest) && DistinctIds([item] + rest)
  {
    var stock := [item] + rest;
    forall i | 1 <= i < |stock|
      ensures stock[i].index in Eligible(t) && stock[i].index !in used && stock[i].index != item.index
    {
      assert stock[i] == rest[i - 1];
    }
    forall i, j | 0 <= i < j < |stock|
      ensures stock[i].index != stock[j].index
    {
      assert stock[j] == rest[j - 1];
      if i > 0 {
        assert stock[i] == rest[i - 1];
      }
    }
  }

  /** The `n` items the game stocks from generator state `s`, given the ids already stocked. */
  function Replay<S(!new)>(t: Tables, p: Platform, g: Generator<S>, s: S, used: set<int>, n: nat): (stock: seq<Item>)
    requires ReplayReady(t) && RangeSound(g) && PricesFit(t)
    requires used <= Eligible(t) && |used| + n <= |Eligible(t)|
    ensures |stock| == n
    ensures FreshIds(t, used, stock) && DistinctIds(stock)
    decreases n
  {
    if n == 0 then []
    else
      var slot := NextSlot(t, p, g, used, s);
      CommitFree(t, used, slot.0);
      var item := SlotItem(t, slot);
      var rest := Replay(t, p, g, slot.1.next, used + {slot.0}, n - 1);
      ConsFreshDistinct(t, used, slot.0, item, rest);
      [item] + rest
  }

  /**
   * What `seed_valid` answers for the items from `i` on: for each, the raw
   * draw, the fast-exclude prediction compared with the observed id, then the
   * scan, the quantity and the price, stopping at the first mismatch.
   */
  function Verdict<S(!new)>(t: Tables, p: Platform, g: Generator<S>, stock: seq<Item>, i: nat, used: set<int>, s: S): bool
    requires ReplayReady(t) && RangeSound(g) && PricesFit(t)
    requires i <= |stock|
    requires used <= Eligible(t) && |used| + (|stock| - i) <= |Eligible(t)|
    decreases |stock| - i
  {
    if i == |stock| then true
    else
      var raw := g.range(s, 2, ID_LIMIT as i32).value;
      FreeExists(t, used, raw.value);
      if FirstFree(t, used, raw.value) != stock[i].index then false
      else
        var slot := Scan(t, p, g, used, raw.value, 1, raw.next);
        var item := SlotItem(t, slot);
        if item.quantity != stock[i].quantity then false
        else if item.price != stock[i].price then false
        else Verdict(t, p, g, stock, i + 1, used + {slot.0}, slot.1.next)
  }

  /** One step of the comparator: it goes on exactly when the next replayed item is the observed one. */
  lemma VerdictStep<S(!new)>(t: Tables, p: Platform, g: Generator<S>, stock: seq<Item>, i: nat, used: set<int>, s: S)
    requires ReplayReady(t) && RangeSound(g) && PricesFit(t)
    requires i < |stock|
    requires used <= Eligible(t) && |used| + (|stock| - i) <= |Eligible(t)|
    ensures var slot := NextSlot(t, p, g, used, s);
      Verdict(t, p, g, stock, i, used, s)
      == (SlotItem(t, slot) == stock[i] && Verdict(t, p, g, stock, i + 1, used + {slot.0}, slot.1.next))
  {
    var raw := g.range(s, 2, ID_LIMIT as i32).value;
    FreeExists(t, used, raw.value);
    var slot := Scan(t, p, g, used, raw.value, 1, raw.next);
    assert slot == NextSlot(t, p, g, used, s);
    assert slot.0 == FirstFree(t, used, raw.value);
  }

  /** The comparator accepts exactly when the observed items are the replayed ones. */
  lemma {:induction false} VerdictMeaning<S(!new)>(t: Tables, p: Platform, g: Generator<S>, stock: seq<Item>, i: nat, used: set<int>, s: S)
    requires ReplayReady(t) && RangeSound(g) && PricesFit(t)
    requires i <= |stock|
    requires used <= Eligible(t) && |used| + (|stock| - i) <= |Eligible(t)|
    ensures Verdict(t, p, g, stock, i, used, s) <==> stock[i..] == Replay(t, p, g, s, used, |stock| - i)
    decreases |stock| - i
  {
    if i < |stock| {
      var slot := NextSlot(t, p, g, used, s);
      VerdictStep(t, p, g, stock, i, used, s);
      VerdictMeaning(t, p, g, stock, i + 1, used + {slot.0}, slot.1.next);
      var rest := Replay(t, p, g, slot.1.next, used + {slot.0}, |stock| - i - 1);
      assert Replay(t, p, g, s, used, |stock| - i) == [SlotItem(t, slot)] + rest;
      SliceCons(stock, i);
      ConsEqual(Verdict(t, p, g, stock, i, used, s), Verdict(t, p, g, stock, i + 1, used + {slot.0}, slot.1.next),
        stock[i], stock[i + 1..], SlotItem(t, slot), rest);
    }
  }

  lemma SliceCons<T>(s: seq<T>, i: int)
    requires 0 <= i < |s|
    ensures s[i..] == [s[i]] + s[i + 1..]
  {
  }

  /** A check that compares the head and then the tail decides equality of the two sequences. */
  lemma ConsEqual<T>(v: bool, vTail: bool, a: T, x: seq<T>, b: T, y: seq<T>)
    requires v == (b == a && vTail)
    requires vTail <==> x == y
    ensures v <==> [a] + x == [b] + y
  {
    if [a] + x == [b] + y {
      assert ([a] + x)[0] == a && ([b] + y)[0] == b;
      assert ([a] + x)[1..] == x && ([b] + y)[1..] == y;
    }
  }

  // ---------------------------------------------------------------------
  // seed_valid, as the source runs it
  // ---------------------------------------------------------------------

  /**
   * One jump of the fast-exclude walk from offset `k` lands at offset `k + d`
   * on an id outside both filters, no further than the first free offset, and
   * lands on it exactly when the id there is not yet stocked.
   */
  lemma JumpStep(t: Tables, used: set<int>, raw: int, k: int) returns (d: int)
    requires ReplayReady(t)
    requires 0 <= raw < ID_LIMIT
    requires FirstOutside(Taken(t, used), raw, 1) <= ID_LIMIT
    requires 0 <= k < FirstOutside(Taken(t, used), raw, 1)
    ensures t.fastExclude[Cyclic(raw, k)] == Cyclic(raw, k + d)
    ensures Cyclic(raw, k + d) !in t.first && Cyclic(raw, k + d) !in t.second
    ensures k < k + d <= FirstOutside(Taken(t, used), raw, 1)
    ensures k + d == FirstOutside(Taken(t, used), raw, 1) <==> Cyclic(raw, k + d) !in used
  {
    var target := FirstOutside(Taken(t, used), raw, 1);
    var free := Cyclic(raw, target);
    assert free !in Taken(t, used);
    assert free !in t.first + t.second && free !in used;
    var from := Cyclic(raw, k);
    assert 0 <= from < ID_LIMIT;
    CyclicShift(raw, k, target - k);
    assert Cyclic(from, target - k) == free;
    WalkTerminates(t.first + t.second, from);
    d := FirstOutside(t.first + t.second, from, 1);
    assert d <= target - k;
    CyclicShift(raw, k, d);
    var landed := Cyclic(raw, k + d);
    assert landed !in t.first + t.second;
    if k + d < target {
      assert landed in Taken(t, used);
      assert landed in used;
    }
  }

  /**
   * The early-out: follows the fast-exclude table from the raw candidate
   * until it reaches an id not yet stocked.
   */
  method ResolveFastExclude(t: Tables, used: set<int>, raw: int) returns (fastExcludeIndex: int)
    requires ReplayReady(t)
    requires 0 <= raw < ID_LIMIT
    requires used <= Eligible(t) && |used| < |Eligible(t)|
    ensures fastExcludeIndex == FirstFree(t, used, raw)
  {
    FreeExists(t, used, raw);
    ghost var target := FirstOutside(Taken(t, used), raw, 1);
    CyclicZero(raw);
    fastExcludeIndex := raw;
    ghost var k := 0;
    while true
      invariant 0 <= k < target
      invariant fastExcludeIndex == Cyclic(raw, k)
      decreases ID_LIMIT - k
    {
      ghost var d := JumpStep(t, used, raw, k);
      fastExcludeIndex := t.fastExclude[fastExcludeIndex];
      k := k + d;
      if fastExcludeIndex !in used {
        break;
      }
    }
  }

  /**
   * One pass of the scan loop at offset `k` (the id `index`): an id in the
   * first filter is skipped without drawing; otherwise the draws are made
   * (on PC only for ids outside the second filter) and the id is committed
   * when it is free.
   */
  method ScanOne<S(!new)>(t: Tables, p: Platform, g: Generator<S>, used: set<int>, raw: int, ghost k: int, index: int, prng: S, ghost free: int)
    returns (done: bool, slot: (int, Multipliers<S>), prngAfter: S)
    requires RangeSound(g)
    requires 0 <= raw < ID_LIMIT && 1 <= k <= free <= ID_LIMIT && Free(t, used, Cyclic(raw, free))
    requires index == Cyclic(raw, k)
    ensures done ==> slot == Scan(t, p, g, used, raw, k, prng)
    ensures !done ==> k < free && Scan(t, p, g, used, raw, k, prng) == Scan(t, p, g, used, raw, k + 1, prngAfter)
  {
    prngAfter := prng;
    slot := (index, Multipliers(0, 0, 0.0, prng));
    if index in t.first {
      return false, slot, prngAfter;
    }

    var constantMultiplier: i32;
    var variableMultiplier: i32;
    var quantityDecider: real;
    match p {
      case PC =>
        if index in t.second {
          return false, slot, prngAfter;
        }
        var c := g.range(prng, 1, 11).value;
        var v := g.range(c.next, 3, 6).value;
        var d := g.float(v.next);
        constantMultiplier, variableMultiplier, quantityDecider, prngAfter := c.value, v.value, d.value, d.next;
      case Switch =>
        var c := g.range(prng, 1, 11).value;
        var v := g.range(c.next, 3, 6).value;
        var d := g.float(v.next);
        constantMultiplier, variableMultiplier, quantityDecider, prngAfter := c.value, v.value, d.value, d.next;
        if index in t.second {
          return false, slot, prngAfter;
        }
    }
    assert Multipliers(constantMultiplier, variableMultiplier, quantityDecider, prngAfter) == DrawMultipliers(g, prng);

    if index in used {
      return false, slot, prngAfter;
    }
    return true, (index, Multipliers(constantMultiplier, variableMultiplier, quantityDecider, prngAfter)), prngAfter;
  }

  /** The scan loop, up to the id it commits, with its draws. */
  method ScanForSlot<S(!new)>(t: Tables, p: Platform, g: Generator<S>, used: set<int>, raw: int, s: S) returns (slot: (int, Multipliers<S>))
    requires RangeSound(g)
    requires 0 <= raw < ID_LIMIT
    requires exists j :: 1 <= j <= ID_LIMIT && Free(t, used, Cyclic(raw, j))
    ensures slot == Scan(t, p, g, used, raw, 1, s)
  {
    ghost var free :| 1 <= free <= ID_LIMIT && Free(t, used, Cyclic(raw, free));
    CyclicZero(raw);
    var index := raw;
    var prng := s;
    ghost var k := 0;
    while true
      invariant 0 <= k < free
      invariant index == Cyclic(raw, k)
      invariant Scan(t, p, g, used, raw, 1, s) == Scan(t, p, g, used, raw, k + 1, prng)
      decreases ID_LIMIT - k
    {
      CyclicStep(raw, k);
      index := (index + 1) % ID_LIMIT;
      k := k + 1;
      var done, found, next := ScanOne(t, p, g, used, raw, k, index, prng, free);
      if done {
        return found;
      }
      prng := next;
    }
  }

  /**
   * One pass of `seed_valid`'s outer loop: the raw candidate, the early-out
   * compared with the observed id, the scan, then the quantity and the price.
   * On a match it hands back the stocked ids and the generator state after
   * the slot.
   */
  method CheckItem<S(!new)>(t: Tables, p: Platform, g: Generator<S>, item: Item, usedIndexes: set<int>, prng: S)
    returns (matches: bool, usedAfter: set<int>, prngAfter: S)
    requires ReplayReady(t) && RangeSound(g) && PricesFit(t)
    requires usedIndexes <= Eligible(t) && |usedIndexes| < |Eligible(t)|
    ensures matches == (SlotItem(t, NextSlot(t, p, g, usedIndexes, prng)) == item)
    ensures matches ==> usedAfter == usedIndexes + {NextSlot(t, p, g, usedIndexes, prng).0}
    ensures matches ==> prngAfter == NextSlot(t, p, g, usedIndexes, prng).1.next
  {
    usedAfter, prngAfter := usedIndexes, prng;
    var raw := g.range(prng, 2, ID_LIMIT as i32).value;
    var index := raw.value;

    var fastExcludeIndex := ResolveFastExclude(t, usedIndexes, index);
    FreeExists(t, usedIndexes, index);
    if fastExcludeIndex != item.index {
      return false, usedAfter, prngAfter;
    }

    var slot := ScanForSlot(t, p, g, usedIndexes, index, raw.next);
    usedAfter := usedIndexes + {slot.0};
    prngAfter := slot.1.next;

    var quantity: u8 := if slot.1.decider < TENTH_F64 then 5 else 1;
    if quantity != item.quantity {
      return false, usedAfter, prngAfter;
    }

    var objectInformation := t.objects[slot.0];
    var price := Max(100 * slot.1.constant, objectInformation.price * slot.1.variable);
    if price != item.price {
      return false, usedAfter, prngAfter;
    }
    return true, usedAfter, prngAfter;
  }

  /**
   * `seed_valid`: replays the stock for `seed` with the platform's generator
   * and compares it slot by slot with the observed stock, stopping at the
   * first mismatch.
   */
  method SeedValid<S(!new)>(t: Tables, merchant: TravelingMerchant, g: Generator<S>, seed: i32) returns (valid: bool)
    requires TablesValid(t) && RangeSound(g) && PricesFit(t)
    requires |merchant.stock| <= |Eligible(t)|
    ensures valid == Verdict(t, merchant.platform, g, merchant.stock, 0, {}, g.fromSeed(seed))
    ensures valid <==> merchant.stock == Replay(t, merchant.platform, g, g.fromSeed(seed), {}, |merchant.stock|)
  {
    ValidTablesReady(t);
    var prng := g.fromSeed(seed);
    var usedIndexes: set<int> := {};
    VerdictMeaning(t, merchant.platform, g, merchant.stock, 0, {}, prng);
    assert merchant.stock[0..] == merchant.stock;
    ghost var verdict := Verdict(t, merchant.platform, g, merchant.stock, 0, {}, prng);

    for i := 0 to |merchant.stock|
      invariant usedIndexes <= Eligible(t) && |usedIndexes| == i
      invariant verdict == Verdict(t, merchant.platform, g, merchant.stock, i, usedIndexes, prng)
    {
      ghost var slot := NextSlot(t, merchant.platform, g, usedIndexes, prng);
      CommitFree(t, usedIndexes, slot.0);
      VerdictStep(t, merchant.platform, g, merchant.stock, i, usedIndexes, prng);
      var matches;
      matches, usedIndexes, prng := CheckItem(t, merchant.platform, g, merchant.stock[i], usedIndexes, prng);
      if !matches {
        return false;
      }
    }
    return true;
  }

  // ---------------------------------------------------------------------
  // The quantity decider of the console edition
  // ---------------------------------------------------------------------

  /** The decider integer of the JKISS generator below which the quantity is five. */
  const JKISS_QUANTITY_THRESHOLD: int := 900719925474100

  /** For JKISS the comparison with 0.1 is an exact integer threshold on the decider. */
  lemma JkissQuantityThreshold(s: JkissState)
    ensures Quantity(FloatDraw(s).value) == 5 <==> DeciderDraw(s).value < JKISS_QUANTITY_THRESHOLD
  {
    var d := DeciderDraw(s).value;
    assert FloatDraw(s).value == d as real / TWO_53 as real;
    assert d as real / TWO_53 as real < TENTH_F64 <==> 4 * d < 3602879701896397;
  }

  // ---------------------------------------------------------------------
  // possible_prices
  // ---------------------------------------------------------------------

  /** The least price any slot can carry for a catalog price. */
  function MinimumPrice(base: int): int
  {
    Max(100 * 1, base * 3)
  }

  /** The prices chosen by the constant multiplier alone, for multipliers below `n`. */
  function ConstantCandidates(n: int): set<int>
  {
    set c | 1 <= c < n :: Price(c, 0, 0)
  }

  /** The prices proportional to the catalog price, for multipliers below `n`. */
  function VariableCandidates(base: nat, n: int): set<int>
  {
    set v | 3 <= v < n :: Price(0, v, base)
  }

  /** The candidates at least `minimum`. */
  function AtLeast(candidates: set<int>, minimum: int): set<int>
  {
    set x | x in candidates && x >= minimum
  }

  function Elements(s: seq<u16>): set<int>
  {
    set x | x in s :: x as int
  }

  lemma ElementsPush(s: seq<u16>, x: u16)
    ensures Elements(s + [x]) == Elements(s) + {x as int}
  {
    forall y: int ensures y in Elements(s + [x]) <==> y in Elements(s) + {x as int} {
      if y in Elements(s + [x]) {
        var z :| z in s + [x] && y == z as int;
      }
      if y in Elements(s) {
        var z :| z in s && y == z as int;
        assert z in s + [x];
      }
      assert x in s + [x];
    }
  }

  lemma AtLeastAdd(candidates: set<int>, x: int, minimum: int)
    ensures AtLeast(candidates + {x}, minimum) == AtLeast(candidates, minimum) + (if x >= minimum then {x} else {})
  {
  }

  predicate U16Less(a: u16, b: u16) { a < b }

  lemma U16LessOrder()
    ensures Sorting.StrictTotalOrder(U16Less)
  {
  }

  /** Every price a slot can carry is at least the minimum, and the minimum is one of them. */
  lemma PriceSetMinimum(base: nat)
    ensures MinimumPrice(base) in PriceSet(base)
    ensures forall x :: x in PriceSet(base) ==> x >= MinimumPrice(base)
  {
    assert Price(1, 3, base) == MinimumPrice(base);
  }

  /** The prices a slot can carry are the constant and the proportional candidates that reach the minimum. */
  lemma PriceSetSplit(base: nat)
    ensures PriceSet(base) == AtLeast(ConstantCandidates(11), MinimumPrice(base)) + AtLeast(VariableCandidates(base, 6), MinimumPrice(base))
  {
    var minimum := MinimumPrice(base);
    var kept := AtLeast(ConstantCandidates(11), minimum) + AtLeast(VariableCandidates(base, 6), minimum);
    forall x | x in PriceSet(base) ensures x in kept {
      var c, v :| 1 <= c <= 10 && 3 <= v <= 5 && x == Price(c, v, base);
      if 100 * c >= base * v {
        assert x == Price(c, 0, 0);
      } else {
        assert x == Price(0, v, base);
      }
    }
    forall x | x in kept ensures x in PriceSet(base) {
      if x in AtLeast(ConstantCandidates(11), minimum) {
        var c :| 1 <= c < 11 && x == Price(c, 0, 0);
        assert x == Price(c, 3, base);
      } else {
        var v :| 3 <= v < 6 && x == Price(0, v, base);
        assert x == Price(1, v, base);
      }
    }
  }

  /** The price choices offered for an item: every price a slot of it can carry, ascending, once each. */
  method PossiblePrices(objects: Objects, itemIndex: u16) returns (r: Result<seq<u16>>)
    requires itemIndex in objects ==> objects[itemIndex].price * 5 <= U16_MAX
    ensures r.Err? <==> itemIndex !in objects
    ensures r.Ok? ==> Sorting.StrictlySorted(U16Less, r.value)
    ensures r.Ok? ==> Elements(r.value) == PriceSet(objects[itemIndex].price)
  {
    if itemIndex !in objects {
      return Err("Issue with object information.");
    }
    var objectInformation := objects[itemIndex];
    var minimum: u16 := Max(100 * 1, objectInformation.price * 3);
    var prices: seq<u16> := [];

    for constantMultiplier := 1 to 11
      invariant Sorting.Distinct(prices)
      invariant Elements(prices) == AtLeast(ConstantCandidates(constantMultiplier), minimum)
    {
      var price: u16 := 100 * constantMultiplier;
      assert ConstantCandidates(constantMultiplier + 1) == ConstantCandidates(constantMultiplier) + {Price(constantMultiplier, 0, 0)};
      AtLeastAdd(ConstantCandidates(constantMultiplier), price, minimum);
      if price >= minimum && price !in prices {
        ElementsPush(prices, price);
        prices := prices + [price];
      }
    }
    ghost var constantPrices := Elements(prices);

    for variableMultiplier := 3 to 6
      invariant Sorting.Distinct(prices)
      invariant Elements(prices) == constantPrices + AtLeast(VariableCandidates(objectInformation.price, variableMultiplier), minimum)
    {
      var price: u16 := objectInformation.price * variableMultiplier;
      assert VariableCandidates(objectInformation.price, variableMultiplier + 1)
        == VariableCandidates(objectInformation.price, variableMultiplier) + {Price(0, variableMultiplier, objectInformation.price)};
      AtLeastAdd(VariableCandidates(objectInformation.price, variableMultiplier), price, minimum);
      if price >= minimum && price !in prices {
        ElementsPush(prices, price);
        prices := prices + [price];
      }
    }

    U16LessOrder();
    var sorted := Sorting.SortBy(U16Less, prices);
    assert Elements(sorted) == Elements(prices) by {
      forall x ensures x in sorted <==> x in prices {
        assert x in sorted <==> x in multiset(sorted);
        assert x in prices <==> x in multiset(prices);
      }
    }
    PriceSetSplit(objectInformation.price);
    return Ok(sorted);
  }
}
