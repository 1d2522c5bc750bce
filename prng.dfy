/**
 * The pseudo-random generators of src/prng.rs.
 *
 * `Generator<S>` is the capability the stock replay needs from the `Prng`
 * trait (seeding, `gen_range`, `gen_float`), as three functions over a
 * generator state `S`. The JKISS generator of the console edition is one
 * instance of it; `Jkiss` is the mutable generator object itself.
 */
module Prng {
  import opened Wrappers
  import opened Ints

  /** One draw: the value produced and the generator state after it. */
  datatype Draw<T, S> = Draw(value: T, next: S)

  /** The `Prng` trait over an explicit state. */
  datatype Generator<!S> = Generator(
    fromSeed: i32 -> S,
    range: (S, i32, i32) -> Result<Draw<i32, S>>,
    float: S -> Draw<real, S>)

  /** What every generator promises of `gen_range`: it fails exactly on an empty range and otherwise draws inside it. */
  ghost predicate RangeSound<S(!new)>(g: Generator<S>)
  {
    forall s, lo: i32, hi: i32 ::
      && (g.range(s, lo, hi).Err? <==> hi <= lo)
      && (g.range(s, lo, hi).Ok? ==> lo <= g.range(s, lo, hi).value.value < hi)
  }

  // ---------------------------------------------------------------------
  // JKISS (console edition)
  // ---------------------------------------------------------------------

  const X_MULTIPLIER: int := 314527869
  const X_INCREMENT: int := 1234567
  const Y_SEED: bv32 := 987654321
  const Z_SEED: int := 43219876
  const C_SEED: int := 6543217
  const MWC_MULTIPLIER: int := 4294584393
  /** The largest multiply-with-carry intermediate, as the source's comment states it. */
  const MWC_MAX: int := 0xfffa28490005d7b6
  const TWO_64: int := 0x1_0000_0000_0000_0000
  const TWO_27: int := 0x800_0000
  const TWO_53: int := 0x20_0000_0000_0000

  datatype JkissState = JkissState(x: u32, y: bv32, z: u32, c: u32)

  /** The state `from_seed` builds: only `x` depends on the seed. */
  function SeedState(seed: i32): (s: JkissState)
    ensures s.x == (X_MULTIPLIER * seed + X_INCREMENT) % TWO_32
    ensures s.y == Y_SEED && s.z == Z_SEED && s.c == C_SEED
  {
    JkissState((X_MULTIPLIER * I32AsU32(seed) + X_INCREMENT) % TWO_32, Y_SEED, Z_SEED, C_SEED)
  }

  /** The three shift-xor steps applied to `y`. */
  function Xorshift(y: bv32): bv32
  {
    var y1 := y ^ (y << 5);
    var y2 := y1 ^ (y1 >> 7);
    y2 ^ (y2 << 22)
  }

  /** The 64-bit multiply-with-carry product never overflows, and its stated maximum is reached. */
  lemma MwcNoOverflow(z: u32, c: u32)
    ensures MWC_MULTIPLIER * z + c <= MWC_MAX < TWO_64
    ensures z == U32_MAX && c == U32_MAX ==> MWC_MULTIPLIER * z + c == MWC_MAX
  {
    assert MWC_MULTIPLIER * z <= MWC_MULTIPLIER * U32_MAX;
  }

  /** One `gen` step: the new state and the output `x + y + z` (mod 2^32). */
  function Next(s: JkissState): Draw<u32, JkissState>
  {
    var x := (X_MULTIPLIER * s.x + X_INCREMENT) % TWO_32;
    var y := Xorshift(s.y);
    var t := MWC_MULTIPLIER * s.z + s.c;
    MwcNoOverflow(s.z, s.c);
    var z := t % TWO_32;
    var c := t / TWO_32;
    Draw((x + y as int + z) % TWO_32, JkissState(x, y, z, c))
  }

  /** One step advances `x` by the linear congruence and carries the 64-bit multiply-with-carry product across `z` (low word) and `c` (high word). */
  lemma NextWords(s: JkissState)
    ensures Next(s).next.x == (X_MULTIPLIER * s.x + X_INCREMENT) % TWO_32
    ensures Next(s).next.y == Xorshift(s.y)
    ensures Next(s).next.c * TWO_32 + Next(s).next.z == MWC_MULTIPLIER * s.z + s.c
    ensures Next(s).value == (Next(s).next.x + Next(s).next.y as int + Next(s).next.z) % TWO_32
  {
    var t := MWC_MULTIPLIER * s.z + s.c;
    assert t == (t / TWO_32) * TWO_32 + t % TWO_32;
  }

  /** `gen_range`: fails on an empty range, answers a width-1 range without drawing, otherwise reduces one draw modulo the width. */
  function RangeDraw(s: JkissState, start: i32, end: i32): (r: Result<Draw<i32, JkissState>>)
    ensures r.Err? <==> end <= start
    ensures r.Ok? ==> start <= r.value.value < end
  {
    if end <= start then Err("Empty range parsed to Jkiss.gen_range().")
    else if end - start == 1 then Ok(Draw(start, s))
    else
      var d := Next(s);
      Ok(Draw(start + d.value % (end - start), d.next))
  }

  /** The integer behind `gen_float`: bits 6..31 of two successive draws, the first as the high part. */
  function DeciderDraw(s: JkissState): (r: Draw<int, JkissState>)
    ensures 0 <= r.value < TWO_53
    ensures r.next == Next(Next(s).next).next
  {
    var a := Next(s);
    var b := Next(a.next);
    var hi := a.value / 64;
    var lo := b.value / 64;
    assert 0 <= hi < 0x400_0000 && 0 <= lo < TWO_27;
    assert hi * TWO_27 <= 0x3FF_FFFF * TWO_27;
    Draw(hi * TWO_27 + lo, b.next)
  }

  /** The decider takes only bits 6..31 of each draw, and keeps all of them. */
  lemma DeciderBits(s: JkissState)
    ensures DeciderDraw(s).value / TWO_27 == Next(s).value / 64
    ensures DeciderDraw(s).value % TWO_27 == Next(Next(s).next).value / 64
  {
    var a := Next(s).value / 64;
    var b := Next(Next(s).next).value / 64;
    assert 0 <= b < TWO_27;
    assert DeciderDraw(s).value == a * TWO_27 + b;
  }

  /** `gen_float`: the decider divided by 2^53, exact because the decider is below 2^53. */
  function FloatDraw(s: JkissState): (r: Draw<real, JkissState>)
    ensures 0.0 <= r.value < 1.0
    ensures r.next == DeciderDraw(s).next
  {
    var d := DeciderDraw(s);
    Draw(d.value as real / TWO_53 as real, d.next)
  }

  /** The console-edition generator as an instance of the `Prng` capability. */
  function JkissGenerator(): Generator<JkissState>
  {
    Generator(SeedState, RangeDraw, FloatDraw)
  }

  lemma JkissRangeSound()
    ensures RangeSound(JkissGenerator())
  {
  }

  /** The JKISS generator object, whose `gen` updates its four words in place. */
  class Jkiss {
    var x: u32
    var y: bv32
    var z: u32
    var c: u32

    function State(): JkissState
      reads this
    {
      JkissState(x, y, z, c)
    }

    constructor FromSeed(seed: i32)
      ensures State() == SeedState(seed)
    {
      x := (X_MULTIPLIER * I32AsU32(seed) + X_INCREMENT) % TWO_32;
      y := Y_SEED;
      z := Z_SEED;
      c := C_SEED;
    }

    method Gen() returns (r: u32)
      modifies this
      ensures Draw(r, State()) == Next(old(State()))
    {
      ghost var before := State();
      x := (X_MULTIPLIER * x + X_INCREMENT) % TWO_32;

      y := Xorshift(y);

      var t := MWC_MULTIPLIER * z + c;
      MwcNoOverflow(z, c);
      z := t % TWO_32;
      c := t / TWO_32;

      r := (x + y as int + z) % TWO_32;
      assert State() == Next(before).next;
    }

    method GenRange(start: i32, end: i32) returns (r: Result<i32>)
      modifies this
      ensures r.Err? <==> end <= start
      ensures r.Err? ==> State() == old(State())
      ensures r.Ok? ==> RangeDraw(old(State()), start, end) == Ok(Draw(r.value, State()))
    {
      if end <= start {
        return Err("Empty range parsed to Jkiss.gen_range().");
      }
      var difference := end - start;
      if difference == 1 {
        r := Ok(start);
      } else {
        var g := Gen();
        r := Ok(start + g % difference);
      }
    }

    method GenFloat() returns (f: real)
      modifies this
      ensures FloatDraw(old(State())) == Draw(f, State())
    {
      var a := Gen();
      var b := Gen();
      f := ((a / 64) * TWO_27 + b / 64) as real / TWO_53 as real;
    }
  }
}
