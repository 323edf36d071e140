/**
 * The hover demo of the Home view: a 10 x 10 x 10 block of instanced
 * icosahedra, filled slot by slot by a triple loop over a running slot
 * counter, and a hover handler that gives a still-white instance a random
 * colour. Instance matrices are reduced to their translations, and colours
 * to their 24-bit hex value, which determines a colour set by `setHex`.
 */
module InstancedGrid {
  import opened Vectors
  import opened Scene

  const AMOUNT: nat := 10
  const COUNT: nat := 1000

  /** `(amount - 1) / 2 + 20` */
  const OFFSET: real := 24.5

  const WHITE: int := 0xffffff

  /** The slot the triple loop writes for cell (i, j, k). */
  function SlotOf(i: nat, j: nat, k: nat): nat {
    i * AMOUNT * AMOUNT + j * AMOUNT + k
  }

  /** The cell a slot holds: its hundreds, tens and units digit. */
  function CellI(s: nat): nat { s / 100 }
  function CellJ(s: nat): nat { (s / 10) % 10 }
  function CellK(s: nat): nat { s % 10 }

  /** The translation of the instance in slot `s`. */
  function PositionOf(s: nat): Vec {
    Vec(OFFSET - CellI(s) as real, OFFSET - CellJ(s) as real, OFFSET - CellK(s) as real)
  }

  /**
   * The slot map is a bijection between the cells of the 10 x 10 x 10
   * block and the slots 0 .. 999: each cell gets a slot in range, and
   * reading the cell back from the slot gives the same cell.
   */
  lemma SlotBijection(i: nat, j: nat, k: nat)
    requires i < AMOUNT && j < AMOUNT && k < AMOUNT
    ensures SlotOf(i, j, k) < COUNT
    ensures CellI(SlotOf(i, j, k)) == i && CellJ(SlotOf(i, j, k)) == j && CellK(SlotOf(i, j, k)) == k
  {
    var s := SlotOf(i, j, k);
    assert s == i * 100 + (j * 10 + k);
    assert s / 10 == i * 10 + j;
  }

  /** ... and every slot in range is the slot of its own cell. */
  lemma SlotSurjective(s: nat)
    requires s < COUNT
    ensures CellI(s) < AMOUNT && CellJ(s) < AMOUNT && CellK(s) < AMOUNT
    ensures SlotOf(CellI(s), CellJ(s), CellK(s)) == s
  {
    var t := s / 10;
    assert s == t * 10 + s % 10;
    assert t == (t / 10) * 10 + t % 10;
    assert t / 10 == s / 100;
  }

  /** Every coordinate of every placed instance lies in [15.5, 24.5]. */
  lemma PositionRange(s: nat)
    requires s < COUNT
    ensures 15.5 <= PositionOf(s).x <= 24.5
    ensures 15.5 <= PositionOf(s).y <= 24.5
    ensures 15.5 <= PositionOf(s).z <= 24.5
  {
    SlotSurjective(s);
  }

  /** The hex value `setHex(random * 0xffffff)` stores: the floor of its argument. */
  function RandomColour(random: real): int {
    (random * (WHITE as real)).Floor
  }

  /** For `Math.random()` in [0, 1) the new colour is a 24-bit value other than white. */
  lemma RandomColourNotWhite(random: real)
    requires 0.0 <= random < 1.0
    ensures 0 <= RandomColour(random) < WHITE
  {
    var h := random * (WHITE as real);
    assert h < WHITE as real;
  }

  /**
   * The colours after one hover frame: the nearest intersected instance, if
   * any, takes the random colour only while it is white.
   */
  function Hovered(colors: seq<int>, hit: Option<nat>, random: real): (r: seq<int>)
    requires hit.Some? ==> hit.value < |colors|
    ensures |r| == |colors|
    ensures forall s :: 0 <= s < |colors| && (hit.None? || s != hit.value) ==> r[s] == colors[s]
  {
    if hit.Some? && colors[hit.value] == WHITE then colors[hit.value := RandomColour(random)] else colors
  }

  /**
   * With `Math.random()` in [0, 1), only a white instance is ever
   * recoloured, a hover never makes an instance white, and a hovered white
   * instance stops being white; so a hovered instance that is not white
   * keeps its colour, and each instance is recoloured at most once.
   */
  lemma HoverOnlyClearsWhite(colors: seq<int>, hit: Option<nat>, random: real, s: nat)
    requires 0.0 <= random < 1.0
    requires hit.Some? ==> hit.value < |colors|
    requires s < |colors|
    ensures Hovered(colors, hit, random)[s] == WHITE ==> colors[s] == WHITE
    ensures hit.Some? ==> Hovered(colors, hit, random)[hit.value] != WHITE
    ensures Hovered(colors, hit, random)[s] != colors[s] ==> colors[s] == WHITE
    ensures hit.Some? && colors[hit.value] != WHITE ==> Hovered(colors, hit, random) == colors
  {
    RandomColourNotWhite(random);
  }

  /**
   * Two hovers in a row recolour an instance at most once: after the first
   * hover, hovering the same instance again changes nothing.
   */
  lemma HoverRecoloursOnce(colors: seq<int>, hit: Option<nat>, random1: real, random2: real)
    requires 0.0 <= random1 < 1.0
    requires hit.Some? ==> hit.value < |colors|
    ensures Hovered(Hovered(colors, hit, random1), hit, random2) == Hovered(colors, hit, random1)
  {
    RandomColourNotWhite(random1);
  }

  class Raycaster {
    const positions: array<Vec>
    const colors: array<int>

    predicate Valid()
      reads this
    {
      positions.Length == COUNT && colors.Length == COUNT
    }

    /**
     * Allocates the instance buffers and runs `initMeshes`: slot s holds the
     * translation of the cell of its digits, and every slot is white.
     */
    constructor()
      ensures Valid() && fresh(positions) && fresh(colors)
      ensures forall s :: 0 <= s < COUNT ==> positions[s] == PositionOf(s)
      ensures forall s :: 0 <= s < COUNT ==> colors[s] == WHITE
    {
      positions := new Vec[COUNT];
      colors := new int[COUNT];
      new;
      var index := InitMeshes();
    }

    /**
     * `initMeshes`: the slot counter runs once through every (i, j, k) in
     * loop order, so slot s gets the cell of its digits, placed at
     * (offset - i, offset - j, offset - k), and white. Returns the final
     * counter.
     */
    method InitMeshes() returns (index: nat)
      requires Valid()
      modifies positions, colors
      ensures index == COUNT
      ensures forall s :: 0 <= s < COUNT ==> positions[s] == PositionOf(s)
      ensures forall s :: 0 <= s < COUNT ==> colors[s] == WHITE
    {
      index := 0;
      for i := 0 to AMOUNT
        invariant index == i * AMOUNT * AMOUNT
        invariant forall s :: 0 <= s < index ==> positions[s] == PositionOf(s) && colors[s] == WHITE
      {
        for j := 0 to AMOUNT
          invariant index == i * AMOUNT * AMOUNT + j * AMOUNT
          invariant forall s :: 0 <= s < index ==> positions[s] == PositionOf(s) && colors[s] == WHITE
        {
          for k := 0 to AMOUNT
            invariant index == SlotOf(i, j, k)
            invariant forall s :: 0 <= s < index ==> positions[s] == PositionOf(s) && colors[s] == WHITE
          {
            SlotBijection(i, j, k);
            positions[index] := Vec(OFFSET - i as real, OFFSET - j as real, OFFSET - k as real);
            colors[index] := WHITE;
            index := index + 1;
          }
        }
      }
    }

    /**
     * One hover frame of `initRaycast`: the nearest intersected instance,
     * if any, is recoloured with a random colour only while it is white.
     */
    method Hover(hit: Option<nat>, random: real)
      requires Valid()
      requires hit.Some? ==> hit.value < COUNT
      modifies colors
      ensures colors[..] == Hovered(old(colors[..]), hit, random)
    {
      if hit.Some? {
        var instanceId := hit.value;
        var color := colors[instanceId];
        if color == WHITE {
          colors[instanceId] := RandomColour(random);
        }
      }
    }
  }
}
