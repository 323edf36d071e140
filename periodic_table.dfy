/**
 * The periodic-table view's layout arithmetic. The element table is a flat
 * list of five-field records (symbol, name, mass, column, row); one object
 * is created per record, one table target per record and one grid target
 * per object. JavaScript's `Number(cell)` is modelled as an optional
 * number: `None` stands for NaN.
 */
module PeriodicTable {
  import opened Scene

  /** A table cell: missing (read past the end), a string or a number. */
  datatype Cell = Undefined | Text(text: string) | Num(value: real)

  /** The fields of one record in the flat table. */
  const FIELDS: nat := 5

  /** `table[i]`, which is `undefined` past the end. */
  function At(table: seq<Cell>, i: nat): Cell {
    if i < |table| then table[i] else Undefined
  }

  /** `Number(cell)`: a number stays itself; anything else is NaN here. */
  function NumberOf(c: Cell): Option<real> {
    if c.Num? then Some(c.value) else None
  }

  /** The label and the texts of the element created for one record. */
  datatype Element = Element(number: nat, symbol: Cell, name: Cell, mass: Cell)

  /** How many records the loops `i = 0, 5, 10, ... < table.length` visit. */
  function RecordCount(table: seq<Cell>): (n: nat)
    ensures n * FIELDS >= |table| && (n == 0 || (n - 1) * FIELDS < |table|)
  {
    (|table| + FIELDS - 1) / FIELDS
  }

  /** The loop stops after k records exactly when 5k is the first multiple of 5 at or past the end. */
  lemma RecordCountIs(table: seq<Cell>, k: nat)
    requires k * FIELDS >= |table| && (k == 0 || (k - 1) * FIELDS < |table|)
    ensures RecordCount(table) == k
  {
  }

  /** The element of the record starting at index `5 k`, labelled `k + 1`. */
  function ElementAt(table: seq<Cell>, k: nat): Element {
    var i := k * FIELDS;
    Element(i / FIELDS + 1, At(table, i), At(table, i + 1), At(table, i + 2))
  }

  /**
   * The record starting at index `i` (a multiple of 5) is labelled `i / 5 + 1`:
   * labels run 1, 2, 3, ... in record order, so they order the records as
   * the table does.
   */
  lemma ElementLabels(table: seq<Cell>, k: nat, m: nat)
    ensures ElementAt(table, k).number == k + 1
    ensures ElementAt(table, k).symbol == At(table, FIELDS * k)
    ensures k < m <==> ElementAt(table, k).number < ElementAt(table, m).number
  {
  }

  /** The first `n` objects `createDom` creates, in record order. */
  function Objects(table: seq<Cell>, n: nat): (s: seq<Element>)
    ensures |s| == n
  {
    seq(n, k requires 0 <= k => ElementAt(table, k))
  }

  /** A table target; a NaN coordinate is `None`. */
  datatype TableTarget = TableTarget(x: Option<real>, y: Option<real>)

  /** `x = Number(column) * 180 - 1330`, `y = -(Number(row) * 180) + 990`. */
  function TableTargetAt(table: seq<Cell>, k: nat): TableTarget {
    var i := k * FIELDS;
    var col := NumberOf(At(table, i + 3));
    var row := NumberOf(At(table, i + 4));
    TableTarget(if col.Some? then Some(col.value * 180.0 - 1330.0) else None,
                if row.Some? then Some(-(row.value * 180.0) + 990.0) else None)
  }

  /**
   * A record whose column and row are numbers c and r is placed on the
   * 180-unit lattice with (1, 1) at (-1150, 810): one more column moves it
   * 180 to the right, one more row 180 down.
   */
  lemma TableTargetLattice(table: seq<Cell>, k: nat, c: real, r: real)
    requires At(table, k * FIELDS + 3) == Num(c) && At(table, k * FIELDS + 4) == Num(r)
    ensures TableTargetAt(table, k) == TableTarget(Some(-1150.0 + (c - 1.0) * 180.0),
                                                   Some(810.0 - (r - 1.0) * 180.0))
  {
  }

  /**
   * Two records with numeric columns and rows are 180 units apart in x per
   * column and 180 units apart in y per row (rows grow downwards), so two
   * records get the same table target exactly when they name the same
   * column and row.
   */
  lemma TableTargetSpacing(table: seq<Cell>, k: nat, m: nat, c1: real, r1: real, c2: real, r2: real)
    requires At(table, k * FIELDS + 3) == Num(c1) && At(table, k * FIELDS + 4) == Num(r1)
    requires At(table, m * FIELDS + 3) == Num(c2) && At(table, m * FIELDS + 4) == Num(r2)
    ensures TableTargetAt(table, k).x.Some? && TableTargetAt(table, m).x.Some?
    ensures TableTargetAt(table, k).y.Some? && TableTargetAt(table, m).y.Some?
    ensures TableTargetAt(table, m).x.value - TableTargetAt(table, k).x.value == 180.0 * (c2 - c1)
    ensures TableTargetAt(table, k).y.value - TableTargetAt(table, m).y.value == 180.0 * (r2 - r1)
    ensures TableTargetAt(table, k) == TableTargetAt(table, m) <==> c1 == c2 && r1 == r2
  {
    TableTargetLattice(table, k, c1, r1);
    TableTargetLattice(table, m, c2, r2);
  }

  /** The first `n` targets `createTable` pushes, in record order. */
  function TableTargets(table: seq<Cell>, n: nat): (s: seq<TableTarget>)
    ensures |s| == n
  {
    seq(n, k requires 0 <= k => TableTargetAt(table, k))
  }

  /** A grid target. */
  datatype GridTarget = GridTarget(x: int, y: int, z: int)

  /**
   * Object i goes to column i mod 5, row floor(i/5) mod 5 and layer
   * floor(i/25) of a 5 x 5 x n grid with 400-unit cells and 1000-unit layers.
   */
  function GridTargetAt(i: nat): GridTarget {
    GridTarget((i % 5) * 400 - 800, -((i / 5) % 5) * 400 + 800, (i / 25) * 1000 - 2000)
  }

  /** The targets `createGrid` pushes for `n` objects. */
  function GridTargets(n: nat): (s: seq<GridTarget>)
    ensures |s| == n
  {
    seq(n, i requires 0 <= i => GridTargetAt(i))
  }

  /** The five possible values of a grid x or y coordinate. */
  predicate OnFiveLattice(v: int) {
    v == -800 || v == -400 || v == 0 || v == 400 || v == 800
  }

  /** x and y always take one of the five lattice values; z starts at -2000 and grows by layers. */
  lemma GridTargetRange(i: nat)
    ensures OnFiveLattice(GridTargetAt(i).x) && OnFiveLattice(GridTargetAt(i).y)
    ensures GridTargetAt(i).z >= -2000 && (GridTargetAt(i).z + 2000) % 1000 == 0
  {
  }

  /** z never decreases along the object order. */
  lemma GridZMonotone(i: nat, j: nat)
    requires i <= j
    ensures GridTargetAt(i).z <= GridTargetAt(j).z
  {
    assert i / 25 <= j / 25;
  }

  /** i = 25 floor(i/25) + 5 (floor(i/5) mod 5) + i mod 5 */
  lemma GridDecomposition(i: nat)
    ensures i == (i / 25) * 25 + ((i / 5) % 5) * 5 + i % 5
  {
    var q := i / 5;
    assert i == q * 5 + i % 5;
    assert q == (q / 5) * 5 + q % 5;
    assert q / 5 == i / 25;
  }

  /** Distinct objects get distinct grid targets. */
  lemma GridTargetInjective(i: nat, j: nat)
    requires GridTargetAt(i) == GridTargetAt(j)
    ensures i == j
  {
    GridDecomposition(i);
    GridDecomposition(j);
    assert i % 5 == j % 5;
    assert (i / 5) % 5 == (j / 5) % 5;
    assert i / 25 == j / 25;
  }

  class Periodictable {
    var objects: seq<Element>
    var tableTargets: seq<TableTarget>
    var gridTargets: seq<GridTarget>

    constructor()
      ensures objects == [] && tableTargets == [] && gridTargets == []
    {
      objects, tableTargets, gridTargets := [], [], [];
    }

    /** `createDom`: one object per five-field record, in record order. */
    method CreateDom(table: seq<Cell>)
      modifies this
      ensures objects == old(objects) + Objects(table, RecordCount(table))
      ensures tableTargets == old(tableTargets) && gridTargets == old(gridTargets)
    {
      var i := 0;
      ghost var k: nat := 0;
      while i < |table|
        invariant i == k * FIELDS && (k == 0 || (k - 1) * FIELDS < |table|)
        invariant objects == old(objects) + Objects(table, k)
        invariant tableTargets == old(tableTargets) && gridTargets == old(gridTargets)
        decreases |table| - i
      {
        var element := Element(i / FIELDS + 1, At(table, i), At(table, i + 1), At(table, i + 2));
        assert element == ElementAt(table, k);
        assert Objects(table, k + 1) == Objects(table, k) + [element];
        objects := objects + [element];
        i := i + FIELDS;
        k := k + 1;
      }
      RecordCountIs(table, k);
    }

    /** `createTable`: one target per five-field record, in record order. */
    method CreateTable(table: seq<Cell>)
      modifies this
      ensures tableTargets == old(tableTargets) + TableTargets(table, RecordCount(table))
      ensures objects == old(objects) && gridTargets == old(gridTargets)
    {
      var i := 0;
      ghost var k: nat := 0;
      while i < |table|
        invariant i == k * FIELDS && (k == 0 || (k - 1) * FIELDS < |table|)
        invariant tableTargets == old(tableTargets) + TableTargets(table, k)
        invariant objects == old(objects) && gridTargets == old(gridTargets)
        decreases |table| - i
      {
        var col := NumberOf(At(table, i + 3));
        var row := NumberOf(At(table, i + 4));
        var x := if col.Some? then Some(col.value * 180.0 - 1330.0) else None;
        var y := if row.Some? then Some(-(row.value * 180.0) + 990.0) else None;
        assert TableTarget(x, y) == TableTargetAt(table, k);
        assert TableTargets(table, k + 1) == TableTargets(table, k) + [TableTarget(x, y)];
        tableTargets := tableTargets + [TableTarget(x, y)];
        i := i + FIELDS;
        k := k + 1;
      }
      RecordCountIs(table, k);
    }

    /** `createGrid`: one target per object, in object order. */
    method CreateGrid()
      modifies this
      ensures gridTargets == old(gridTargets) + GridTargets(|objects|)
      ensures objects == old(objects) && tableTargets == old(tableTargets)
    {
      var i := 0;
      while i < |objects|
        invariant i <= |objects|
        invariant gridTargets == old(gridTargets) + GridTargets(i)
        invariant objects == old(objects) && tableTargets == old(tableTargets)
      {
        var x := (i % 5) * 400 - 800;
        var y := -((i / 5) % 5) * 400 + 800;
        var z := (i / 25) * 1000 - 2000;
        gridTargets := gridTargets + [GridTarget(x, y, z)];
        i := i + 1;
      }
    }
  }
}
