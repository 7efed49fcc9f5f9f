/**
 * The target cups: their tier, their point value and the triangular layout
 * built once when the world is created (script.js lines 50-63).
 */
module Cups {
  import opened Physics

  /** The cup's mesh name: "gold" for the last row, "normal" otherwise. */
  datatype Tier = Gold | Normal

  datatype Cup = Cup(pos: Vec3, tier: Tier)

  /** Points a ball earns by landing in a cup of this tier (script.js line 95). */
  function Value(t: Tier): (v: int)
    ensures v == 30 || v == 100
    ensures v == 100 <==> t == Gold
  {
    if t == Gold then 100 else 30
  }

  /** Number of cups per row, front row first. */
  const ROWS: seq<nat> := [5, 4, 3, 2, 1]

  /** Only the row at index 4 is gold. */
  function RowTier(rowIndex: nat): (t: Tier)
    ensures t == Gold <==> rowIndex == 4
  {
    if rowIndex == 4 then Gold else Normal
  }

  /** Cup i of a row of `count` cups: rows 1.4 apart, cups 1.4 apart, each row centred on x = 0. */
  function CupAt(rowIndex: nat, count: nat, i: nat): Cup {
    var z := 2.0 - rowIndex as real * 1.4;
    var startX := -((count as real - 1.0) * 1.4) / 2.0;
    Cup(Vec3(startX + i as real * 1.4, 0.35, z), RowTier(rowIndex))
  }

  /**
   * The cups of one row, left to right: all of the row's tier, on the row's
   * line z = 2 - 1.4 * rowIndex, 1.4 apart and centred on x = 0.
   */
  function Row(rowIndex: nat, count: nat): (r: seq<Cup>)
    ensures |r| == count
    ensures forall i :: 0 <= i < count ==> r[i].tier == RowTier(rowIndex)
    ensures forall i :: 0 <= i < count ==> r[i].pos.z == 2.0 - 1.4 * rowIndex as real
    ensures forall i :: 0 <= i < count - 1 ==> r[i + 1].pos.x - r[i].pos.x == 1.4
    ensures forall i :: 0 <= i < count ==> r[i].pos.x + r[count - 1 - i].pos.x == 0.0
  {
    seq(count, i requires 0 <= i < count => CupAt(rowIndex, count, i))
  }

  /** The cups of rows 0 .. k-1, in the order they are pushed. */
  function LayoutPrefix(rows: seq<nat>, k: nat): (cups: seq<Cup>)
    requires k <= |rows|
  {
    if k == 0 then [] else LayoutPrefix(rows, k - 1) + Row(k - 1, rows[k - 1])
  }

  function Layout(): seq<Cup> {
    LayoutPrefix(ROWS, |ROWS|)
  }

  function Sum(s: seq<nat>): nat {
    if s == [] then 0 else Sum(s[..|s| - 1]) + s[|s| - 1]
  }

  function CountGold(cups: seq<Cup>): (n: nat)
    ensures n <= |cups|
  {
    if cups == [] then 0
    else CountGold(cups[..|cups| - 1]) + (if cups[|cups| - 1].tier == Gold then 1 else 0)
  }

  lemma {:induction false} CountGoldAppend(a: seq<Cup>, b: seq<Cup>)
    ensures CountGold(a + b) == CountGold(a) + CountGold(b)
  {
    if b != [] {
      assert (a + b)[..|a + b| - 1] == a + b[..|b| - 1];
      CountGoldAppend(a, b[..|b| - 1]);
    } else {
      assert a + b == a;
    }
  }

  /** A row holds as many cups as its count. */
  lemma {:induction false} LayoutPrefixSize(rows: seq<nat>, k: nat)
    requires k <= |rows|
    ensures |LayoutPrefix(rows, k)| == Sum(rows[..k])
  {
    if k > 0 {
      LayoutPrefixSize(rows, k - 1);
      assert rows[..k][..k - 1] == rows[..k - 1];
    }
  }

  /** Cups that all share one tier are all gold or hold no gold at all. */
  lemma {:induction false} CountGoldUniform(cups: seq<Cup>, t: Tier)
    requires forall i :: 0 <= i < |cups| ==> cups[i].tier == t
    ensures CountGold(cups) == if t == Gold then |cups| else 0
  {
    if cups != [] {
      CountGoldUniform(cups[..|cups| - 1], t);
    }
  }

  /** A row holds gold cups only if it is row 4, and then all of them are gold. */
  lemma RowGold(rowIndex: nat, count: nat)
    ensures CountGold(Row(rowIndex, count)) == if rowIndex == 4 then count else 0
  {
    CountGoldUniform(Row(rowIndex, count), RowTier(rowIndex));
  }

  /** Rows before index 4 hold no gold cup. */
  lemma {:induction false} NoGoldBeforeLastRow(rows: seq<nat>, k: nat)
    requires k <= |rows| && k <= 4
    ensures CountGold(LayoutPrefix(rows, k)) == 0
  {
    if k > 0 {
      NoGoldBeforeLastRow(rows, k - 1);
      RowGold(k - 1, rows[k - 1]);
      CountGoldAppend(LayoutPrefix(rows, k - 1), Row(k - 1, rows[k - 1]));
    }
  }

  /**
   * The table holds fifteen cups, exactly one of them gold, and that one is
   * the last cup pushed: the single cup of row 4.
   */
  lemma LayoutFacts()
    ensures |Layout()| == 15
    ensures CountGold(Layout()) == 1
    ensures Layout()[14].tier == Gold
    ensures forall i :: 0 <= i < 14 ==> Layout()[i].tier == Normal
  {
    LayoutPrefixSize(ROWS, 5);
    assert ROWS[..5] == ROWS;
    var front := LayoutPrefix(ROWS, 4);
    LayoutPrefixSize(ROWS, 4);
    assert ROWS[..4][..3][..2][..1][..0] == [];
    assert |front| == 14;
    NoGoldBeforeLastRow(ROWS, 4);
    RowGold(4, 1);
    CountGoldAppend(front, Row(4, 1));
    forall i | 0 <= i < 14 ensures Layout()[i].tier == Normal {
      assert Layout()[i] == front[i];
      NoGoldAt(front, i);
    }
  }

  /** A sequence with no gold cup holds only normal cups. */
  lemma {:induction false} NoGoldAt(cups: seq<Cup>, i: nat)
    requires CountGold(cups) == 0 && i < |cups|
    ensures cups[i].tier == Normal
  {
    if i < |cups| - 1 {
      assert cups[..|cups| - 1][i] == cups[i];
      NoGoldAt(cups[..|cups| - 1], i);
    }
  }
}
