/**
 * The fixed structure of the FACT chart: fifty slots addressed by a DOF
 * column (0..6) and a row inside that column, each tagged with whether it
 * lies inside the parallel pyramid and with the layout region it belongs to.
 */
module ChartTemplate {

  /** Number of rows in each DOF column; the index is the DOF. */
  const ColumnCounts: seq<nat> := [1, 3, 10, 22, 10, 3, 1]

  /** Highest row number of each DOF column that lies inside the parallel pyramid. */
  const ParallelPyramidLimits: seq<nat> := [1, 3, 9, 9, 3, 1, 0]

  /** Number of DOF columns. */
  const DofCount: nat := 7

  /** Where a slot is drawn: in the main pyramid or in one of the two ears of column 3. */
  datatype Region = Default | LeftEar | RightEar

  datatype Slot = Slot(id: string, dof: nat, row: nat, isParallelPyramid: bool, position: Region)

  // ---------------------------------------------------------------------------
  // Decimal rendering of naturals, as a JavaScript template literal prints them
  // ---------------------------------------------------------------------------

  function DigitChar(d: nat): char
    requires d < 10
  {
    ('0' as int + d) as char
  }

  predicate IsDigit(c: char) {
    '0' <= c <= '9'
  }

  predicate AllDigits(s: string) {
    forall i :: 0 <= i < |s| ==> IsDigit(s[i])
  }

  /** The decimal digits of `n`, most significant first, without leading zeros. */
  function NatToString(n: nat): string {
    if n < 10 then [DigitChar(n)] else NatToString(n / 10) + [DigitChar(n % 10)]
  }

  lemma {:induction false} NatToStringShape(n: nat)
    ensures AllDigits(NatToString(n))
    ensures 1 <= |NatToString(n)|
    ensures n >= 10 ==> 2 <= |NatToString(n)|
  {
    if n >= 10 {
      NatToStringShape(n / 10);
    }
  }

  /** Distinct naturals print as distinct strings. */
  lemma {:induction false} NatToStringInjective(a: nat, b: nat)
    requires NatToString(a) == NatToString(b)
    ensures a == b
  {
    NatToStringShape(a);
    NatToStringShape(b);
    if a < 10 && b < 10 {
      assert NatToString(a)[0] == NatToString(b)[0];
    } else if a >= 10 && b >= 10 {
      var sa, sb := NatToString(a), NatToString(b);
      assert sa[|sa| - 1] == sb[|sb| - 1];
      assert a % 10 == b % 10;
      assert NatToString(a / 10) == sa[..|sa| - 1] == sb[..|sb| - 1] == NatToString(b / 10);
      NatToStringInjective(a / 10, b / 10);
    }
  }

  /** The separator between the DOF and the row in a slot id. */
  const Separator: string := "-DOF-"

  /** The id of the slot at (`dof`, `row`): `"<dof>-DOF-<row>"`. */
  function SlotId(dof: nat, row: nat): string {
    NatToString(dof) + Separator + NatToString(row)
  }

  /** Length of the longest all-digit prefix of `s`. */
  function DigitPrefixLength(s: string): nat {
    if s == [] || !IsDigit(s[0]) then 0 else 1 + DigitPrefixLength(s[1..])
  }

  lemma {:induction false} DigitPrefixOf(a: string, rest: string)
    requires AllDigits(a) && rest != [] && !IsDigit(rest[0])
    ensures DigitPrefixLength(a + rest) == |a|
  {
    if a != [] {
      assert (a + rest)[1..] == a[1..] + rest;
      DigitPrefixOf(a[1..], rest);
    }
  }

  /** A digit string followed by the separator can be split at the separator in one way only. */
  lemma SplitAtSeparator(a1: string, b1: string, a2: string, b2: string)
    requires AllDigits(a1) && AllDigits(a2)
    requires a1 + Separator + b1 == a2 + Separator + b2
    ensures a1 == a2 && b1 == b2
  {
    var s := a1 + Separator + b1;
    assert s == a1 + (Separator + b1);
    assert s == a2 + (Separator + b2);
    DigitPrefixOf(a1, Separator + b1);
    DigitPrefixOf(a2, Separator + b2);
    assert a1 == s[..|a1|] == a2;
    assert b1 == s[|a1| + |Separator|..] == b2;
  }

  /** Slot ids determine the slot's address. */
  lemma SlotIdInjective(d1: nat, r1: nat, d2: nat, r2: nat)
    requires SlotId(d1, r1) == SlotId(d2, r2)
    ensures d1 == d2 && r1 == r2
  {
    NatToStringShape(d1);
    NatToStringShape(d2);
    assert SlotId(d1, r1) == NatToString(d1) + Separator + NatToString(r1);
    SplitAtSeparator(NatToString(d1), NatToString(r1), NatToString(d2), NatToString(r2));
    NatToStringInjective(d1, d2);
    NatToStringInjective(r1, r2);
  }

  // ---------------------------------------------------------------------------
  // The slot list
  // ---------------------------------------------------------------------------

  /** The layout region of (`dof`, `row`): rows 11..16 and 17..22 of column 3 are the ears. */
  function Classify(dof: nat, row: nat): Region {
    if dof == 3 && 11 <= row <= 16 then LeftEar
    else if dof == 3 && 17 <= row <= 22 then RightEar
    else Default
  }

  /** The slot generated for (`dof`, `row`). */
  function MakeSlot(dof: nat, row: nat): Slot
    requires dof < DofCount
  {
    Slot(SlotId(dof, row), dof, row, row <= ParallelPyramidLimits[dof], Classify(dof, row))
  }

  /** The slots of column `dof` for rows 1..n, in order. */
  function Column(dof: nat, n: nat): seq<Slot>
    requires dof < DofCount
  {
    if n == 0 then [] else Column(dof, n - 1) + [MakeSlot(dof, n)]
  }

  /** The slots of columns 0..d-1, column by column. */
  function Columns(d: nat): seq<Slot>
    requires d <= DofCount
  {
    if d == 0 then [] else Columns(d - 1) + Column(d - 1, ColumnCounts[d - 1])
  }

  /** The whole chart template, as generated. */
  function Template(): seq<Slot> {
    Columns(DofCount)
  }

  /** Index in the template of the first slot of column `d`: the sum of the earlier column counts. */
  function Start(d: nat): nat
    requires d <= DofCount
  {
    if d == 0 then 0 else Start(d - 1) + ColumnCounts[d - 1]
  }

  /** A slot is one the template can contain: a valid address, and every field as generated. */
  predicate WellFormed(s: Slot) {
    s.dof < DofCount && 1 <= s.row <= ColumnCounts[s.dof] && s == MakeSlot(s.dof, s.row)
  }

  /** The template index of a valid address: its column's start plus its row, counting from 0. */
  function IndexOf(dof: nat, row: nat): int
    requires dof < DofCount
  {
    Start(dof) + row - 1
  }

  /** Strict lexicographic order on (dof, row). */
  predicate Before(s: Slot, t: Slot) {
    s.dof < t.dof || (s.dof == t.dof && s.row < t.row)
  }

  /** Adding row n to the first n-1 rows of a column, after any prefix. */
  lemma ColumnSnoc(prefix: seq<Slot>, dof: nat, n: nat)
    requires dof < DofCount && 1 <= n
    ensures prefix + Column(dof, n) == prefix + Column(dof, n - 1) + [MakeSlot(dof, n)]
  {
  }

  /**
   * The template, filled column by column and row by row as the source does:
   * each entry is built with the default region and then moved to an ear when
   * it is one of rows 11..22 of column 3.
   */
  method GenerateChartTemplate() returns (template: seq<Slot>)
    ensures template == Template()
  {
    template := [];
    var dof := 0;
    while dof < |ColumnCounts|
      invariant 0 <= dof <= DofCount
      invariant template == Columns(dof)
    {
      var rowCount := ColumnCounts[dof];
      var row := 1;
      while row <= rowCount
        invariant 1 <= row <= rowCount + 1
        invariant template == Columns(dof) + Column(dof, row - 1)
      {
        var entry := Slot(NatToString(dof) + "-DOF-" + NatToString(row), dof, row,
                          row <= ParallelPyramidLimits[dof], Default);
        if dof == 3 {
          if row >= 11 && row <= 16 {
            entry := entry.(position := LeftEar);
          } else if row >= 17 && row <= 22 {
            entry := entry.(position := RightEar);
          }
        }
        ColumnSnoc(Columns(dof), dof, row);
        template := template + [entry];
        row := row + 1;
      }
      dof := dof + 1;
    }
  }

  // ---------------------------------------------------------------------------
  // Properties of the template
  // ---------------------------------------------------------------------------

  /** Column `dof` holds rows 1..n in increasing order. */
  lemma {:induction false} ColumnAt(dof: nat, n: nat, i: nat)
    requires dof < DofCount
    ensures |Column(dof, n)| == n
    ensures i < n ==> Column(dof, n)[i] == MakeSlot(dof, i + 1)
  {
    if n > 0 {
      ColumnAt(dof, n - 1, i);
      assert Column(dof, n) == Column(dof, n - 1) + [MakeSlot(dof, n)];
    }
  }

  lemma {:induction false} StartMonotone(a: nat, b: nat)
    requires a <= b <= DofCount
    ensures Start(a) <= Start(b)
  {
    if a < b {
      StartMonotone(a, b - 1);
    }
  }

  lemma {:induction false} ColumnsLength(d: nat)
    requires d <= DofCount
    ensures |Columns(d)| == Start(d)
  {
    if d > 0 {
      ColumnsLength(d - 1);
      ColumnAt(d - 1, ColumnCounts[d - 1], 0);
    }
  }

  /** Each element of the first `d` columns is well formed, in an earlier column, and sits at its own index. */
  lemma {:induction false} ColumnsAt(d: nat, k: nat)
    requires d <= DofCount && k < Start(d)
    ensures |Columns(d)| == Start(d)
    ensures WellFormed(Columns(d)[k]) && Columns(d)[k].dof < d
    ensures IndexOf(Columns(d)[k].dof, Columns(d)[k].row) == k
  {
    ColumnsLength(d);
    ColumnsLength(d - 1);
    if k < Start(d - 1) {
      ColumnsAt(d - 1, k);
      assert Columns(d)[k] == Columns(d - 1)[k];
    } else {
      ColumnAt(d - 1, ColumnCounts[d - 1], k - Start(d - 1));
      assert Columns(d)[k] == Column(d - 1, ColumnCounts[d - 1])[k - Start(d - 1)];
    }
  }

  /** The template has exactly 50 slots, the sum of the column counts. */
  lemma TemplateSize()
    ensures |Template()| == Start(DofCount) == 50
  {
    ColumnsLength(DofCount);
  }

  /** Every slot of the template is well formed and sits at the index of its address. */
  lemma TemplateAt(k: nat)
    requires k < |Template()|
    ensures WellFormed(Template()[k])
    ensures IndexOf(Template()[k].dof, Template()[k].row) == k
  {
    ColumnsLength(DofCount);
    ColumnsAt(DofCount, k);
  }

  /** The last of the first `d` columns sits after the earlier ones, row by row. */
  lemma LastColumnHas(d: nat, row: nat)
    requires 1 <= d <= DofCount && 1 <= row <= ColumnCounts[d - 1]
    ensures 0 <= IndexOf(d - 1, row) < |Columns(d)|
    ensures Columns(d)[IndexOf(d - 1, row)] == MakeSlot(d - 1, row)
  {
    ColumnsLength(d - 1);
    ColumnAt(d - 1, ColumnCounts[d - 1], row - 1);
  }

  /** Adding a column leaves the earlier slots where they were. */
  lemma ColumnsPrefix(d: nat, k: nat)
    requires 1 <= d <= DofCount && k < |Columns(d - 1)|
    ensures k < |Columns(d)| && Columns(d)[k] == Columns(d - 1)[k]
  {
  }

  /** Every valid address of the first `d` columns has its slot at its index. */
  lemma {:induction false} ColumnsHas(d: nat, dof: nat, row: nat)
    requires d <= DofCount && dof < d && 1 <= row <= ColumnCounts[dof]
    ensures 0 <= IndexOf(dof, row) < |Columns(d)|
    ensures Columns(d)[IndexOf(dof, row)] == MakeSlot(dof, row)
  {
    if dof == d - 1 {
      LastColumnHas(d, row);
    } else {
      ColumnsHas(d - 1, dof, row);
      ColumnsPrefix(d, IndexOf(dof, row));
    }
  }

  /** Every valid address has its slot in the template, at its index. */
  lemma TemplateHas(dof: nat, row: nat)
    requires dof < DofCount && 1 <= row <= ColumnCounts[dof]
    ensures 0 <= IndexOf(dof, row) < |Template()|
    ensures Template()[IndexOf(dof, row)] == MakeSlot(dof, row)
  {
    ColumnsHas(DofCount, dof, row);
  }

  /** Index order is the lexicographic order of addresses. */
  lemma IndexOrder(d1: nat, r1: nat, d2: nat, r2: nat)
    requires d1 < DofCount && 1 <= r1 <= ColumnCounts[d1]
    requires d2 < DofCount && 1 <= r2 <= ColumnCounts[d2]
    requires d1 < d2 || (d1 == d2 && r1 < r2)
    ensures IndexOf(d1, r1) < IndexOf(d2, r2)
  {
    if d1 < d2 {
      StartMonotone(d1 + 1, d2);
    }
  }

  /**
   * The slots of one DOF lie in the stretch of ColumnCounts[dof] indices that
   * starts at Start(dof). With TemplateHas and TemplateOrdered: the slots of
   * each DOF are exactly rows 1..ColumnCounts[dof], in increasing order.
   */
  lemma TemplateColumnOnly(dof: nat, k: nat)
    requires dof < DofCount
    requires k < |Template()| && Template()[k].dof == dof
    ensures Start(dof) <= k < Start(dof) + ColumnCounts[dof]
  {
    TemplateAt(k);
  }

  /** Slots come out in strictly increasing (dof, row) order. */
  lemma TemplateOrdered(i: nat, j: nat)
    requires i < j < |Template()|
    ensures Before(Template()[i], Template()[j])
  {
    var s, t := Template()[i], Template()[j];
    TemplateAt(i);
    TemplateAt(j);
    if t.dof < s.dof || (t.dof == s.dof && t.row < s.row) {
      IndexOrder(t.dof, t.row, s.dof, s.row);
    }
  }

  /** No two slots share an id, so no (dof, row) pair repeats. */
  lemma TemplateIdsDistinct(i: nat, j: nat)
    requires i < |Template()| && j < |Template()| && i != j
    ensures Template()[i].id != Template()[j].id
    ensures (Template()[i].dof, Template()[i].row) != (Template()[j].dof, Template()[j].row)
  {
    var s, t := Template()[i], Template()[j];
    TemplateAt(i);
    TemplateAt(j);
    if s.id == t.id {
      SlotIdInjective(s.dof, s.row, t.dof, t.row);
    }
  }

  /** Each slot's id is `"<dof>-DOF-<row>"` and its parallel flag is `row <= limit`; column 6 is never parallel. */
  lemma TemplateFields(k: nat)
    requires k < |Template()|
    ensures Template()[k].dof < DofCount
    ensures Template()[k].id == NatToString(Template()[k].dof) + "-DOF-" + NatToString(Template()[k].row)
    ensures Template()[k].isParallelPyramid <==> Template()[k].row <= ParallelPyramidLimits[Template()[k].dof]
    ensures Template()[k].dof == 6 ==> !Template()[k].isParallelPyramid
  {
    TemplateAt(k);
  }

  /** Region classification of every template slot. */
  lemma TemplateRegions(k: nat)
    requires k < |Template()|
    ensures Template()[k].position == LeftEar <==> Template()[k].dof == 3 && 11 <= Template()[k].row <= 16
    ensures Template()[k].position == RightEar <==> Template()[k].dof == 3 && 17 <= Template()[k].row <= 22
    ensures Template()[k].position == Default <==>
      !(Template()[k].dof == 3 && 11 <= Template()[k].row <= 22)
  {
    TemplateAt(k);
  }
}
