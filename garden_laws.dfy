/** What the plant layout guarantees: the shape of a column, the bounds and
    order of the columns, where the species come from, and when the layout is
    empty. */
module GardenLaws {
  import opened ConfigStore
  import opened Constants
  import opened Garden

  /** The pairs from step `i` up to `n - 1`: two plants per step, all of
      species `p` at `x`, the `j`-th step at `mid ± Offset(spread, j)`. */
  lemma {:induction false} PairsShape(p: Plant, x: real, mid: real, i: int, n: int)
    ensures |Pairs(p, x, mid, i, n)| == if i < n then 2 * (n - i) else 0
    ensures forall k :: 0 <= k < |Pairs(p, x, mid, i, n)| ==>
      Pairs(p, x, mid, i, n)[k].plant == p && Pairs(p, x, mid, i, n)[k].x == x
    ensures forall j :: i <= j < n ==>
      Pairs(p, x, mid, i, n)[2 * (j - i)].y == mid + Offset(p.spread, j) &&
      Pairs(p, x, mid, i, n)[2 * (j - i) + 1].y == mid - Offset(p.spread, j)
    decreases n - i
  {
    if i < n {
      PairsShape(p, x, mid, i + 1, n);
      PairsStep(p, x, mid, i, n);
      var rest := Pairs(p, x, mid, i + 1, n);
      var all := Pairs(p, x, mid, i, n);
      forall k | 0 <= k < |all| ensures all[k].plant == p && all[k].x == x {
        if k >= 2 {
          assert all[k] == rest[k - 2];
        }
      }
      forall j | i <= j < n
        ensures all[2 * (j - i)].y == mid + Offset(p.spread, j)
        ensures all[2 * (j - i) + 1].y == mid - Offset(p.spread, j)
      {
        if j > i {
          assert all[2 * (j - i)] == rest[2 * (j - (i + 1))];
          assert all[2 * (j - i) + 1] == rest[2 * (j - (i + 1)) + 1];
        }
      }
    }
  }

  /** Every pair lies strictly between the centre line and the bed's edge
      less half a spread: `spread * j < (width - spread) / 2` for
      `j < plantsPerHalfRow`. */
  lemma OffsetBound(width: real, spread: real, j: int)
    requires spread > 0.0 && 1 <= j < PlantsPerHalfRow(width, spread)
    ensures 0.0 < Offset(spread, j) < (width - spread) / 2.0
  {
    var r := (width - spread) / 2.0 / spread;
    var n := PlantsPerHalfRow(width, spread);
    assert (n - 1) as real < r;
    assert j as real <= (n - 1) as real;
    calc {
      Offset(spread, j);
      == spread * j as real;
      <= { MulLeft(spread, j as real, (n - 1) as real); }
      spread * (n - 1) as real;
      < { MulLeftStrict(spread, (n - 1) as real, r); }
      spread * r;
      == (width - spread) / 2.0;
    }
    MulLeftStrict(spread, 0.0, j as real);
  }

  lemma MulLeft(c: real, a: real, b: real)
    requires c > 0.0 && a <= b
    ensures c * a <= c * b
  {
  }

  lemma MulLeftStrict(c: real, a: real, b: real)
    requires c > 0.0 && a < b
    ensures c * a < c * b
  {
  }

  /** A column has `1 + 2 * max(0, plantsPerHalfRow - 1)` plants, all of one
      species at one `x`, the centre plant first at `width / 2`; then for each
      step `j` a plant `spread * j` above the centre line and its mirror image
      below. */
  lemma ColumnShape(p: Plant, x: real, width: real)
    requires p.spread > 0.0
    ensures |Column(p, x, width)| ==
      if PlantsPerHalfRow(width, p.spread) > 1 then 2 * PlantsPerHalfRow(width, p.spread) - 1 else 1
    ensures forall k :: 0 <= k < |Column(p, x, width)| ==>
      Column(p, x, width)[k].plant == p && Column(p, x, width)[k].x == x
    ensures Column(p, x, width)[0].y == width / 2.0
    ensures forall j :: 1 <= j < PlantsPerHalfRow(width, p.spread) ==>
      Column(p, x, width)[2 * j - 1].y == width / 2.0 + Offset(p.spread, j) &&
      Column(p, x, width)[2 * j].y == width / 2.0 - Offset(p.spread, j)
  {
    var n := PlantsPerHalfRow(width, p.spread);
    var mid := width / 2.0;
    var pairs := Pairs(p, x, mid, 1, n);
    var col := Column(p, x, width);
    PairsShape(p, x, mid, 1, n);
    assert col == [PlacedPlant(p, x, mid)] + pairs;
    forall k | 0 <= k < |col| ensures col[k].plant == p && col[k].x == x {
      if k > 0 {
        assert col[k] == pairs[k - 1];
      }
    }
    forall j | 1 <= j < n
      ensures col[2 * j - 1].y == mid + Offset(p.spread, j)
      ensures col[2 * j].y == mid - Offset(p.spread, j)
    {
      assert col[2 * j - 1] == pairs[2 * (j - 1)];
      assert col[2 * j] == pairs[2 * (j - 1) + 1];
    }
  }

  /** Every plant of a column but the centre one lies off the centre line and
      less than `(width - spread) / 2` from it. */
  lemma ColumnInside(p: Plant, x: real, width: real)
    requires p.spread > 0.0
    ensures forall k :: 1 <= k < |Column(p, x, width)| ==>
      Column(p, x, width)[k].y != width / 2.0 &&
      -(width - p.spread) / 2.0 < Column(p, x, width)[k].y - width / 2.0 < (width - p.spread) / 2.0
  {
    forall k | 1 <= k < |Column(p, x, width)|
      ensures Column(p, x, width)[k].y != width / 2.0
      ensures -(width - p.spread) / 2.0 < Column(p, x, width)[k].y - width / 2.0 < (width - p.spread) / 2.0
    {
      ColumnRowInside(p, x, width, k);
    }
  }

  /** The `k`-th plant of a column, for `k >= 1`, belongs to step
      `(k + 1) / 2`, whose offset is bounded. */
  lemma ColumnRowInside(p: Plant, x: real, width: real, k: int)
    requires p.spread > 0.0 && 1 <= k < |Column(p, x, width)|
    ensures Column(p, x, width)[k].y != width / 2.0
    ensures -(width - p.spread) / 2.0 < Column(p, x, width)[k].y - width / 2.0 < (width - p.spread) / 2.0
  {
    var n := PlantsPerHalfRow(width, p.spread);
    ColumnShape(p, x, width);
    var j := (k + 1) / 2;
    assert 1 <= j < n;
    OffsetBound(width, p.spread, j);
    if k % 2 == 1 {
      assert k == 2 * j - 1;
      assert Column(p, x, width)[k].y == width / 2.0 + Offset(p.spread, j);
    } else {
      assert k == 2 * j;
      assert Column(p, x, width)[k].y == width / 2.0 - Offset(p.spread, j);
    }
  }

  /** Every plant lies between `lo` and `hi` along the bed. */
  predicate Within(s: seq<PlacedPlant>, lo: real, hi: real) {
    forall k :: 0 <= k < |s| ==> lo <= s[k].x <= hi
  }

  /** Plants come in order of `x`, column by column: two plants share a
      column's `x`, or the later one is at least 100 further along. */
  predicate Ordered(s: seq<PlacedPlant>) {
    forall a, b :: 0 <= a <= b < |s| ==> s[a].x == s[b].x || s[a].x + 100.0 <= s[b].x
  }

  /** Every plant is on the centre line, or less than half the bed width
      less half its spread away from it. */
  predicate InsideRows(s: seq<PlacedPlant>, width: real) {
    forall k :: 0 <= k < |s| ==>
      s[k].y == width / 2.0 ||
      -(width - s[k].plant.spread) / 2.0 < s[k].y - width / 2.0 < (width - s[k].plant.spread) / 2.0
  }

  /** Every plant is the table entry of some key of the list. */
  predicate FromList(s: seq<PlacedPlant>, plants: seq<(string, Plant)>, list: seq<string>) {
    forall k :: 0 <= k < |s| ==> Listed(s[k], plants, list)
  }

  /** The plant is the table entry of some key of the list. */
  predicate Listed(c: PlacedPlant, plants: seq<(string, Plant)>, list: seq<string>) {
    exists j :: 0 <= j < |list| && Lookup(plants, list[j]) == Some(c.plant)
  }

  /** Every plant of a column is the column's species at the column's `x`. */
  lemma ColumnAt(p: Plant, x: real, width: real)
    requires p.spread > 0.0
    ensures Within(Column(p, x, width), x, x)
    ensures forall k :: 0 <= k < |Column(p, x, width)| ==> Column(p, x, width)[k].plant == p
  {
    ColumnShape(p, x, width);
  }

  /** A column, as a whole: at one `x`, so in order, and inside the rows. */
  lemma ColumnRows(p: Plant, x: real, width: real)
    requires p.spread > 0.0
    ensures Within(Column(p, x, width), x, x)
    ensures InsideRows(Column(p, x, width), width)
  {
    ColumnShape(p, x, width);
    ColumnInside(p, x, width);
  }

  lemma JoinInsideRows(a: seq<PlacedPlant>, b: seq<PlacedPlant>, width: real)
    requires InsideRows(a, width) && InsideRows(b, width)
    ensures InsideRows(a + b, width)
  {
    forall k | 0 <= k < |a + b|
      ensures (a + b)[k].y == width / 2.0 ||
        -(width - (a + b)[k].plant.spread) / 2.0 < (a + b)[k].y - width / 2.0 < (width - (a + b)[k].plant.spread) / 2.0
    {
      if k >= |a| {
        assert (a + b)[k] == b[k - |a|];
      }
    }
  }

  lemma JoinOrdered(a: seq<PlacedPlant>, b: seq<PlacedPlant>, x: real, x': real, hi: real)
    requires Within(a, x, x) && Within(b, x', hi) && x + 100.0 <= x' && Ordered(b)
    ensures Ordered(a + b)
  {
    var s := a + b;
    forall i, j | 0 <= i <= j < |s| ensures s[i].x == s[j].x || s[i].x + 100.0 <= s[j].x {
      if j < |a| {
        assert s[i] == a[i] && s[j] == a[j];
      } else if i < |a| {
        assert s[i] == a[i] && s[j] == b[j - |a|];
      } else {
        assert s[i] == b[i - |a|] && s[j] == b[j - |a|];
      }
    }
  }

  /** A column at `x` followed by plants from `x'` on, all from the list,
      lie together from `x` on. */
  lemma JoinWithin(a: seq<PlacedPlant>, b: seq<PlacedPlant>, x: real, x': real, hi: real,
                   plants: seq<(string, Plant)>, list: seq<string>)
    requires Within(a, x, x) && Within(b, x', hi) && x <= x' && x <= hi
    requires FromList(a, plants, list) && FromList(b, plants, list)
    ensures Within(a + b, x, hi) && FromList(a + b, plants, list)
  {
    forall k | 0 <= k < |a + b|
      ensures x <= (a + b)[k].x <= hi
      ensures Listed((a + b)[k], plants, list)
    {
      if k < |a| {
        assert (a + b)[k] == a[k];
      } else {
        assert (a + b)[k] == b[k - |a|];
      }
    }
  }

  /** The columns from `x` on lie between `x` and `length - 100`, and each
      plant carries the table entry of a key of the list. */
  lemma {:induction false} RunWithin(plants: seq<(string, Plant)>, list: seq<string>, length: real, width: real,
                                     x: real, index: int)
    requires InRange(plants)
    ensures RunFrom(plants, list, length, width, x, index).Columns? ==>
      Within(RunFrom(plants, list, length, width, x, index).plants, x, length - END_MARGIN) &&
      FromList(RunFrom(plants, list, length, width, x, index).plants, plants, list)
    decreases Room(length - END_MARGIN, x)
  {
    if x <= length - END_MARGIN && PlantAt(plants, list, index).Some?
       && PlantAt(plants, list, NextIndex(list, index)).Some? {
      var p := PlantAt(plants, list, index).value;
      var q := PlantAt(plants, list, NextIndex(list, index)).value;
      var x' := x + (p.spread / 2.0 + q.spread / 2.0);
      RoomShrinks(length - END_MARGIN, x, p.spread / 2.0 + q.spread / 2.0);
      RunStep(plants, list, length, width, x, index, p, q);
      RunWithin(plants, list, length, width, x', NextIndex(list, index));
      ColumnAt(p, x, width);
      var col := Column(p, x, width);
      var rest := RunFrom(plants, list, length, width, x', NextIndex(list, index));
      if rest.Columns? {
        forall k | 0 <= k < |col|
          ensures Listed(col[k], plants, list)
        {
          assert Lookup(plants, list[index]) == Some(col[k].plant);
        }
        JoinWithin(col, rest.plants, x, x', length - END_MARGIN, plants, list);
        assert RunFrom(plants, list, length, width, x, index).plants == col + rest.plants;
      } else {
        assert !RunFrom(plants, list, length, width, x, index).Columns?;
      }
    } else if x > length - END_MARGIN {
      assert RunFrom(plants, list, length, width, x, index) == Columns([]);
    } else {
      assert !RunFrom(plants, list, length, width, x, index).Columns?;
    }
  }

  /** The columns from `x` on come in order of `x`, each column at least 100
      after the one before: plants of different columns are at least 100
      apart. */
  lemma {:induction false} RunOrdered(plants: seq<(string, Plant)>, list: seq<string>, length: real, width: real,
                                      x: real, index: int)
    requires InRange(plants)
    ensures RunFrom(plants, list, length, width, x, index).Columns? ==>
      Ordered(RunFrom(plants, list, length, width, x, index).plants)
    decreases Room(length - END_MARGIN, x)
  {
    if x <= length - END_MARGIN && PlantAt(plants, list, index).Some?
       && PlantAt(plants, list, NextIndex(list, index)).Some? {
      var p := PlantAt(plants, list, index).value;
      var q := PlantAt(plants, list, NextIndex(list, index)).value;
      var x' := x + (p.spread / 2.0 + q.spread / 2.0);
      RoomShrinks(length - END_MARGIN, x, p.spread / 2.0 + q.spread / 2.0);
      RunStep(plants, list, length, width, x, index, p, q);
      RunOrdered(plants, list, length, width, x', NextIndex(list, index));
      RunWithin(plants, list, length, width, x', NextIndex(list, index));
      ColumnAt(p, x, width);
      var col := Column(p, x, width);
      var rest := RunFrom(plants, list, length, width, x', NextIndex(list, index));
      if rest.Columns? {
        JoinOrdered(col, rest.plants, x, x', length - END_MARGIN);
        assert RunFrom(plants, list, length, width, x, index).plants == col + rest.plants;
      } else {
        assert !RunFrom(plants, list, length, width, x, index).Columns?;
      }
    } else if x > length - END_MARGIN {
      assert RunFrom(plants, list, length, width, x, index) == Columns([]);
    } else {
      assert !RunFrom(plants, list, length, width, x, index).Columns?;
    }
  }

  /** Every plant from `x` on is on its column's centre line or inside the
      bed by more than half its spread. */
  lemma {:induction false} RunInsideRows(plants: seq<(string, Plant)>, list: seq<string>, length: real,
                                         width: real, x: real, index: int)
    requires InRange(plants)
    ensures RunFrom(plants, list, length, width, x, index).Columns? ==>
      InsideRows(RunFrom(plants, list, length, width, x, index).plants, width)
    decreases Room(length - END_MARGIN, x)
  {
    if x <= length - END_MARGIN && PlantAt(plants, list, index).Some?
       && PlantAt(plants, list, NextIndex(list, index)).Some? {
      var p := PlantAt(plants, list, index).value;
      var q := PlantAt(plants, list, NextIndex(list, index)).value;
      var x' := x + (p.spread / 2.0 + q.spread / 2.0);
      RoomShrinks(length - END_MARGIN, x, p.spread / 2.0 + q.spread / 2.0);
      RunStep(plants, list, length, width, x, index, p, q);
      RunInsideRows(plants, list, length, width, x', NextIndex(list, index));
      ColumnRows(p, x, width);
      var rest := RunFrom(plants, list, length, width, x', NextIndex(list, index));
      if rest.Columns? {
        JoinInsideRows(Column(p, x, width), rest.plants, width);
        assert RunFrom(plants, list, length, width, x, index).plants == Column(p, x, width) + rest.plants;
      }
    } else if x > length - END_MARGIN {
      assert RunFrom(plants, list, length, width, x, index) == Columns([]);
    } else {
      assert !RunFrom(plants, list, length, width, x, index).Columns?;
    }
  }

  /** Every plant of the layout lies in `[350, length - 100]` along the bed, in
      order of `x`, on its column's centre line or inside the rows, and
      carries the `PLANTS` entry of a key of the list. */
  lemma LayoutBounds(plants: seq<(string, Plant)>, list: seq<string>, length: real, width: real)
    requires InRange(plants)
    ensures LayoutSpec(plants, list, length, width).Placed? ==>
      Within(LayoutSpec(plants, list, length, width).plants, START_X, length - END_MARGIN) &&
      Ordered(LayoutSpec(plants, list, length, width).plants) &&
      InsideRows(LayoutSpec(plants, list, length, width).plants, width) &&
      FromList(LayoutSpec(plants, list, length, width).plants, plants, list)
  {
    RunWithin(plants, list, length, width, START_X, 0);
    RunOrdered(plants, list, length, width, START_X, 0);
    RunInsideRows(plants, list, length, width, START_X, 0);
  }

  /** The first plant, if any, is the centre plant of the first species at
      `x = 350`. */
  lemma FirstColumn(plants: seq<(string, Plant)>, list: seq<string>, length: real, width: real)
    requires InRange(plants)
    requires LayoutSpec(plants, list, length, width).Placed?
    requires |LayoutSpec(plants, list, length, width).plants| > 0
    ensures PlantAt(plants, list, 0).Some?
    ensures LayoutSpec(plants, list, length, width).plants[0] ==
      PlacedPlant(PlantAt(plants, list, 0).value, START_X, width / 2.0)
  {
    var p := PlantAt(plants, list, 0).value;
    var q := PlantAt(plants, list, NextIndex(list, 0)).value;
    RunStep(plants, list, length, width, START_X, 0, p, q);
    ColumnShape(p, START_X, width);
  }

  /** A bed shorter than 450 gets no plants. */
  lemma ShortBedIsEmpty(plants: seq<(string, Plant)>, list: seq<string>, length: real, width: real)
    requires InRange(plants)
    requires length - END_MARGIN < START_X
    ensures LayoutSpec(plants, list, length, width) == Placed([])
  {
  }

  /** An empty list, or one whose first key is not in the table, gives no
      plants. */
  lemma UnknownFirstIsEmpty(plants: seq<(string, Plant)>, list: seq<string>, length: real, width: real)
    requires InRange(plants)
    requires |list| == 0 || Lookup(plants, list[0]).None?
    ensures LayoutSpec(plants, list, length, width) == Placed([])
  {
  }

  /** Once a species has been found, the early `return []` cannot fire: every
      later key is looked up (and would crash) before the loop comes back to
      it. */
  lemma {:induction false} NoLateDiscard(plants: seq<(string, Plant)>, list: seq<string>, length: real,
                                         width: real, x: real, index: int)
    requires InRange(plants)
    requires PlantAt(plants, list, index).Some?
    ensures !RunFrom(plants, list, length, width, x, index).Discarded?
    decreases Room(length - END_MARGIN, x)
  {
    if x <= length - END_MARGIN && PlantAt(plants, list, NextIndex(list, index)).Some? {
      var p := PlantAt(plants, list, index).value;
      var q := PlantAt(plants, list, NextIndex(list, index)).value;
      RoomShrinks(length - END_MARGIN, x, p.spread / 2.0 + q.spread / 2.0);
      RunStep(plants, list, length, width, x, index, p, q);
      NoLateDiscard(plants, list, length, width, x + (p.spread / 2.0 + q.spread / 2.0), NextIndex(list, index));
    }
  }

  /** So the layout is empty through `return []` exactly when the first key
      is missing from the table, and then nothing had been built. */
  lemma DiscardOnlyAtStart(plants: seq<(string, Plant)>, list: seq<string>, length: real, width: real)
    requires InRange(plants)
    ensures RunFrom(plants, list, length, width, START_X, 0).Discarded? <==>
      START_X <= length - END_MARGIN && PlantAt(plants, list, 0).None?
  {
    if PlantAt(plants, list, 0).Some? {
      NoLateDiscard(plants, list, length, width, START_X, 0);
    }
  }

  /** Every key of the list names a species. */
  predicate AllKnown(plants: seq<(string, Plant)>, list: seq<string>) {
    forall j :: 0 <= j < |list| ==> Lookup(plants, list[j]).Some?
  }

  /** A non-empty list of known species never crashes and is never discarded. */
  lemma {:induction false} KnownListRuns(plants: seq<(string, Plant)>, list: seq<string>, length: real,
                                         width: real, x: real, index: int)
    requires InRange(plants) && AllKnown(plants, list)
    requires 0 <= index < |list|
    ensures RunFrom(plants, list, length, width, x, index).Columns?
    decreases Room(length - END_MARGIN, x)
  {
    if x <= length - END_MARGIN {
      var p := PlantAt(plants, list, index).value;
      var q := PlantAt(plants, list, NextIndex(list, index)).value;
      RoomShrinks(length - END_MARGIN, x, p.spread / 2.0 + q.spread / 2.0);
      RunStep(plants, list, length, width, x, index, p, q);
      KnownListRuns(plants, list, length, width, x + (p.spread / 2.0 + q.spread / 2.0), NextIndex(list, index));
    }
  }

  /** The layout crashes exactly when the loop reaches a column whose next
      species is unknown; with a known list it never does. */
  lemma KnownListNeverCrashes(plants: seq<(string, Plant)>, list: seq<string>, length: real, width: real)
    requires InRange(plants) && AllKnown(plants, list)
    ensures LayoutSpec(plants, list, length, width).Placed?
  {
    if |list| > 0 {
      KnownListRuns(plants, list, length, width, START_X, 0);
    }
  }

  /** A known species followed by an unknown key crashes on a bed long enough
      for one column: the lookup of the next species fails. */
  lemma UnknownSecondKeyCrashes()
    ensures InRange(PLANTS)
    ensures LayoutSpec(PLANTS, ["beet", "Beet"], 3000.0, 1360.0) == Crashed
  {
    TableInRange();
    var list := ["beet", "Beet"];
    assert Lookup(PLANTS, list[0]).Some?;
    CapitalisedNameMissing(list[1]);
  }

  /** The initial configuration names the garden "Spring", which no list is
      filed under, so the default scene has no plants. */
  lemma DefaultLayoutIsEmpty(d: Draws)
    ensures IsConfig(INITIAL)
    ensures LayoutOf(INITIAL, d) == Placed([])
  {
    InitialIsConfig();
    TableInRange();
    GardenKeys("Spring", d);
    assert GardenPlants(INITIAL[Plants].s, d) == [];
  }

  /** With the lower-case name the spring list is laid out, starting with a
      beet at the bed's centre line. */
  lemma SpringLayoutStartsWithBeet()
    ensures InRange(PLANTS)
    ensures LayoutSpec(PLANTS, SPRING, 3000.0, 1360.0).Placed?
    ensures |LayoutSpec(PLANTS, SPRING, 3000.0, 1360.0).plants| > 0
    ensures LayoutSpec(PLANTS, SPRING, 3000.0, 1360.0).plants[0] ==
      PlacedPlant(Plant("Beet", "beet", 175.0, 150.0), 350.0, 680.0)
  {
    TableInRange();
    SeasonLists();
    forall j | 0 <= j < |SPRING| ensures Lookup(PLANTS, SPRING[j]).Some? {
      PlantTable(SPRING[j]);
    }
    KnownListNeverCrashes(PLANTS, SPRING, 3000.0, 1360.0);
    var p := Plant("Beet", "beet", 175.0, 150.0);
    assert PlantAt(PLANTS, SPRING, 0) == Some(p);
    var q := PlantAt(PLANTS, SPRING, 1).value;
    RunStep(PLANTS, SPRING, 3000.0, 1360.0, START_X, 0, p, q);
    ColumnShape(p, START_X, 1360.0);
    var nextX := START_X + (p.spread / 2.0 + q.spread / 2.0);
    KnownListRuns(PLANTS, SPRING, 3000.0, 1360.0, nextX, 1);
    var rest := RunFrom(PLANTS, SPRING, 3000.0, 1360.0, nextX, 1);
    assert RunFrom(PLANTS, SPRING, 3000.0, 1360.0, START_X, 0) == Columns(Column(p, START_X, 1360.0) + rest.plants);
  }
}
