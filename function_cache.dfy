/** The sample cache of gui/cache.js: one row of sampled values per plotted
    function, `undefined` (`None`) where a sample is missing. Panning shifts
    every row (gui/graph.js:185). Zooming calls `clearCache()` with no index
    (gui/graph.js:210), which changes no row, so the samples cached before
    the zoom are read again after it. `scaleCache`, and `clearCache` with an
    index, are helpers that nothing calls. */
module FunctionCaches {
  import opened Outcomes
  import opened ArrayShift

  type Row = seq<Option<real>>

  /** Every row shifted by `amount`. */
  function ShiftedRows(rows: seq<Row>, amount: int): (r: seq<Row>)
    ensures |r| == |rows|
  {
    seq(|rows|, i requires 0 <= i < |rows| => Shifted(rows[i], amount))
  }

  /** A sample multiplied by `factor`; a missing one stays missing. */
  function ScaledSample(v: Option<real>, factor: real): Option<real> {
    if v.Some? then Some(v.value * factor) else None
  }

  /** A row with every defined sample multiplied by `factor`. */
  function ScaledRow(row: Row, factor: real): (r: Row)
    ensures |r| == |row|
  {
    seq(|row|, j requires 0 <= j < |row| => ScaledSample(row[j], factor))
  }

  /** Every row scaled by `factor`. */
  function ScaledRows(rows: seq<Row>, factor: real): (r: seq<Row>)
    ensures |r| == |rows|
  {
    seq(|rows|, i requires 0 <= i < |rows| => ScaledRow(rows[i], factor))
  }

  /** The rows after `clearCache(index)`: row `index` emptied, or, with no
      index, the assignment lands on a property named "undefined" that no
      loop over the rows visits. */
  function ClearedRows(rows: seq<Row>, index: Option<nat>): (r: seq<Row>)
    requires index.Some? ==> index.value < |rows|
    ensures |r| == |rows|
    ensures forall i :: 0 <= i < |rows| ==> r[i] == if index == Some(i) then [] else rows[i]
  {
    if index.Some? then rows[index.value := []] else rows
  }

  /** Every row emptied: the clearing a zoom needs. */
  function ClearedAll(rows: seq<Row>): (r: seq<Row>)
    ensures |r| == |rows|
  {
    seq(|rows|, i requires 0 <= i < |rows| => [])
  }

  /** What the plotting loop reads at slot `i` of row `index`: the cached
      sample, or `undefined` past the end of the row, which makes it compute
      the sample afresh. */
  function CachedSample(rows: seq<Row>, index: nat, i: nat): Option<real>
    requires index < |rows|
  {
    if i < |rows[index]| then rows[index][i] else None
  }

  /** The module-level `functionCache` array of rows. */
  class FunctionCache {
    var rows: seq<Row>

    constructor()
      ensures rows == []
    {
      rows := [];
    }

    /** `shiftCache(shiftAmount)`: each row in turn is replaced by its shifted copy. */
    method ShiftCache(shiftAmount: int)
      modifies this
      ensures rows == ShiftedRows(old(rows), shiftAmount)
    {
      for i := 0 to |rows|
        invariant |rows| == |old(rows)|
        invariant forall k :: 0 <= k < i ==> rows[k] == Shifted(old(rows)[k], shiftAmount)
        invariant forall k :: i <= k < |rows| ==> rows[k] == old(rows)[k]
      {
        var shifted := ShiftAndDelete(rows[i], shiftAmount);
        rows := rows[i := shifted[..]];
      }
    }

    /** `scaleCache(scaleFactor)`: every defined sample, row by row and slot
        by slot, is multiplied in place. */
    method ScaleCache(scaleFactor: real)
      modifies this
      ensures rows == ScaledRows(old(rows), scaleFactor)
    {
      for i := 0 to |rows|
        invariant |rows| == |old(rows)|
        invariant forall k :: 0 <= k < i ==> rows[k] == ScaledRow(old(rows)[k], scaleFactor)
        invariant forall k :: i <= k < |rows| ==> rows[k] == old(rows)[k]
      {
        var row := ScaleRow(rows[i], scaleFactor);
        rows := rows[i := row];
      }
    }

    /** `clearCache(index)`: row `index` becomes empty. Called without an
        index (`None`), the assignment lands on a property named "undefined"
        that no loop over the rows visits, so the rows are unchanged. */
    method ClearCache(index: Option<nat>)
      requires index.Some? ==> index.value < |rows|
      modifies this
      ensures rows == ClearedRows(old(rows), index)
      ensures index.None? ==> rows == old(rows)
    {
      if index.Some? {
        rows := rows[index.value := []];
      }
    }

    /** The clearing a zoom needs: every row emptied, one by one. */
    method ClearAll()
      modifies this
      ensures rows == ClearedAll(old(rows))
    {
      for i := 0 to |rows|
        invariant |rows| == |old(rows)|
        invariant forall k :: 0 <= k < i ==> rows[k] == []
        invariant forall k :: i <= k < |rows| ==> rows[k] == old(rows)[k]
      {
        rows := rows[i := []];
      }
    }
  }

  /** The inner loop of `scaleCache` over one row: each defined sample, slot
      by slot, is multiplied by `factor`. */
  method ScaleRow(row: Row, factor: real) returns (r: Row)
    ensures r == ScaledRow(row, factor)
  {
    r := row;
    for j := 0 to |r|
      invariant |r| == |row|
      invariant forall m :: 0 <= m < j ==> r[m] == ScaledRow(row, factor)[m]
      invariant forall m :: j <= m < |r| ==> r[m] == row[m]
    {
      assert ScaledRow(row, factor)[j] == ScaledSample(row[j], factor);
      assert r[j] == row[j];
      if r[j] != None {
        var scaled := r[j].value * factor;
        assert scaled == row[j].value * factor;
        r := r[j := Some(scaled)];
      }
    }
  }

  /** Shifting keeps the number of rows and every row's length, and a shift
      by zero changes nothing. */
  lemma ShiftedRowsKeepShape(rows: seq<Row>, amount: int)
    ensures |ShiftedRows(rows, amount)| == |rows|
    ensures forall i :: 0 <= i < |rows| ==> |ShiftedRows(rows, amount)[i]| == |rows[i]|
    ensures ShiftedRows(rows, 0) == rows
  {
    forall i | 0 <= i < |rows|
      ensures ShiftedRows(rows, 0)[i] == rows[i]
    {
      ShiftedExtremes(rows[i], 0);
    }
  }

  /** Scaling multiplies exactly the defined samples: missing ones stay
      missing, and every length is kept. */
  lemma ScaledRowsKeepGaps(rows: seq<Row>, factor: real)
    ensures |ScaledRows(rows, factor)| == |rows|
    ensures forall i, j :: 0 <= i < |rows| && 0 <= j < |rows[i]| ==>
      |ScaledRows(rows, factor)[i]| == |rows[i]|
      && (ScaledRows(rows, factor)[i][j].None? <==> rows[i][j].None?)
      && (rows[i][j].Some? ==> ScaledRows(rows, factor)[i][j].value == rows[i][j].value * factor)
  {
  }

  /** Scaling by one changes nothing. */
  lemma ScaleByOne(rows: seq<Row>)
    ensures ScaledRows(rows, 1.0) == rows
  {
    forall i | 0 <= i < |rows|
      ensures ScaledRows(rows, 1.0)[i] == rows[i]
    {
      var r := ScaledRow(rows[i], 1.0);
      forall j | 0 <= j < |rows[i]|
        ensures r[j] == rows[i][j]
      {
      }
    }
  }

  /** As written, the zoom's `clearCache()` keeps every row, so a sample
      cached before the zoom, at the old scale, is read again after it. */
  lemma ZoomKeepsSamples(rows: seq<Row>, index: nat, i: nat)
    requires index < |rows| && i < |rows[index]| && rows[index][i].Some?
    ensures CachedSample(ClearedRows(rows, None), index, i) == rows[index][i]
    ensures CachedSample(ClearedRows(rows, None), index, i).Some?
  {
  }

  /** With every row emptied, every slot the plotting loop reads is
      `undefined`, so every sample is computed afresh at the new scale, and
      the number of rows (one per plotted function) is kept. */
  lemma ClearAllRecomputes(rows: seq<Row>, index: nat, i: nat)
    requires index < |rows|
    ensures |ClearedAll(rows)| == |rows|
    ensures CachedSample(ClearedAll(rows), index, i).None?
  {
    assert ClearedAll(rows)[index] == [];
  }
}
