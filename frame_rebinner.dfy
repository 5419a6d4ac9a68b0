/**
 * The two rebinning rules of FrameRebinner: a truncating block sum for
 * continuous frames (rebin_sum) and the "first and second contribution"
 * rule for label frames weighted by charge (rebin_track_first_second).
 *
 * A block is rebin_channel channels by rebin_time ticks.  Channels and ticks
 * left over after the last whole block are dropped.
 */
module FrameRebinner {
  import opened Frames

  // ------------------------------------------------------------------
  // Integer facts about blocks
  // ------------------------------------------------------------------

  /** Block i of size k lies inside the first (n / k) * k elements. */
  lemma BlockFits(i: int, n: int, k: int)
    requires k >= 1 && 0 <= n && 0 <= i < n / k
    ensures 0 <= i * k && i * k + k <= (n / k) * k <= n
  {
    var q := n / k;
    assert q * k + n % k == n;
    assert q - (i + 1) >= 0;
    assert (q - (i + 1)) * k >= 0;
    assert q * k - (i * k + k) == (q - (i + 1)) * k;
  }

  /** One more block of size k ends k further on. */
  lemma MulStep(i: int, k: int)
    ensures (i - 1) * k + k == i * k
  {
  }

  /** The truncated extent (n // k) * k lies within [0, n]. */
  lemma TruncatedFits(n: int, k: int)
    requires k >= 1 && 0 <= n
    ensures 0 <= (n / k) * k <= n
  {
    assert (n / k) * k + n % k == n;
  }

  // ------------------------------------------------------------------
  // Sums
  // ------------------------------------------------------------------

  /** Sum of row[lo .. hi). */
  function RowSum(row: seq<int>, lo: int, hi: int): int
    requires 0 <= lo <= hi <= |row|
    decreases hi - lo
  {
    if lo == hi then 0 else RowSum(row, lo, hi - 1) + row[hi - 1]
  }

  /** Sum of f[c, t] over the channels c in [c0, c1). */
  function ColumnSum(f: Frame, c0: int, c1: int, t: int): int
    requires WellFormed(f) && 0 <= c0 <= c1 <= f.channels && 0 <= t < f.ticks
    decreases c1 - c0
  {
    if c0 == c1 then 0 else ColumnSum(f, c0, c1 - 1, t) + f.cells[c1 - 1][t]
  }

  /** Sum of f[c, t] over the block [c0, c1) x [t0, t1), channel by channel. */
  function BlockSum(f: Frame, c0: int, c1: int, t0: int, t1: int): int
    requires WellFormed(f) && 0 <= c0 <= c1 <= f.channels && 0 <= t0 <= t1 <= f.ticks
    decreases c1 - c0
  {
    if c0 == c1 then 0 else BlockSum(f, c0, c1 - 1, t0, t1) + RowSum(f.cells[c1 - 1], t0, t1)
  }

  /** Sum of every cell of f. */
  function Total(f: Frame): int
    requires WellFormed(f)
  {
    BlockSum(f, 0, f.channels, 0, f.ticks)
  }

  // ------------------------------------------------------------------
  // rebin_sum
  // ------------------------------------------------------------------

  /**
   * First stage of rebin_sum: `data[:n_ch_new*rc, :].reshape(n_ch_new, rc,
   * n_ticks)` summed over axis 1, so row i is the sum of rows i*rc .. i*rc+rc-1.
   */
  function SumChannelGroups(f: Frame, rc: int): (g: Frame)
    requires WellFormed(f) && rc >= 1
    ensures WellFormed(g) && g.channels == f.channels / rc && g.ticks == f.ticks
  {
    var nChNew := f.channels / rc;
    Frame(nChNew, f.ticks,
      seq(nChNew, i requires 0 <= i < nChNew =>
        BlockFits(i, f.channels, rc);
        seq(f.ticks, t requires 0 <= t < f.ticks => ColumnSum(f, i * rc, i * rc + rc, t))))
  }

  /**
   * Second stage of rebin_sum: `data_ch[:, :n_ticks_new*rt].reshape(n_ch_new,
   * n_ticks_new, rt)` summed over axis 2, so column j is the sum of columns
   * j*rt .. j*rt+rt-1.
   */
  function SumTickGroups(g: Frame, rt: int): (h: Frame)
    requires WellFormed(g) && rt >= 1
    ensures WellFormed(h) && h.channels == g.channels && h.ticks == g.ticks / rt
  {
    var nTicksNew := g.ticks / rt;
    Frame(g.channels, nTicksNew,
      seq(g.channels, i requires 0 <= i < g.channels =>
        seq(nTicksNew, j requires 0 <= j < nTicksNew =>
          BlockFits(j, g.ticks, rt);
          RowSum(g.cells[i], j * rt, j * rt + rt))))
  }

  /**
   * rebin_sum(data, rebin_time, rebin_channel): the output has shape
   * (n_ch // rc, n_ticks // rt); RebinSumCell says what each cell holds.
   */
  function RebinSum(f: Frame, rt: int, rc: int): (r: Frame)
    requires WellFormed(f) && rt >= 1 && rc >= 1
    ensures WellFormed(r) && r.channels == f.channels / rc && r.ticks == f.ticks / rt
  {
    SumTickGroups(SumChannelGroups(f, rc), rt)
  }

  lemma RowSumSplit(row: seq<int>, t0: int, t1: int, t2: int)
    requires 0 <= t0 <= t1 <= t2 <= |row|
    ensures RowSum(row, t0, t2) == RowSum(row, t0, t1) + RowSum(row, t1, t2)
    decreases t2 - t1
  {
    if t1 < t2 {
      RowSumSplit(row, t0, t1, t2 - 1);
    }
  }

  lemma BlockSumSplitChannels(f: Frame, c0: int, c1: int, c2: int, t0: int, t1: int)
    requires WellFormed(f) && 0 <= c0 <= c1 <= c2 <= f.channels && 0 <= t0 <= t1 <= f.ticks
    ensures BlockSum(f, c0, c2, t0, t1) == BlockSum(f, c0, c1, t0, t1) + BlockSum(f, c1, c2, t0, t1)
    decreases c2 - c1
  {
    if c1 < c2 {
      BlockSumSplitChannels(f, c0, c1, c2 - 1, t0, t1);
    }
  }

  lemma BlockSumSplitTicks(f: Frame, c0: int, c1: int, t0: int, t1: int, t2: int)
    requires WellFormed(f) && 0 <= c0 <= c1 <= f.channels && 0 <= t0 <= t1 <= t2 <= f.ticks
    ensures BlockSum(f, c0, c1, t0, t2) == BlockSum(f, c0, c1, t0, t1) + BlockSum(f, c0, c1, t1, t2)
    decreases c1 - c0
  {
    if c0 < c1 {
      BlockSumSplitTicks(f, c0, c1 - 1, t0, t1, t2);
      RowSumSplit(f.cells[c1 - 1], t0, t1, t2);
    }
  }

  /** Adding one more tick to a block adds that tick's column sum. */
  lemma BlockSumLastTick(f: Frame, c0: int, c1: int, t0: int, t1: int)
    requires WellFormed(f) && 0 <= c0 <= c1 <= f.channels && 0 <= t0 < t1 <= f.ticks
    ensures BlockSum(f, c0, c1, t0, t1) == BlockSum(f, c0, c1, t0, t1 - 1) + ColumnSum(f, c0, c1, t1 - 1)
    decreases c1 - c0
  {
    if c0 < c1 {
      BlockSumLastTick(f, c0, c1 - 1, t0, t1);
    }
  }

  /** Summing column sums tick by tick gives the block sum (order of summation swapped). */
  lemma {:induction false} SumOfColumnSums(f: Frame, c0: int, c1: int, row: seq<int>, t0: int, t1: int)
    requires WellFormed(f) && 0 <= c0 <= c1 <= f.channels && 0 <= t0 <= t1 <= f.ticks && t1 <= |row|
    requires forall t :: t0 <= t < t1 ==> row[t] == ColumnSum(f, c0, c1, t)
    ensures RowSum(row, t0, t1) == BlockSum(f, c0, c1, t0, t1)
    decreases t1 - t0
  {
    if t0 < t1 {
      SumOfColumnSums(f, c0, c1, row, t0, t1 - 1);
      BlockSumLastTick(f, c0, c1, t0, t1);
    } else {
      BlockSumEmptyTicks(f, c0, c1, t0);
    }
  }

  lemma BlockSumEmptyTicks(f: Frame, c0: int, c1: int, t: int)
    requires WellFormed(f) && 0 <= c0 <= c1 <= f.channels && 0 <= t <= f.ticks
    ensures BlockSum(f, c0, c1, t, t) == 0
    decreases c1 - c0
  {
    if c0 < c1 {
      BlockSumEmptyTicks(f, c0, c1 - 1, t);
    }
  }

  /**
   * Cell (i, j) of rebin_sum is the sum of data[c, t] over the channels
   * [i*rc, (i+1)*rc) and the ticks [j*rt, (j+1)*rt).
   */
  lemma RebinSumCell(f: Frame, rt: int, rc: int, i: int, j: int)
    requires WellFormed(f) && rt >= 1 && rc >= 1
    requires 0 <= i < f.channels / rc && 0 <= j < f.ticks / rt
    ensures (i + 1) * rc <= f.channels && (j + 1) * rt <= f.ticks
    ensures RebinSum(f, rt, rc).cells[i][j] == BlockSum(f, i * rc, (i + 1) * rc, j * rt, (j + 1) * rt)
  {
    BlockFits(i, f.channels, rc);
    BlockFits(j, f.ticks, rt);
    var g := SumChannelGroups(f, rc);
    assert (i + 1) * rc == i * rc + rc && (j + 1) * rt == j * rt + rt;
    assert RebinSum(f, rt, rc).cells[i][j] == RowSum(g.cells[i], j * rt, j * rt + rt);
    SumOfColumnSums(f, i * rc, i * rc + rc, g.cells[i], j * rt, j * rt + rt);
  }

  /** With both factors 1, rebin_sum returns its input unchanged. */
  lemma RebinSumIdentity(f: Frame)
    requires WellFormed(f)
    ensures RebinSum(f, 1, 1) == f
  {
    var r := RebinSum(f, 1, 1);
    forall i | 0 <= i < f.channels ensures r.cells[i] == f.cells[i] {
      forall j | 0 <= j < f.ticks ensures r.cells[i][j] == f.cells[i][j] {
        RebinSumCell(f, 1, 1, i, j);
        assert i * 1 == i && (i + 1) * 1 == i + 1 && j * 1 == j && (j + 1) * 1 == j + 1;
        assert BlockSum(f, i, i + 1, j, j + 1) == BlockSum(f, i, i, j, j + 1) + RowSum(f.cells[i], j, j + 1);
        assert RowSum(f.cells[i], j, j + 1) == f.cells[i][j];
      }
    }
  }

  /** The rebinned row i, summed over its first J columns. */
  lemma {:induction false} RebinnedRowSum(f: Frame, rt: int, rc: int, i: int, J: int)
    requires WellFormed(f) && rt >= 1 && rc >= 1
    requires 0 <= i < f.channels / rc && 0 <= J <= f.ticks / rt
    ensures (i + 1) * rc <= f.channels && J * rt <= f.ticks
    ensures RowSum(RebinSum(f, rt, rc).cells[i], 0, J) == BlockSum(f, i * rc, (i + 1) * rc, 0, J * rt)
    decreases J
  {
    BlockFits(i, f.channels, rc);
    assert (i + 1) * rc == i * rc + rc;
    if J == 0 {
      BlockSumEmptyTicks(f, i * rc, (i + 1) * rc, 0);
    } else {
      RebinnedRowSum(f, rt, rc, i, J - 1);
      RebinSumCell(f, rt, rc, i, J - 1);
      assert (J - 1) * rt + rt == J * rt;
      BlockSumSplitTicks(f, i * rc, (i + 1) * rc, 0, (J - 1) * rt, J * rt);
    }
  }

  /** The first I rebinned rows summed: the sum of the first I*rc input channels (truncated ticks). */
  lemma {:induction false} RebinnedRowsSum(f: Frame, rt: int, rc: int, I: int)
    requires WellFormed(f) && rt >= 1 && rc >= 1
    requires 0 <= I <= f.channels / rc
    ensures I * rc <= f.channels && (f.ticks / rt) * rt <= f.ticks
    ensures BlockSum(RebinSum(f, rt, rc), 0, I, 0, f.ticks / rt) ==
            BlockSum(f, 0, I * rc, 0, (f.ticks / rt) * rt)
    decreases I
  {
    var tNew := f.ticks / rt;
    TruncatedFits(f.ticks, rt);
    if I > 0 {
      BlockFits(I - 1, f.channels, rc);
      MulStep(I, rc);
      RebinnedRowsSum(f, rt, rc, I - 1);
      RebinnedRowSum(f, rt, rc, I - 1, tNew);
      BlockSumSplitChannels(f, 0, (I - 1) * rc, I * rc, 0, tNew * rt);
    }
  }

  /**
   * The grand total of rebin_sum equals the total of the truncated input
   * region: the first (n_ch // rc) * rc channels and (n_ticks // rt) * rt ticks.
   */
  lemma RebinSumTotal(f: Frame, rt: int, rc: int)
    requires WellFormed(f) && rt >= 1 && rc >= 1
    ensures (f.channels / rc) * rc <= f.channels && (f.ticks / rt) * rt <= f.ticks
    ensures Total(RebinSum(f, rt, rc)) == BlockSum(f, 0, (f.channels / rc) * rc, 0, (f.ticks / rt) * rt)
  {
    RebinnedRowsSum(f, rt, rc, f.channels / rc);
  }

  lemma {:induction false} RowSumAdd(a: seq<int>, b: seq<int>, s: seq<int>, lo: int, hi: int)
    requires 0 <= lo <= hi <= |a| == |b| == |s|
    requires forall t :: lo <= t < hi ==> s[t] == a[t] + b[t]
    ensures RowSum(s, lo, hi) == RowSum(a, lo, hi) + RowSum(b, lo, hi)
    decreases hi - lo
  {
    if lo < hi {
      RowSumAdd(a, b, s, lo, hi - 1);
    }
  }

  lemma {:induction false} BlockSumAdd(a: Frame, b: Frame, c0: int, c1: int, t0: int, t1: int)
    requires WellFormed(a) && WellFormed(b) && ShapeOf(a) == ShapeOf(b)
    requires 0 <= c0 <= c1 <= a.channels && 0 <= t0 <= t1 <= a.ticks
    ensures BlockSum(Add(a, b), c0, c1, t0, t1) == BlockSum(a, c0, c1, t0, t1) + BlockSum(b, c0, c1, t0, t1)
    decreases c1 - c0
  {
    if c0 < c1 {
      BlockSumAdd(a, b, c0, c1 - 1, t0, t1);
      RowSumAdd(a.cells[c1 - 1], b.cells[c1 - 1], Add(a, b).cells[c1 - 1], t0, t1);
    }
  }

  /** rebin_sum is linear: rebinning a sum is the sum of the rebinned frames. */
  lemma RebinSumLinear(a: Frame, b: Frame, rt: int, rc: int)
    requires WellFormed(a) && WellFormed(b) && ShapeOf(a) == ShapeOf(b) && rt >= 1 && rc >= 1
    ensures RebinSum(Add(a, b), rt, rc) == Add(RebinSum(a, rt, rc), RebinSum(b, rt, rc))
  {
    var l := RebinSum(Add(a, b), rt, rc);
    var r := Add(RebinSum(a, rt, rc), RebinSum(b, rt, rc));
    forall i | 0 <= i < l.channels ensures l.cells[i] == r.cells[i] {
      forall j | 0 <= j < l.ticks ensures l.cells[i][j] == r.cells[i][j] {
        RebinSumCell(Add(a, b), rt, rc, i, j);
        RebinSumCell(a, rt, rc, i, j);
        RebinSumCell(b, rt, rc, i, j);
        BlockFits(i, a.channels, rc);
        BlockFits(j, a.ticks, rt);
        MulStep(i + 1, rc);
        MulStep(j + 1, rt);
        BlockSumAdd(a, b, i * rc, (i + 1) * rc, j * rt, (j + 1) * rt);
      }
    }
  }

  /** A 4 x 4 frame of ones rebinned by 2 x 2 is a 2 x 2 frame of fours. */
  lemma RebinSumOnesExample()
    ensures var ones := Frame(4, 4, seq(4, _ => seq(4, _ => 1)));
      RebinSum(ones, 2, 2) == Frame(2, 2, seq(2, _ => seq(2, _ => 4)))
  {
    var ones := Frame(4, 4, seq(4, _ => seq(4, _ => 1)));
    var r := RebinSum(ones, 2, 2);
    var fours := Frame(2, 2, seq(2, _ => seq(2, _ => 4)));
    forall i | 0 <= i < 2 ensures r.cells[i] == fours.cells[i] {
      forall j | 0 <= j < 2 ensures r.cells[i][j] == 4 {
        RebinSumCell(ones, 2, 2, i, j);
        assert BlockSum(ones, 2 * i, 2 * i + 2, 2 * j, 2 * j + 2) == 4;
      }
    }
  }

  // ------------------------------------------------------------------
  // rebin_track_first_second
  // ------------------------------------------------------------------

  /** A `(charge, label)` pair collected from one cell of one source. */
  datatype Contribution = Contribution(charge: int, data: int)

  /** The four same-grid inputs: labels and charges of the 1st and 2nd contributor. */
  datatype LabelSources = LabelSources(data1st: Frame, data2nd: Frame, charge1st: Frame, charge2nd: Frame)

  /** f is a well-formed frame with at least nCh channels and nTicks ticks. */
  predicate Covers(f: Frame, nCh: int, nTicks: int) {
    WellFormed(f) && nCh <= f.channels && nTicks <= f.ticks
  }

  /** All four sources cover the channels [0, nCh) and ticks [0, nTicks). */
  predicate SourcesCover(src: LabelSources, nCh: int, nTicks: int) {
    Covers(src.data1st, nCh, nTicks) && Covers(src.data2nd, nCh, nTicks) &&
    Covers(src.charge1st, nCh, nTicks) && Covers(src.charge2nd, nCh, nTicks)
  }

  /**
   * What rebin_track_first_second needs: positive factors, and every array
   * indexable on the truncated region of data_1st that the loops visit.
   */
  predicate TrackRequires(src: LabelSources, rt: int, rc: int) {
    rt >= 1 && rc >= 1 && WellFormed(src.data1st) &&
    SourcesCover(src, (src.data1st.channels / rc) * rc, (src.data1st.ticks / rt) * rt)
  }

  lemma CoversSmaller(src: LabelSources, nCh: int, nTicks: int, nCh': int, nTicks': int)
    requires SourcesCover(src, nCh, nTicks) && nCh' <= nCh && nTicks' <= nTicks
    ensures SourcesCover(src, nCh', nTicks')
  {
  }

  /** The pairs cell [ch, tick] adds: the 1st if its charge is positive, then the 2nd if its charge is. */
  function CellContributions(src: LabelSources, ch: int, tick: int): seq<Contribution>
    requires 0 <= ch && 0 <= tick && SourcesCover(src, ch + 1, tick + 1)
  {
    (if src.charge1st.cells[ch][tick] > 0
     then [Contribution(src.charge1st.cells[ch][tick], src.data1st.cells[ch][tick])] else []) +
    (if src.charge2nd.cells[ch][tick] > 0
     then [Contribution(src.charge2nd.cells[ch][tick], src.data2nd.cells[ch][tick])] else [])
  }

  /** The pairs of channel ch over the ticks [t0, t1), tick by tick. */
  function TickContributions(src: LabelSources, ch: int, t0: int, t1: int): seq<Contribution>
    requires 0 <= ch && 0 <= t0 <= t1 && SourcesCover(src, ch + 1, t1)
    decreases t1 - t0
  {
    if t0 == t1 then [] else TickContributions(src, ch, t0, t1 - 1) + CellContributions(src, ch, t1 - 1)
  }

  /** The `contributions` list of the block [c0, c1) x [t0, t1): channel-major, then tick. */
  function BlockContributions(src: LabelSources, c0: int, c1: int, t0: int, t1: int): seq<Contribution>
    requires 0 <= c0 <= c1 && 0 <= t0 <= t1 && SourcesCover(src, c1, t1)
    decreases c1 - c0
  {
    if c0 == c1 then [] else BlockContributions(src, c0, c1 - 1, t0, t1) + TickContributions(src, c1 - 1, t0, t1)
  }

  /**
   * Stable insertion of x in front of a list whose charges descend: x goes
   * before the first element whose charge is not larger than its own.
   */
  function Insert(x: Contribution, s: seq<Contribution>): (r: seq<Contribution>)
    ensures |r| == |s| + 1
  {
    if s == [] || s[0].charge <= x.charge then [x] + s
    else
      assert s == [s[0]] + s[1..];
      [s[0]] + Insert(x, s[1..])
  }

  /**
   * `contributions.sort(key=lambda x: x[0], reverse=True)`: Python's sort is
   * stable, also with reverse=True, so pairs of equal charge keep their order.
   */
  function SortByChargeDesc(s: seq<Contribution>): (r: seq<Contribution>)
    ensures |r| == |s|
  {
    if s == [] then []
    else
      assert s == [s[0]] + s[1..];
      Insert(s[0], SortByChargeDesc(s[1..]))
  }

  /** Charges never increase along s. */
  predicate ChargesDescend(s: seq<Contribution>) {
    forall i, j :: 0 <= i < j < |s| ==> s[i].charge >= s[j].charge
  }

  /**
   * The position of the earliest pair of largest charge: no pair has a larger
   * charge, and every earlier pair has a strictly smaller one.
   */
  function FirstMaxIndex(s: seq<Contribution>): (k: nat)
    requires |s| > 0
    ensures k < |s|
    ensures forall j :: 0 <= j < |s| ==> s[j].charge <= s[k].charge
    ensures forall j :: 0 <= j < k ==> s[j].charge < s[k].charge
  {
    if |s| == 1 then 0
    else
      var k' := FirstMaxIndex(s[1..]);
      if s[0].charge >= s[1..][k'].charge then 0 else k' + 1
  }

  /** s without its element at position k. */
  function RemoveAt(s: seq<Contribution>, k: int): (r: seq<Contribution>)
    requires 0 <= k < |s|
    ensures |r| == |s| - 1
  {
    s[..k] + s[k + 1..]
  }

  /** (out_1st, out_2nd) of one block from its sorted contributions; 0 where none. */
  function TopTwo(sorted: seq<Contribution>): (int, int) {
    (if |sorted| > 0 then sorted[0].data else 0,
     if |sorted| > 1 then sorted[1].data else 0)
  }

  /** The `contributions` of block (i, j): channels [i * rc, i * rc + rc), ticks [j * rt, j * rt + rt). */
  function BlockPairs(src: LabelSources, rt: int, rc: int, i: int, j: int): seq<Contribution>
    requires TrackRequires(src, rt, rc)
    requires 0 <= i < src.data1st.channels / rc && 0 <= j < src.data1st.ticks / rt
  {
    BlockInside(src, rt, rc, i, j);
    BlockContributions(src, i * rc, i * rc + rc, j * rt, j * rt + rt)
  }

  /** The labels rebin_track_first_second writes for block (i, j). */
  function BlockLabels(src: LabelSources, rt: int, rc: int, i: int, j: int): (int, int)
    requires TrackRequires(src, rt, rc)
    requires 0 <= i < src.data1st.channels / rc && 0 <= j < src.data1st.ticks / rt
  {
    TopTwo(SortByChargeDesc(BlockPairs(src, rt, rc, i, j)))
  }

  /**
   * The two output frames of rebin_track_first_second, both of shape
   * (n_ch // rc, n_ticks // rt) taken from data_1st.
   */
  function TrackFirstSecond(src: LabelSources, rt: int, rc: int): (r: (Frame, Frame))
    requires TrackRequires(src, rt, rc)
    ensures WellFormed(r.0) && r.0.channels == src.data1st.channels / rc && r.0.ticks == src.data1st.ticks / rt
    ensures WellFormed(r.1) && r.1.channels == src.data1st.channels / rc && r.1.ticks == src.data1st.ticks / rt
  {
    var nChNew := src.data1st.channels / rc;
    var nTicksNew := src.data1st.ticks / rt;
    (Frame(nChNew, nTicksNew,
       seq(nChNew, i requires 0 <= i < nChNew =>
         seq(nTicksNew, j requires 0 <= j < nTicksNew => BlockLabels(src, rt, rc, i, j).0))),
     Frame(nChNew, nTicksNew,
       seq(nChNew, i requires 0 <= i < nChNew =>
         seq(nTicksNew, j requires 0 <= j < nTicksNew => BlockLabels(src, rt, rc, i, j).1))))
  }

  /**
   * The two inner loops of rebin_track_first_second: collect the positive
   * pairs of the cells [chStart, chEnd) x [tickStart, tickEnd).
   */
  method CollectContributions(src: LabelSources, chStart: int, chEnd: int, tickStart: int, tickEnd: int)
    returns (contributions: seq<Contribution>)
    requires 0 <= chStart <= chEnd && 0 <= tickStart <= tickEnd && SourcesCover(src, chEnd, tickEnd)
    ensures contributions == BlockContributions(src, chStart, chEnd, tickStart, tickEnd)
  {
    contributions := [];
    var ch := chStart;
    while ch < chEnd
      invariant chStart <= ch <= chEnd
      invariant contributions == BlockContributions(src, chStart, ch, tickStart, tickEnd)
    {
      CoversSmaller(src, chEnd, tickEnd, ch + 1, tickEnd);
      var pairs := ChannelContributions(src, ch, tickStart, tickEnd);
      contributions := contributions + pairs;
      ch := ch + 1;
    }
  }

  /** The inner `for tick in range(tick_start, tick_end)` loop for one channel. */
  method ChannelContributions(src: LabelSources, ch: int, tickStart: int, tickEnd: int)
    returns (pairs: seq<Contribution>)
    requires 0 <= ch && 0 <= tickStart <= tickEnd && SourcesCover(src, ch + 1, tickEnd)
    ensures pairs == TickContributions(src, ch, tickStart, tickEnd)
  {
    pairs := [];
    var tick := tickStart;
    while tick < tickEnd
      invariant tickStart <= tick <= tickEnd
      invariant pairs == TickContributions(src, ch, tickStart, tick)
    {
      if src.charge1st.cells[ch][tick] > 0 {
        pairs := pairs + [Contribution(src.charge1st.cells[ch][tick], src.data1st.cells[ch][tick])];
      }
      if src.charge2nd.cells[ch][tick] > 0 {
        pairs := pairs + [Contribution(src.charge2nd.cells[ch][tick], src.data2nd.cells[ch][tick])];
      }
      tick := tick + 1;
    }
  }

  /**
   * The block bounds of rebin_track_first_second (`ch_end` and `tick_end`
   * clipped with min, which never bites) and the block's collected pairs.
   */
  method BlockOf(src: LabelSources, rebinTime: int, rebinChannel: int, iCh: int, iTick: int)
    returns (contributions: seq<Contribution>)
    requires TrackRequires(src, rebinTime, rebinChannel)
    requires 0 <= iCh < src.data1st.channels / rebinChannel && 0 <= iTick < src.data1st.ticks / rebinTime
    ensures contributions == BlockPairs(src, rebinTime, rebinChannel, iCh, iTick)
  {
    BlockInside(src, rebinTime, rebinChannel, iCh, iTick);
    var chStart := iCh * rebinChannel;
    var chEnd := Min(chStart + rebinChannel, src.data1st.channels);
    var tickStart := iTick * rebinTime;
    var tickEnd := Min(tickStart + rebinTime, src.data1st.ticks);
    assert chEnd == chStart + rebinChannel && tickEnd == tickStart + rebinTime;
    contributions := CollectContributions(src, chStart, chEnd, tickStart, tickEnd);
  }

  /** Block (i, j) lies inside the region every source covers. */
  lemma BlockInside(src: LabelSources, rt: int, rc: int, i: int, j: int)
    requires TrackRequires(src, rt, rc)
    requires 0 <= i < src.data1st.channels / rc && 0 <= j < src.data1st.ticks / rt
    ensures 0 <= i * rc && i * rc + rc <= src.data1st.channels
    ensures 0 <= j * rt && j * rt + rt <= src.data1st.ticks
    ensures SourcesCover(src, i * rc + rc, j * rt + rt)
  {
    var nCh, nTicks := src.data1st.channels, src.data1st.ticks;
    BlockFits(i, nCh, rc);
    BlockFits(j, nTicks, rt);
    CoversSmaller(src, (nCh / rc) * rc, (nTicks / rt) * rt, i * rc + rc, j * rt + rt);
  }

  /**
   * The loop over i_tick of rebin_track_first_second for the output row
   * iCh: starting from that row of zeros, the cell of every block with a
   * positive pair is overwritten with the block's labels.
   */
  method RebinRow(src: LabelSources, rebinTime: int, rebinChannel: int, iCh: int)
    returns (row1st: seq<int>, row2nd: seq<int>)
    requires TrackRequires(src, rebinTime, rebinChannel)
    requires 0 <= iCh < src.data1st.channels / rebinChannel
    ensures |row1st| == |row2nd| == src.data1st.ticks / rebinTime
    ensures forall c :: 0 <= c < |row1st| ==>
              row1st[c] == BlockLabels(src, rebinTime, rebinChannel, iCh, c).0 &&
              row2nd[c] == BlockLabels(src, rebinTime, rebinChannel, iCh, c).1
  {
    var nTicksNew := src.data1st.ticks / rebinTime;
    row1st := seq(nTicksNew, _ => 0);
    row2nd := seq(nTicksNew, _ => 0);
    var iTick := 0;
    while iTick < nTicksNew
      invariant 0 <= iTick <= nTicksNew
      invariant |row1st| == |row2nd| == nTicksNew
      invariant forall c :: 0 <= c < iTick ==>
                  row1st[c] == BlockLabels(src, rebinTime, rebinChannel, iCh, c).0 &&
                  row2nd[c] == BlockLabels(src, rebinTime, rebinChannel, iCh, c).1
      invariant forall c :: iTick <= c < nTicksNew ==> row1st[c] == 0 && row2nd[c] == 0
    {
      var contributions := BlockOf(src, rebinTime, rebinChannel, iCh, iTick);
      ghost var labels := BlockLabels(src, rebinTime, rebinChannel, iCh, iTick);
      if |contributions| > 0 {
        var sorted := SortByChargeDesc(contributions);
        row1st := row1st[iTick := sorted[0].data];
        if |sorted| > 1 {
          row2nd := row2nd[iTick := sorted[1].data];
        }
      }
      assert row1st[iTick] == labels.0 && row2nd[iTick] == labels.1;
      iTick := iTick + 1;
    }
  }

  /**
   * rebin_track_first_second(data_1st, data_2nd, charge_1st, charge_2nd,
   * rebin_time, rebin_channel): both outputs start as zeros and a block's
   * cell is written only when the block has a positive pair.
   */
  method RebinTrackFirstSecond(data1st: Frame, data2nd: Frame, charge1st: Frame, charge2nd: Frame,
                               rebinTime: int, rebinChannel: int)
    returns (out1st: Frame, out2nd: Frame)
    requires TrackRequires(LabelSources(data1st, data2nd, charge1st, charge2nd), rebinTime, rebinChannel)
    ensures (out1st, out2nd) ==
            TrackFirstSecond(LabelSources(data1st, data2nd, charge1st, charge2nd), rebinTime, rebinChannel)
  {
    var src := LabelSources(data1st, data2nd, charge1st, charge2nd);
    var nChNew := data1st.channels / rebinChannel;
    var nTicksNew := data1st.ticks / rebinTime;
    var cells1st := Zeros(nChNew, nTicksNew).cells;
    var cells2nd := Zeros(nChNew, nTicksNew).cells;
    var iCh := 0;
    while iCh < nChNew
      invariant 0 <= iCh <= nChNew
      invariant |cells1st| == nChNew && |cells2nd| == nChNew
      invariant forall r :: 0 <= r < nChNew ==> |cells1st[r]| == nTicksNew && |cells2nd[r]| == nTicksNew
      invariant forall r, c :: 0 <= r < iCh && 0 <= c < nTicksNew ==>
                  cells1st[r][c] == BlockLabels(src, rebinTime, rebinChannel, r, c).0 &&
                  cells2nd[r][c] == BlockLabels(src, rebinTime, rebinChannel, r, c).1
    {
      var row1st, row2nd := RebinRow(src, rebinTime, rebinChannel, iCh);
      cells1st := cells1st[iCh := row1st];
      cells2nd := cells2nd[iCh := row2nd];
      iCh := iCh + 1;
    }
    out1st := Frame(nChNew, nTicksNew, cells1st);
    out2nd := Frame(nChNew, nTicksNew, cells2nd);
    ghost var spec := TrackFirstSecond(src, rebinTime, rebinChannel);
    forall r | 0 <= r < nChNew ensures cells1st[r] == spec.0.cells[r] && cells2nd[r] == spec.1.cells[r] {
      assert forall c :: 0 <= c < nTicksNew ==> spec.0.cells[r][c] == BlockLabels(src, rebinTime, rebinChannel, r, c).0;
      assert forall c :: 0 <= c < nTicksNew ==> spec.1.cells[r][c] == BlockLabels(src, rebinTime, rebinChannel, r, c).1;
    }
    assert cells1st == spec.0.cells && cells2nd == spec.1.cells;
  }

  // ----- the sort: a stable permutation putting charges in descending order -----

  lemma {:induction false} InsertPermutes(x: Contribution, s: seq<Contribution>)
    ensures multiset(Insert(x, s)) == multiset(s) + multiset{x}
    decreases |s|
  {
    if s == [] || s[0].charge <= x.charge {
    } else {
      assert s == [s[0]] + s[1..];
      InsertPermutes(x, s[1..]);
    }
  }

  /** The sort only reorders: the sorted list has the same pairs, with the same multiplicities. */
  lemma {:induction false} SortPermutes(s: seq<Contribution>)
    ensures multiset(SortByChargeDesc(s)) == multiset(s)
    decreases |s|
  {
    if s != [] {
      assert s == [s[0]] + s[1..];
      SortPermutes(s[1..]);
      InsertPermutes(s[0], SortByChargeDesc(s[1..]));
    }
  }

  /** Inserting a pair no larger than a bound into a list bounded by it keeps the bound. */
  lemma {:induction false} InsertBelow(x: Contribution, s: seq<Contribution>, b: int)
    requires x.charge <= b && forall k :: 0 <= k < |s| ==> s[k].charge <= b
    ensures forall k :: 0 <= k < |Insert(x, s)| ==> Insert(x, s)[k].charge <= b
    decreases |s|
  {
    if s != [] && s[0].charge > x.charge {
      InsertBelow(x, s[1..], b);
      assert Insert(x, s) == [s[0]] + Insert(x, s[1..]);
    }
  }

  lemma {:induction false} InsertDescends(x: Contribution, s: seq<Contribution>)
    requires ChargesDescend(s)
    ensures ChargesDescend(Insert(x, s))
    ensures Insert(x, s)[0] == (if s == [] || s[0].charge <= x.charge then x else s[0])
    decreases |s|
  {
    if s != [] && s[0].charge > x.charge {
      var t := s[1..];
      assert ChargesDescend(t);
      InsertDescends(x, t);
      InsertBelow(x, t, s[0].charge);
      assert Insert(x, s) == [s[0]] + Insert(x, t);
    }
  }

  /** The sorted list's charges descend. */
  lemma {:induction false} SortDescends(s: seq<Contribution>)
    ensures ChargesDescend(SortByChargeDesc(s))
    decreases |s|
  {
    if s != [] {
      SortDescends(s[1..]);
      InsertDescends(s[0], SortByChargeDesc(s[1..]));
    }
  }

  /**
   * Stability: the sorted list starts with the earliest pair of largest
   * charge, followed by the sorted rest.
   */
  lemma {:induction false} SortPicksFirstMax(s: seq<Contribution>)
    requires |s| > 0
    ensures SortByChargeDesc(s) == [s[FirstMaxIndex(s)]] + SortByChargeDesc(RemoveAt(s, FirstMaxIndex(s)))
    decreases |s|
  {
    var k := FirstMaxIndex(s);
    if |s| == 1 {
      assert RemoveAt(s, 0) == [];
    } else {
      var t := s[1..];
      var k' := FirstMaxIndex(t);
      SortPicksFirstMax(t);
      var rest := SortByChargeDesc(RemoveAt(t, k'));
      assert SortByChargeDesc(t) == [t[k']] + rest;
      if s[0].charge >= t[k'].charge {
        assert k == 0;
        assert RemoveAt(s, 0) == t;
      } else {
        assert k == k' + 1;
        assert RemoveAt(s, k) == [s[0]] + RemoveAt(t, k');
        assert RemoveAt(s, k)[1..] == RemoveAt(t, k');
        assert ([t[k']] + rest)[1..] == rest;
      }
    }
  }

  /**
   * The two labels of a list of pairs, described without the sort: the
   * first is the label of the earliest pair of largest charge, the second
   * the label of the earliest pair of largest charge among the others; 0
   * where there is no such pair.
   */
  lemma TopTwoOfSorted(s: seq<Contribution>)
    ensures |s| == 0 ==> TopTwo(SortByChargeDesc(s)) == (0, 0)
    ensures |s| > 0 ==> TopTwo(SortByChargeDesc(s)).0 == s[FirstMaxIndex(s)].data
    ensures |s| == 1 ==> TopTwo(SortByChargeDesc(s)).1 == 0
    ensures |s| > 1 ==>
              var rest := RemoveAt(s, FirstMaxIndex(s));
              TopTwo(SortByChargeDesc(s)).1 == rest[FirstMaxIndex(rest)].data
  {
    if |s| > 0 {
      var k := FirstMaxIndex(s);
      SortPicksFirstMax(s);
      if |s| > 1 {
        SortPicksFirstMax(RemoveAt(s, k));
      }
    }
  }

  // ----- the contributions of a block -----

  /** The pair (charge, label) of source layer 1st or 2nd at [ch, tick] is collected. */
  predicate Contributes(src: LabelSources, ch: int, tick: int, x: Contribution)
    requires 0 <= ch && 0 <= tick && SourcesCover(src, ch + 1, tick + 1)
  {
    (src.charge1st.cells[ch][tick] > 0 && x == Contribution(src.charge1st.cells[ch][tick], src.data1st.cells[ch][tick])) ||
    (src.charge2nd.cells[ch][tick] > 0 && x == Contribution(src.charge2nd.cells[ch][tick], src.data2nd.cells[ch][tick]))
  }

  /** Every cell of the block [c0, c1) x [t0, t1) has no positive charge in either layer. */
  predicate NoCharge(src: LabelSources, c0: int, c1: int, t0: int, t1: int)
    requires 0 <= c0 <= c1 && 0 <= t0 <= t1 && SourcesCover(src, c1, t1)
  {
    forall ch, tick :: c0 <= ch < c1 && t0 <= tick < t1 ==>
      src.charge1st.cells[ch][tick] <= 0 && src.charge2nd.cells[ch][tick] <= 0
  }

  lemma CellContributionsMembers(src: LabelSources, ch: int, tick: int, x: Contribution)
    requires 0 <= ch && 0 <= tick && SourcesCover(src, ch + 1, tick + 1)
    ensures x in CellContributions(src, ch, tick) <==> Contributes(src, ch, tick, x)
  {
  }

  /** Each pair collected from one channel comes from one of its cells; the cell's tick is returned. */
  lemma {:induction false} TickOrigin(src: LabelSources, ch: int, t0: int, t1: int, k: int) returns (tick: int)
    requires 0 <= ch && 0 <= t0 <= t1 && SourcesCover(src, ch + 1, t1)
    requires 0 <= k < |TickContributions(src, ch, t0, t1)|
    ensures t0 <= tick < t1 && Contributes(src, ch, tick, TickContributions(src, ch, t0, t1)[k])
    decreases t1 - t0
  {
    assert t0 < t1;
    CoversSmaller(src, ch + 1, t1, ch + 1, t1 - 1);
    var before := TickContributions(src, ch, t0, t1 - 1);
    if k < |before| {
      tick := TickOrigin(src, ch, t0, t1 - 1, k);
    } else {
      tick := t1 - 1;
      var cell := CellContributions(src, ch, tick);
      assert cell[k - |before|] in cell;
      CellContributionsMembers(src, ch, tick, cell[k - |before|]);
    }
  }

  /** A pair a cell of the channel contributes is collected; its position is returned. */
  lemma {:induction false} TickHas(src: LabelSources, ch: int, t0: int, t1: int, tick: int, x: Contribution) returns (k: int)
    requires 0 <= ch && 0 <= t0 <= tick < t1 && SourcesCover(src, ch + 1, t1) && Contributes(src, ch, tick, x)
    ensures 0 <= k < |TickContributions(src, ch, t0, t1)| && TickContributions(src, ch, t0, t1)[k] == x
    decreases t1 - t0
  {
    CoversSmaller(src, ch + 1, t1, ch + 1, t1 - 1);
    var before := TickContributions(src, ch, t0, t1 - 1);
    if tick < t1 - 1 {
      k := TickHas(src, ch, t0, t1 - 1, tick, x);
    } else {
      var cell := CellContributions(src, ch, tick);
      CellContributionsMembers(src, ch, tick, x);
      var j :| 0 <= j < |cell| && cell[j] == x;
      k := |before| + j;
    }
  }

  lemma TickContributionsMembers(src: LabelSources, ch: int, t0: int, t1: int, x: Contribution)
    requires 0 <= ch && 0 <= t0 <= t1 && SourcesCover(src, ch + 1, t1)
    ensures x in TickContributions(src, ch, t0, t1) <==> exists tick :: t0 <= tick < t1 && Contributes(src, ch, tick, x)
  {
    var s := TickContributions(src, ch, t0, t1);
    if x in s {
      var k :| 0 <= k < |s| && s[k] == x;
      var tick := TickOrigin(src, ch, t0, t1, k);
    }
    if exists tick :: t0 <= tick < t1 && Contributes(src, ch, tick, x) {
      var tick :| t0 <= tick < t1 && Contributes(src, ch, tick, x);
      var k := TickHas(src, ch, t0, t1, tick, x);
    }
  }

  /** Each pair collected from the block comes from one of its cells; the cell is returned. */
  lemma {:induction false} BlockOrigin(src: LabelSources, c0: int, c1: int, t0: int, t1: int, k: int)
    returns (ch: int, tick: int)
    requires 0 <= c0 <= c1 && 0 <= t0 <= t1 && SourcesCover(src, c1, t1)
    requires 0 <= k < |BlockContributions(src, c0, c1, t0, t1)|
    ensures c0 <= ch < c1 && t0 <= tick < t1 && Contributes(src, ch, tick, BlockContributions(src, c0, c1, t0, t1)[k])
    decreases c1 - c0
  {
    assert c0 < c1;
    CoversSmaller(src, c1, t1, c1 - 1, t1);
    var before := BlockContributions(src, c0, c1 - 1, t0, t1);
    if k < |before| {
      ch, tick := BlockOrigin(src, c0, c1 - 1, t0, t1, k);
    } else {
      ch := c1 - 1;
      tick := TickOrigin(src, c1 - 1, t0, t1, k - |before|);
    }
  }

  /** A pair a cell of the block contributes is collected; its position is returned. */
  lemma {:induction false} BlockHas(src: LabelSources, c0: int, c1: int, t0: int, t1: int, ch: int, tick: int,
                                    x: Contribution) returns (k: int)
    requires 0 <= c0 <= ch < c1 && 0 <= t0 <= tick < t1 && SourcesCover(src, c1, t1) && Contributes(src, ch, tick, x)
    ensures 0 <= k < |BlockContributions(src, c0, c1, t0, t1)| && BlockContributions(src, c0, c1, t0, t1)[k] == x
    decreases c1 - c0
  {
    CoversSmaller(src, c1, t1, c1 - 1, t1);
    var before := BlockContributions(src, c0, c1 - 1, t0, t1);
    if ch < c1 - 1 {
      k := BlockHas(src, c0, c1 - 1, t0, t1, ch, tick, x);
    } else {
      var j := TickHas(src, c1 - 1, t0, t1, tick, x);
      k := |before| + j;
    }
  }

  /**
   * What the block collects: a pair is in the list exactly when some cell
   * of the block has it as its 1st or its 2nd pair with a positive charge.
   */
  lemma BlockContributionsMembers(src: LabelSources, c0: int, c1: int, t0: int, t1: int, x: Contribution)
    requires 0 <= c0 <= c1 && 0 <= t0 <= t1 && SourcesCover(src, c1, t1)
    ensures x in BlockContributions(src, c0, c1, t0, t1) <==>
            exists ch, tick :: c0 <= ch < c1 && t0 <= tick < t1 && Contributes(src, ch, tick, x)
  {
    var s := BlockContributions(src, c0, c1, t0, t1);
    if x in s {
      var k :| 0 <= k < |s| && s[k] == x;
      var ch, tick := BlockOrigin(src, c0, c1, t0, t1, k);
    }
    if exists ch, tick :: c0 <= ch < c1 && t0 <= tick < t1 && Contributes(src, ch, tick, x) {
      var ch, tick :| c0 <= ch < c1 && t0 <= tick < t1 && Contributes(src, ch, tick, x);
      var k := BlockHas(src, c0, c1, t0, t1, ch, tick, x);
    }
  }

  /** Only pairs of positive charge are collected. */
  lemma {:induction false} BlockChargesPositive(src: LabelSources, c0: int, c1: int, t0: int, t1: int)
    requires 0 <= c0 <= c1 && 0 <= t0 <= t1 && SourcesCover(src, c1, t1)
    ensures forall k :: 0 <= k < |BlockContributions(src, c0, c1, t0, t1)| ==>
              BlockContributions(src, c0, c1, t0, t1)[k].charge > 0
  {
    var s := BlockContributions(src, c0, c1, t0, t1);
    forall k | 0 <= k < |s| ensures s[k].charge > 0 {
      BlockContributionsMembers(src, c0, c1, t0, t1, s[k]);
      assert s[k] in s;
    }
  }

  /** The block collects nothing exactly when none of its cells has a positive charge. */
  lemma BlockEmptyIffNoCharge(src: LabelSources, c0: int, c1: int, t0: int, t1: int)
    requires 0 <= c0 <= c1 && 0 <= t0 <= t1 && SourcesCover(src, c1, t1)
    ensures BlockContributions(src, c0, c1, t0, t1) == [] <==> NoCharge(src, c0, c1, t0, t1)
  {
    var s := BlockContributions(src, c0, c1, t0, t1);
    if s != [] {
      BlockContributionsMembers(src, c0, c1, t0, t1, s[0]);
      assert s[0] in s;
    } else if !NoCharge(src, c0, c1, t0, t1) {
      var ch, tick :| c0 <= ch < c1 && t0 <= tick < t1 &&
        (src.charge1st.cells[ch][tick] > 0 || src.charge2nd.cells[ch][tick] > 0);
      var x := if src.charge1st.cells[ch][tick] > 0
        then Contribution(src.charge1st.cells[ch][tick], src.data1st.cells[ch][tick])
        else Contribution(src.charge2nd.cells[ch][tick], src.data2nd.cells[ch][tick]);
      assert Contributes(src, ch, tick, x);
      BlockContributionsMembers(src, c0, c1, t0, t1, x);
    }
  }

  // ----- the output cells of rebin_track_first_second -----

  /**
   * Cell (i, j) of the two outputs: 0 and 0 when no sample of the block has
   * a positive charge; otherwise out_1st holds the label of the earliest
   * pair of largest charge (channel-major, then tick, 1st before 2nd), and
   * out_2nd the label of the earliest pair of largest charge among the
   * others, or 0 when the block has a single positive pair.
   */
  lemma TrackCell(src: LabelSources, rt: int, rc: int, i: int, j: int)
    requires TrackRequires(src, rt, rc)
    requires 0 <= i < src.data1st.channels / rc && 0 <= j < src.data1st.ticks / rt
    ensures SourcesCover(src, i * rc + rc, j * rt + rt)
    ensures var out := TrackFirstSecond(src, rt, rc);
            var s := BlockContributions(src, i * rc, i * rc + rc, j * rt, j * rt + rt);
            && (NoCharge(src, i * rc, i * rc + rc, j * rt, j * rt + rt) <==> s == [])
            && (s == [] ==> out.0.cells[i][j] == 0 && out.1.cells[i][j] == 0)
            && (s != [] ==> out.0.cells[i][j] == s[FirstMaxIndex(s)].data)
            && (|s| == 1 ==> out.1.cells[i][j] == 0)
            && (|s| > 1 ==> out.1.cells[i][j] == RemoveAt(s, FirstMaxIndex(s))[FirstMaxIndex(RemoveAt(s, FirstMaxIndex(s)))].data)
  {
    BlockInside(src, rt, rc, i, j);
    var s := BlockContributions(src, i * rc, i * rc + rc, j * rt, j * rt + rt);
    assert BlockPairs(src, rt, rc, i, j) == s;
    BlockEmptyIffNoCharge(src, i * rc, i * rc + rc, j * rt, j * rt + rt);
    TopTwoOfSorted(s);
  }

  /** When the truncated grid is one block, the two outputs are 1 x 1 frames holding that block's labels. */
  lemma SingleBlock(src: LabelSources, rt: int, rc: int)
    requires TrackRequires(src, rt, rc)
    requires src.data1st.channels / rc == 1 && src.data1st.ticks / rt == 1
    ensures var (l1, l2) := BlockLabels(src, rt, rc, 0, 0);
            TrackFirstSecond(src, rt, rc) == (Frame(1, 1, [[l1]]), Frame(1, 1, [[l2]]))
  {
    var out := TrackFirstSecond(src, rt, rc);
    var (l1, l2) := BlockLabels(src, rt, rc, 0, 0);
    assert out.0.cells[0] == [l1] && out.1.cells[0] == [l2];
    assert out.0.cells == [[l1]] && out.1.cells == [[l2]];
  }

  /**
   * One 2 x 2 block: charge_1st = [[5, 0], [0, 3]], data_1st = [[7, 0], [0, 9]],
   * no 2nd layer charge.  Charge 5 wins out_1st; the pair of charge 3 is the
   * second positive contributor, so out_2nd is 9.
   */
  lemma TrackExample()
    ensures var z := Frame(2, 2, [[0, 0], [0, 0]]);
            var src := LabelSources(Frame(2, 2, [[7, 0], [0, 9]]), z, Frame(2, 2, [[5, 0], [0, 3]]), z);
            TrackRequires(src, 2, 2) &&
            TrackFirstSecond(src, 2, 2) == (Frame(1, 1, [[7]]), Frame(1, 1, [[9]]))
  {
    var z := Frame(2, 2, [[0, 0], [0, 0]]);
    var src := LabelSources(Frame(2, 2, [[7, 0], [0, 9]]), z, Frame(2, 2, [[5, 0], [0, 3]]), z);
    assert BlockContributions(src, 0, 2, 0, 2) == [Contribution(5, 7), Contribution(3, 9)] by {
      assert TickContributions(src, 0, 0, 2) == [Contribution(5, 7)];
      assert TickContributions(src, 1, 0, 2) == [Contribution(3, 9)];
    }
    assert BlockLabels(src, 2, 2, 0, 0) == (7, 9) by {
      assert BlockPairs(src, 2, 2, 0, 0) == [Contribution(5, 7), Contribution(3, 9)];
    }
    SingleBlock(src, 2, 2);
  }

  /**
   * Ties keep the collection order: with equal charges in both layers of a
   * single sample, the 1st layer's label comes first.
   */
  lemma TrackTieExample()
    ensures var src := LabelSources(Frame(1, 1, [[4]]), Frame(1, 1, [[8]]), Frame(1, 1, [[2]]), Frame(1, 1, [[2]]));
            TrackRequires(src, 1, 1) &&
            TrackFirstSecond(src, 1, 1) == (Frame(1, 1, [[4]]), Frame(1, 1, [[8]]))
  {
    var src := LabelSources(Frame(1, 1, [[4]]), Frame(1, 1, [[8]]), Frame(1, 1, [[2]]), Frame(1, 1, [[2]]));
    assert BlockContributions(src, 0, 1, 0, 1) == [Contribution(2, 4), Contribution(2, 8)] by {
      assert TickContributions(src, 0, 0, 1) == [Contribution(2, 4), Contribution(2, 8)];
    }
    assert BlockLabels(src, 1, 1, 0, 0) == (4, 8) by {
      assert BlockPairs(src, 1, 1, 0, 0) == [Contribution(2, 4), Contribution(2, 8)];
    }
    SingleBlock(src, 1, 1);
  }
}
