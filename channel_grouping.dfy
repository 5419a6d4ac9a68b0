/**
 * Channel grouping of the eight anodes of the detector (AnodesChannelGrouping).
 *
 * The detector has four charge-readout plane pairs (CRPs) of 3072 channels
 * each.  Every CRP holds two charge-readout units (CRUs); anode n is CRU
 * n % 2 of CRP n / 2.  Inside a CRP the six wire-plane sub-ranges are
 * interleaved: U of CRU0, U of CRU1, V of CRU0, V of CRU1, W of CRU0, W of CRU1.
 *
 * Python's `//` and `%` round towards minus infinity; with the positive
 * divisors used here that is exactly Dafny's Euclidean `/` and `%`, so every
 * function below is stated for all integers, as the source accepts any int.
 */
module ChannelGrouping {

  /** Channels owned by one CRP. */
  const CrpChannels := 3072

  /** Number of anodes the processing loop visits. */
  const AnodeCount := 8

  /** Number of wire planes (U, V, W) of an anode. */
  const PlaneCount := 3

  /** `np.arange(lo, hi)`: lo, lo + 1, ..., hi - 1 (empty when hi <= lo). */
  function Range(lo: int, hi: int): (r: seq<int>)
    ensures |r| == if lo < hi then hi - lo else 0
    ensures forall i :: 0 <= i < |r| ==> r[i] == lo + i
  {
    if lo < hi then seq(hi - lo, i => lo + i) else []
  }

  /** `s + k` on a numpy integer array: k added to every element. */
  function Offset(s: seq<int>, k: int): (r: seq<int>)
    ensures |r| == |s|
    ensures forall i :: 0 <= i < |s| ==> r[i] == s[i] + k
  {
    seq(|s|, i requires 0 <= i < |s| => s[i] + k)
  }

  /** Every element is smaller than every later one. */
  predicate StrictlyIncreasing(s: seq<int>) {
    forall i, j :: 0 <= i < j < |s| ==> s[i] < s[j]
  }

  /** First channel of the CRP that holds anode n. */
  function CrpBase(n: int): int {
    CrpChannels * (n / 2)
  }

  /**
   * get_anode_channels(n): the CRU layout of anode n shifted into its CRP,
   * 476 + 476 + 584 channels (AnodeChannelsLayout and AnodeChannelsMember
   * give their order, window and exact membership).
   */
  function AnodeChannels(n: int): (r: seq<int>)
    ensures |r| == 1536
  {
    var crp := (n - n % 2) / 2;
    var cru0 := Range(0, 476) + Range(952, 1428) + Range(1904, 2488);
    var cru1 := Range(476, 952) + Range(1428, 1904) + Range(2488, 3072);
    var channels := if n % 2 == 0 then cru0 else cru1;
    Offset(channels, CrpChannels * crp)
  }

  /** get_all_anodes_channels(): anode id to its channels, for anodes 0..7. */
  function AllAnodesChannels(): (m: map<int, seq<int>>)
    ensures forall n :: n in m <==> 0 <= n < AnodeCount
    ensures forall n :: n in m ==> m[n] == AnodeChannels(n)
  {
    map n | 0 <= n < AnodeCount :: AnodeChannels(n)
  }

  /** First channel of a plane, relative to the CRP base (from get_anode_planes). */
  function PlaneStart(anodeId: int, planeId: int): int
    requires 0 <= planeId < PlaneCount
  {
    if anodeId % 2 == 0 then [0, 952, 1904][planeId] else [476, 1428, 2488][planeId]
  }

  /** One past the last channel of a plane, relative to the CRP base (from get_anode_planes). */
  function PlaneEnd(anodeId: int, planeId: int): int
    requires 0 <= planeId < PlaneCount
  {
    if anodeId % 2 == 0 then [476, 1428, 2488][planeId] else [951, 1903, 3071][planeId]
  }

  /**
   * get_anode_planes(anode_id): plane id (0 = U, 1 = V, 2 = W) to its channels.
   * The source sorts each range with np.sort; a range is already ascending
   * (AnodePlanesLayout), so the sort leaves it unchanged and is not repeated here.
   */
  function AnodePlanes(anodeId: int): (m: map<int, seq<int>>)
    ensures m.Keys == {0, 1, 2}
    ensures forall p :: 0 <= p < PlaneCount ==> |m[p]| == PlaneEnd(anodeId, p) - PlaneStart(anodeId, p)
  {
    var crp := anodeId / 2;
    var cruIdx := anodeId % 2;
    var baseOffset := CrpChannels * crp;
    var (u, v, w) :=
      if cruIdx == 0 then
        (Offset(Range(0, 476), baseOffset),
         Offset(Range(952, 1428), baseOffset),
         Offset(Range(1904, 2488), baseOffset))
      else
        (Offset(Range(476, 951), baseOffset),
         Offset(Range(1428, 1903), baseOffset),
         Offset(Range(2488, 3071), baseOffset));
    map[0 := u, 1 := v, 2 := w]
  }

  /**
   * `get_anode_planes(anode_id)[plane_id]`: the consecutive channels from
   * PlaneStart to PlaneEnd above the CRP base.
   */
  function PlaneChannels(anodeId: int, planeId: int): (r: seq<int>)
    requires 0 <= planeId < PlaneCount
    ensures |r| == PlaneEnd(anodeId, planeId) - PlaneStart(anodeId, planeId)
    ensures forall i :: 0 <= i < |r| ==> r[i] == CrpBase(anodeId) + PlaneStart(anodeId, planeId) + i
  {
    AnodePlanes(anodeId)[planeId]
  }

  // ------------------------------------------------------------------
  // Helper facts about ranges
  // ------------------------------------------------------------------

  lemma InRange(lo: int, hi: int, x: int)
    ensures x in Range(lo, hi) <==> lo <= x < hi
  {
    if lo <= x < hi {
      assert Range(lo, hi)[x - lo] == x;
    }
  }

  lemma OffsetRange(lo: int, hi: int, k: int)
    ensures Offset(Range(lo, hi), k) == Range(lo + k, hi + k)
  {
  }

  lemma OffsetConcat(a: seq<int>, b: seq<int>, c: seq<int>, k: int)
    ensures Offset(a + b + c, k) == Offset(a, k) + Offset(b, k) + Offset(c, k)
  {
  }

  /** Shifting three ranges shifts their bounds. */
  lemma OffsetRanges(a: int, b: int, c: int, d: int, e: int, f: int, k: int)
    requires a <= b && c <= d && e <= f
    ensures Offset(Range(a, b) + Range(c, d) + Range(e, f), k) == Range(a + k, b + k) + Range(c + k, d + k) + Range(e + k, f + k)
  {
    OffsetConcat(Range(a, b), Range(c, d), Range(e, f), k);
    OffsetRange(a, b, k);
    OffsetRange(c, d, k);
    OffsetRange(e, f, k);
  }

  lemma RangesIncreasing(a: int, b: int, c: int, d: int, e: int, f: int)
    requires a <= b <= c <= d <= e <= f
    ensures StrictlyIncreasing(Range(a, b) + Range(c, d) + Range(e, f))
  {
    var s := Range(a, b) + Range(c, d) + Range(e, f);
    forall i, j | 0 <= i < j < |s| ensures s[i] < s[j] {
      var x, y := Range(a, b), Range(c, d);
      assert s[i] == if i < |x| then a + i else if i < |x| + |y| then c + (i - |x|) else e + (i - |x| - |y|);
      assert s[j] == if j < |x| then a + j else if j < |x| + |y| then c + (j - |x|) else e + (j - |x| - |y|);
    }
  }

  /** The channels of anode n, written as three ranges of absolute channels. */
  lemma AnodeChannelsAsRanges(n: int)
    ensures var b := CrpBase(n);
      AnodeChannels(n) ==
        if n % 2 == 0
        then Range(b, b + 476) + Range(b + 952, b + 1428) + Range(b + 1904, b + 2488)
        else Range(b + 476, b + 952) + Range(b + 1428, b + 1904) + Range(b + 2488, b + 3072)
  {
    if n % 2 == 0 {
      EvenAnodeChannels(n);
    } else {
      OddAnodeChannels(n);
    }
  }

  lemma EvenAnodeChannels(n: int)
    requires n % 2 == 0
    ensures var b := CrpBase(n);
      AnodeChannels(n) == Range(b, b + 476) + Range(b + 952, b + 1428) + Range(b + 1904, b + 2488)
  {
    assert CrpChannels * ((n - n % 2) / 2) == CrpBase(n);
    OffsetRanges(0, 476, 952, 1428, 1904, 2488, CrpBase(n));
  }

  lemma OddAnodeChannels(n: int)
    requires n % 2 == 1
    ensures var b := CrpBase(n);
      AnodeChannels(n) == Range(b + 476, b + 952) + Range(b + 1428, b + 1904) + Range(b + 2488, b + 3072)
  {
    assert CrpChannels * ((n - n % 2) / 2) == CrpBase(n);
    OffsetRanges(476, 952, 1428, 1904, 2488, 3072, CrpBase(n));
  }

  /** Membership in the channels of anode n, as half-open intervals inside its CRP. */
  lemma AnodeChannelsMember(n: int, x: int)
    ensures var r := x - CrpBase(n);
      x in AnodeChannels(n) <==>
        if n % 2 == 0 then 0 <= r < 476 || 952 <= r < 1428 || 1904 <= r < 2488
        else 476 <= r < 952 || 1428 <= r < 1904 || 2488 <= r < 3072
  {
    AnodeChannelsAsRanges(n);
    var b := CrpBase(n);
    if n % 2 == 0 {
      InRange(b, b + 476, x);
      InRange(b + 952, b + 1428, x);
      InRange(b + 1904, b + 2488, x);
    } else {
      InRange(b + 476, b + 952, x);
      InRange(b + 1428, b + 1904, x);
      InRange(b + 2488, b + 3072, x);
    }
  }

  /** The three ranges behind get_anode_planes, in absolute channels. */
  lemma PlaneChannelsAsRange(anodeId: int, planeId: int)
    requires 0 <= planeId < PlaneCount
    ensures var b := CrpBase(anodeId);
      PlaneChannels(anodeId, planeId) == Range(b + PlaneStart(anodeId, planeId), b + PlaneEnd(anodeId, planeId))
  {
    var b := CrpBase(anodeId);
    OffsetRange(PlaneStart(anodeId, planeId), PlaneEnd(anodeId, planeId), b);
  }

  // ------------------------------------------------------------------
  // Properties of get_anode_channels
  // ------------------------------------------------------------------

  /**
   * get_anode_channels(n) holds 476 + 476 + 584 = 1536 channels in strictly
   * increasing order, all inside the 3072 channels of the CRP n / 2.
   */
  lemma AnodeChannelsLayout(n: int)
    ensures |AnodeChannels(n)| == 1536
    ensures StrictlyIncreasing(AnodeChannels(n))
    ensures forall i :: 0 <= i < |AnodeChannels(n)| ==>
              CrpBase(n) <= AnodeChannels(n)[i] < CrpBase(n) + CrpChannels
  {
    AnodeChannelsAsRanges(n);
    var b := CrpBase(n);
    if n % 2 == 0 {
      RangesIncreasing(b, b + 476, b + 952, b + 1428, b + 1904, b + 2488);
    } else {
      RangesIncreasing(b + 476, b + 952, b + 1428, b + 1904, b + 2488, b + 3072);
    }
    var s := AnodeChannels(n);
    forall i | 0 <= i < |s| ensures b <= s[i] < b + CrpChannels {
      assert s[i] in s;
      AnodeChannelsMember(n, s[i]);
    }
  }

  /**
   * The even and the odd anode of one CRP share no channel, and together they
   * own every channel of that CRP and nothing else.
   */
  lemma CrpPartition(crp: int)
    ensures forall x :: !(x in AnodeChannels(2 * crp) && x in AnodeChannels(2 * crp + 1))
    ensures forall x :: x in AnodeChannels(2 * crp) || x in AnodeChannels(2 * crp + 1) <==>
              CrpChannels * crp <= x < CrpChannels * crp + CrpChannels
  {
    assert CrpBase(2 * crp) == CrpChannels * crp;
    assert CrpBase(2 * crp + 1) == CrpChannels * crp;
    forall x
      ensures !(x in AnodeChannels(2 * crp) && x in AnodeChannels(2 * crp + 1))
      ensures x in AnodeChannels(2 * crp) || x in AnodeChannels(2 * crp + 1) <==>
                CrpChannels * crp <= x < CrpChannels * crp + CrpChannels
    {
      AnodeChannelsMember(2 * crp, x);
      AnodeChannelsMember(2 * crp + 1, x);
    }
  }

  /**
   * Distinct anodes of get_all_anodes_channels() (anodes 0..7, see its
   * contract) share no channel.
   */
  lemma AnodesDisjoint()
    ensures forall n, m, x :: 0 <= n < AnodeCount && 0 <= m < AnodeCount && n != m ==>
              !(x in AnodeChannels(n) && x in AnodeChannels(m))
  {
    forall n, m, x | 0 <= n < AnodeCount && 0 <= m < AnodeCount && n != m
      ensures !(x in AnodeChannels(n) && x in AnodeChannels(m))
    {
      if x in AnodeChannels(n) && x in AnodeChannels(m) {
        ChannelInItsCrp(n, x);
        ChannelInItsCrp(m, x);
        AnodeChannelsMember(n, x);
        AnodeChannelsMember(m, x);
      }
    }
  }

  /**
   * A channel belongs to one of the anodes 0..7 exactly when it lies in
   * 0 .. 12287.
   */
  lemma AnodesCoverDetector()
    ensures forall x :: OwnedBySomeAnode(x) <==> 0 <= x < AnodeCount / 2 * CrpChannels
  {
    forall x
      ensures OwnedBySomeAnode(x) <==> 0 <= x < AnodeCount / 2 * CrpChannels
    {
      if 0 <= x < AnodeCount / 2 * CrpChannels {
        ChannelOwned(x);
      }
      if OwnedBySomeAnode(x) {
        OwnedInDetector(x);
      }
    }
  }

  /** A channel of the detector is owned by the even or the odd anode of its CRP. */
  lemma ChannelOwned(x: int)
    requires 0 <= x < AnodeCount / 2 * CrpChannels
    ensures OwnedBySomeAnode(x)
  {
    var crp := x / CrpChannels;
    assert 0 <= crp < AnodeCount / 2;
    CrpPartition(crp);
    assert x in AnodeChannels(2 * crp) || x in AnodeChannels(2 * crp + 1);
  }

  /** A channel some anode owns lies in 0 .. 12287. */
  lemma OwnedInDetector(x: int)
    requires OwnedBySomeAnode(x)
    ensures 0 <= x < AnodeCount / 2 * CrpChannels
  {
    var n :| 0 <= n < AnodeCount && x in AnodeChannels(n);
    ChannelInItsCrp(n, x);
    assert 0 <= n / 2 < AnodeCount / 2;
  }

  /** A channel of anode n lies in the CRP n / 2. */
  lemma ChannelInItsCrp(n: int, x: int)
    requires x in AnodeChannels(n)
    ensures CrpBase(n) <= x < CrpBase(n) + CrpChannels
    ensures x / CrpChannels == n / 2
  {
    AnodeChannelsMember(n, x);
  }

  /** One of the anodes 0..7 owns channel x. */
  ghost predicate OwnedBySomeAnode(x: int) {
    exists n :: 0 <= n < AnodeCount && x in AnodeChannels(n)
  }

  // ------------------------------------------------------------------
  // Properties of get_anode_planes
  // ------------------------------------------------------------------

  /** One plane of anode a: strictly increasing, inside the CRP of a, PlaneEnd - PlaneStart channels. */
  lemma PlaneLayout(a: int, p: int)
    requires 0 <= p < PlaneCount
    ensures StrictlyIncreasing(PlaneChannels(a, p))
    ensures forall i :: 0 <= i < |PlaneChannels(a, p)| ==>
              CrpBase(a) <= PlaneChannels(a, p)[i] < CrpBase(a) + CrpChannels
    ensures |PlaneChannels(a, p)| == PlaneEnd(a, p) - PlaneStart(a, p)
  {
    PlaneChannelsAsRange(a, p);
  }

  /**
   * get_anode_planes(a) has the keys 0, 1, 2; each plane is strictly
   * increasing, lies inside the CRP of a, and the planes follow one another
   * in channel order.  The sizes are 476 / 476 / 584 for an even anode and
   * 475 / 475 / 583 for an odd one.
   */
  lemma AnodePlanesLayout(a: int)
    ensures AnodePlanes(a).Keys == {0, 1, 2}
    ensures forall p :: 0 <= p < PlaneCount ==> StrictlyIncreasing(PlaneChannels(a, p))
    ensures forall p, i :: 0 <= p < PlaneCount && 0 <= i < |PlaneChannels(a, p)| ==>
              CrpBase(a) <= PlaneChannels(a, p)[i] < CrpBase(a) + CrpChannels
    ensures |PlaneChannels(a, 0)| == |PlaneChannels(a, 1)| == if a % 2 == 0 then 476 else 475
    ensures |PlaneChannels(a, 2)| == if a % 2 == 0 then 584 else 583
    ensures PlaneChannels(a, 0)[|PlaneChannels(a, 0)| - 1] < PlaneChannels(a, 1)[0]
    ensures PlaneChannels(a, 1)[|PlaneChannels(a, 1)| - 1] < PlaneChannels(a, 2)[0]
  {
    forall p | 0 <= p < PlaneCount
      ensures StrictlyIncreasing(PlaneChannels(a, p))
      ensures forall i :: 0 <= i < |PlaneChannels(a, p)| ==>
                CrpBase(a) <= PlaneChannels(a, p)[i] < CrpBase(a) + CrpChannels
    {
      PlaneLayout(a, p);
    }
    PlaneChannelsAsRange(a, 0);
    PlaneChannelsAsRange(a, 1);
    PlaneChannelsAsRange(a, 2);
  }

  /** The three planes of anode a are pairwise disjoint. */
  lemma PlanesDisjoint(a: int)
    ensures forall p, q, x :: 0 <= p < q < PlaneCount ==>
              !(x in PlaneChannels(a, p) && x in PlaneChannels(a, q))
  {
    forall p, q, x | 0 <= p < q < PlaneCount
      ensures !(x in PlaneChannels(a, p) && x in PlaneChannels(a, q))
    {
      PlaneMember(a, p, x);
      PlaneMember(a, q, x);
    }
  }

  /** Membership in one plane of anode a, as a half-open interval inside its CRP. */
  lemma PlaneMember(a: int, p: int, x: int)
    requires 0 <= p < PlaneCount
    ensures x in PlaneChannels(a, p) <==> PlaneStart(a, p) <= x - CrpBase(a) < PlaneEnd(a, p)
  {
    PlaneChannelsAsRange(a, p);
    InRange(CrpBase(a) + PlaneStart(a, p), CrpBase(a) + PlaneEnd(a, p), x);
  }

  /**
   * Every plane channel of anode a is a channel of get_anode_channels(a).
   * For an even anode the three planes cover all of its channels; for an odd
   * anode exactly three channels (951, 1903 and 3071 above the CRP base) belong
   * to the anode but to none of its planes.
   */
  lemma PlanesWithinAnode(a: int)
    ensures forall p, x :: 0 <= p < PlaneCount && x in PlaneChannels(a, p) ==> x in AnodeChannels(a)
    ensures forall x :: InAnodeOutsidePlanes(a, x) <==>
              (a % 2 == 1 && (x - CrpBase(a) == 951 || x - CrpBase(a) == 1903 || x - CrpBase(a) == 3071))
  {
    var b := CrpBase(a);
    forall p, x | 0 <= p < PlaneCount && x in PlaneChannels(a, p)
      ensures x in AnodeChannels(a)
    {
      AnodeChannelsMember(a, x);
      PlaneMember(a, p, x);
    }
    forall x
      ensures InAnodeOutsidePlanes(a, x) <==>
              (a % 2 == 1 && (x - b == 951 || x - b == 1903 || x - b == 3071))
    {
      AnodeChannelsMember(a, x);
      PlaneMember(a, 0, x);
      PlaneMember(a, 1, x);
      PlaneMember(a, 2, x);
    }
  }

  /** x is a channel of anode a that none of the anode's three planes holds. */
  predicate InAnodeOutsidePlanes(a: int, x: int) {
    x in AnodeChannels(a) &&
    x !in PlaneChannels(a, 0) && x !in PlaneChannels(a, 1) && x !in PlaneChannels(a, 2)
  }

  /**
   * For the anodes the processing loop visits, every plane channel is a valid
   * row of a frame with at least 12287 channels (the largest one is 12286).
   */
  lemma PlaneChannelsBound(a: int, p: int)
    requires 0 <= a < AnodeCount && 0 <= p < PlaneCount
    ensures forall i :: 0 <= i < |PlaneChannels(a, p)| ==> 0 <= PlaneChannels(a, p)[i] < MaxPlaneChannel + 1
    ensures a == AnodeCount - 1 && p == PlaneCount - 1 ==>
              PlaneChannels(a, p)[|PlaneChannels(a, p)| - 1] == MaxPlaneChannel
  {
    PlaneChannelsAsRange(a, p);
  }

  /** The largest channel any plane of anodes 0..7 holds. */
  const MaxPlaneChannel := 12286
}
