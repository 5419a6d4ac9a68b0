/**
 * HDF5FrameProcessor: the loading of the two frame collections (which
 * strips a leading "frame_" from dataset names), verify_dimensions, and the
 * loop of process that rebins every frame kind for each of the 8 x 3
 * (anode, plane) pairs into one map of named output frames.  Reading and
 * writing HDF5 files is outside the model: a collection is given as the
 * sequence of (dataset name, frame) entries of its group "/1".
 */
module FrameProcessor {
  import opened Frames
  import opened ChannelGrouping
  import opened FrameRebinner

  // ------------------------------------------------------------------
  // Dataset names on input
  // ------------------------------------------------------------------

  const Prefix := "frame_"

  /** `str.lower()` on ASCII letters. */
  function ToLower(c: char): char {
    if 'A' <= c <= 'Z' then (c as int + 32) as char else c
  }

  function Lower(s: string): (r: string)
    ensures |r| == |s| && forall i :: 0 <= i < |s| ==> r[i] == ToLower(s[i])
  {
    seq(|s|, i requires 0 <= i < |s| => ToLower(s[i]))
  }

  /** t occurs in s at position i. */
  predicate OccursAt(s: string, t: string, i: int) {
    0 <= i && i + |t| <= |s| && s[i..i + |t|] == t
  }

  /** `t in s` for strings: t occurs in s at some position. */
  predicate Contains(s: string, t: string) {
    exists i :: 0 <= i <= |s| && OccursAt(s, t, i)
  }

  /** `'frame' in key.lower()`: the datasets the loader keeps. */
  predicate IsFrameName(key: string) {
    Contains(Lower(key), "frame")
  }

  /**
   * `key.replace('frame_', '', 1) if key.startswith('frame_') else key`: the
   * first occurrence of "frame_" is the prefix, so exactly the prefix goes.
   */
  function CleanKey(key: string): (k: string)
    ensures Prefix <= key ==> key == Prefix + k
    ensures !(Prefix <= key) ==> k == key
  {
    if Prefix <= key then key[|Prefix|..] else key
  }

  /**
   * A cleaned key is "frame_gauss" only for a dataset named
   * "frame_frame_gauss"; the dataset "frame_gauss" is loaded as "gauss".
   */
  lemma CleanKeyGauss(key: string)
    ensures CleanKey(key) == "frame_gauss" <==> key == "frame_frame_gauss"
    ensures CleanKey(key) == "gauss" <==> key == "frame_gauss" || key == "gauss"
  {
    if key == "frame_frame_gauss" {
      assert Prefix <= key;
    }
    if key == "frame_gauss" {
      assert Prefix <= key;
    }
  }

  /** The map the loader builds from the entries of a group, in order: later entries win. */
  function Loaded(entries: seq<(string, Frame)>): map<string, Frame>
    decreases |entries|
  {
    if entries == [] then map[]
    else
      var m := Loaded(entries[..|entries| - 1]);
      var (key, frame) := entries[|entries| - 1];
      if IsFrameName(key) then m[CleanKey(key) := frame] else m
  }

  /**
   * The loop of process over `f['/1'].keys()`: every dataset whose name
   * contains "frame" (in any case) is stored under its cleaned name.  A file
   * without the group "/1" is `None` and gives the empty map.
   */
  method LoadFrames(group: Option<seq<(string, Frame)>>) returns (frames: map<string, Frame>)
    ensures frames == if group.None? then map[] else Loaded(group.value)
  {
    frames := map[];
    if group.Some? {
      var entries := group.value;
      for i := 0 to |entries|
        invariant frames == Loaded(entries[..i])
      {
        assert entries[..i + 1][..i] == entries[..i];
        var (key, frame) := entries[i];
        if IsFrameName(key) {
          frames := frames[CleanKey(key) := frame];
        }
      }
      assert entries[..|entries|] == entries;
    }
  }

  /** Loading one more entry. */
  lemma LoadedStep(entries: seq<(string, Frame)>)
    requires |entries| > 0
    ensures var init, last := entries[..|entries| - 1], entries[|entries| - 1];
      Loaded(entries) == if IsFrameName(last.0) then Loaded(init)[CleanKey(last.0) := last.1] else Loaded(init)
  {
  }

  /** Entry i is a frame dataset and no later frame dataset has the same cleaned name. */
  predicate LastFor(entries: seq<(string, Frame)>, i: int)
    requires 0 <= i < |entries|
  {
    IsFrameName(entries[i].0) &&
    forall j :: i < j < |entries| && IsFrameName(entries[j].0) ==> CleanKey(entries[j].0) != CleanKey(entries[i].0)
  }

  /** Every frame dataset leaves its cleaned name as a key. */
  lemma {:induction false} LoadedHasEntry(entries: seq<(string, Frame)>, i: int)
    requires 0 <= i < |entries| && IsFrameName(entries[i].0)
    ensures CleanKey(entries[i].0) in Loaded(entries)
    decreases |entries|
  {
    var n := |entries| - 1;
    if i < n {
      var init := entries[..n];
      assert init[i] == entries[i];
      LoadedHasEntry(init, i);
    }
  }

  /** Every key comes from a frame dataset; the witness is the returned position. */
  lemma {:induction false} LoadedKeyOrigin(entries: seq<(string, Frame)>, k: string) returns (i: int)
    requires k in Loaded(entries)
    ensures 0 <= i < |entries| && IsFrameName(entries[i].0) && CleanKey(entries[i].0) == k
    decreases |entries|
  {
    var n := |entries| - 1;
    if IsFrameName(entries[n].0) && CleanKey(entries[n].0) == k {
      i := n;
    } else {
      var init := entries[..n];
      i := LoadedKeyOrigin(init, k);
      assert init[i] == entries[i];
    }
  }

  /** A name is a key of the loaded map exactly when it is the cleaned name of some frame dataset. */
  lemma LoadedKeys(entries: seq<(string, Frame)>)
    ensures forall k :: k in Loaded(entries) <==>
              exists i :: 0 <= i < |entries| && IsFrameName(entries[i].0) && CleanKey(entries[i].0) == k
  {
    forall k | k in Loaded(entries)
      ensures exists i :: 0 <= i < |entries| && IsFrameName(entries[i].0) && CleanKey(entries[i].0) == k {
      var i := LoadedKeyOrigin(entries, k);
    }
    forall i | 0 <= i < |entries| && IsFrameName(entries[i].0) ensures CleanKey(entries[i].0) in Loaded(entries) {
      LoadedHasEntry(entries, i);
    }
  }

  /** The key of a frame dataset holds its frame unless a later frame dataset has the same cleaned name. */
  lemma {:induction false} LoadedValues(entries: seq<(string, Frame)>, i: int)
    requires 0 <= i < |entries| && LastFor(entries, i)
    ensures CleanKey(entries[i].0) in Loaded(entries)
    ensures Loaded(entries)[CleanKey(entries[i].0)] == entries[i].1
    decreases |entries|
  {
    var n := |entries| - 1;
    var init := entries[..n];
    var key := CleanKey(entries[i].0);
    if i < n {
      assert init[i] == entries[i];
      assert LastFor(init, i) by {
        forall j | i < j < n && IsFrameName(init[j].0) ensures CleanKey(init[j].0) != key {
          assert init[j] == entries[j];
        }
      }
      LoadedValues(init, i);
      assert !IsFrameName(entries[n].0) || CleanKey(entries[n].0) != key;
      LoadedStep(entries);
    }
  }

  /** The dataset "frame_frame_gauss" is kept and loaded as "frame_gauss". */
  lemma DoublePrefixKept()
    ensures IsFrameName("frame_frame_gauss") && CleanKey("frame_frame_gauss") == "frame_gauss"
  {
    var key := "frame_frame_gauss";
    assert OccursAt(Lower(key), "frame", 6);
    CleanKeyGauss(key);
  }

  /**
   * As written, loading strips "frame_" while the gauss branch of process
   * looks up "frame_gauss": the reco collection has that key only when its
   * file holds a dataset named "frame_frame_gauss".
   */
  lemma GaussKeyNeedsDoublePrefix(entries: seq<(string, Frame)>)
    ensures "frame_gauss" in Loaded(entries) <==> exists i :: 0 <= i < |entries| && entries[i].0 == "frame_frame_gauss"
  {
    if "frame_gauss" in Loaded(entries) {
      var i := LoadedKeyOrigin(entries, "frame_gauss");
      CleanKeyGauss(entries[i].0);
    }
    if exists i :: 0 <= i < |entries| && entries[i].0 == "frame_frame_gauss" {
      var i :| 0 <= i < |entries| && entries[i].0 == "frame_frame_gauss";
      DoublePrefixKept();
      LoadedHasEntry(entries, i);
    }
  }

  // ------------------------------------------------------------------
  // verify_dimensions
  // ------------------------------------------------------------------

  /** Every two frames of m have the same shape. */
  predicate SameShapes(m: map<string, Frame>) {
    forall x, y :: x in m && y in m ==> ShapeOf(m[x]) == ShapeOf(m[y])
  }

  /**
   * verify_dimensions(frames): true for an empty map; otherwise the shape of
   * the first frame visited is kept and the check fails at the first frame
   * of another shape.  The order of the visit is left open (it only changes
   * which frame the error message names).
   */
  method VerifyDimensions(frames: map<string, Frame>) returns (ok: bool)
    ensures ok <==> SameShapes(frames)
  {
    if frames == map[] {
      return true;
    }
    var firstShape: Option<Shape> := None;
    ghost var first: string := "";
    var remaining := frames.Keys;
    while remaining != {}
      invariant remaining <= frames.Keys
      invariant firstShape.None? <==> remaining == frames.Keys
      invariant firstShape.Some? ==> first in frames && firstShape.value == ShapeOf(frames[first])
      invariant firstShape.Some? ==> forall x :: x in frames.Keys - remaining ==> ShapeOf(frames[x]) == firstShape.value
      decreases |remaining|
    {
      var name :| name in remaining;
      if firstShape.None? {
        firstShape := Some(ShapeOf(frames[name]));
        first := name;
      } else if ShapeOf(frames[name]) != firstShape.value {
        assert !SameShapes(frames) by {
          assert ShapeOf(frames[name]) != ShapeOf(frames[first]);
        }
        return false;
      }
      remaining := remaining - {name};
    }
    return true;
  }

  // ------------------------------------------------------------------
  // Output names: anode{A}_plane{P}_{suffix}
  // ------------------------------------------------------------------

  /** The three label kinds the truth collection may hold. */
  datatype Kind = OrigTrackId | OrigPid | CurrentPid

  /** 1st (main) or 2nd (runner-up) contributor. */
  datatype Rank = First | Second

  /** The outputs of one (anode, plane) pair. */
  datatype Output = Gauss | Label(kind: Kind, rank: Rank) | Charge(rank: Rank)

  function KindName(k: Kind): string {
    match k
    case OrigTrackId => "orig_trackid"
    case OrigPid => "orig_pid"
    case CurrentPid => "current_pid"
  }

  function RankName(r: Rank): string {
    if r == First then "1st" else "2nd"
  }

  /** The truth frame `{kind}_1st` or `{kind}_2nd`. */
  function LabelName(k: Kind, r: Rank): (name: string)
    ensures name == KindName(k) + "_" + RankName(r)
  {
    match k
    case OrigTrackId => if r == First then "orig_trackid_1st" else "orig_trackid_2nd"
    case OrigPid => if r == First then "orig_pid_1st" else "orig_pid_2nd"
    case CurrentPid => if r == First then "current_pid_1st" else "current_pid_2nd"
  }

  /** The truth frame `charge_1st` or `charge_2nd`. */
  function ChargeName(r: Rank): (name: string)
    ensures name == "charge_" + RankName(r)
  {
    if r == First then "charge_1st" else "charge_2nd"
  }

  function Suffix(o: Output): string {
    match o
    case Gauss => "gauss"
    case Label(k, r) => LabelName(k, r)
    case Charge(r) => ChargeName(r)
  }

  /** The decimal digit of n. */
  function Digit(n: int): char
    requires 0 <= n < 10
  {
    ('0' as int + n) as char
  }

  /** `f"anode{anode_id}_plane{plane_id}_{suffix}"` for one-digit ids. */
  function OutKey(a: int, p: int, o: Output): (k: string)
    requires 0 <= a < 10 && 0 <= p < 10
    ensures |k| == 14 + |Suffix(o)| && k[5] == Digit(a) && k[12] == Digit(p) && k[14..] == Suffix(o)
  {
    "anode" + [Digit(a)] + "_plane" + [Digit(p)] + "_" + Suffix(o)
  }

  /** The character three places from the end of a suffix: the rank digit, or 'u' of "gauss". */
  function RankChar(o: Output): char {
    match o
    case Gauss => 'u'
    case Label(_, r) => if r == First then '1' else '2'
    case Charge(r) => if r == First then '1' else '2'
  }

  /** Suffixes differ in length by kind and in the rank digit by rank. */
  lemma SuffixShape(o: Output)
    ensures |Suffix(o)| == match o
      case Gauss => 5
      case Label(k, _) => (match k case OrigTrackId => 16 case OrigPid => 12 case CurrentPid => 15)
      case Charge(_) => 10
    ensures Suffix(o)[|Suffix(o)| - 3] == RankChar(o)
  {
  }

  /** Different (anode, plane, output) triples are stored under different names. */
  lemma OutKeyInjective(a: int, p: int, o: Output, a': int, p': int, o': Output)
    requires 0 <= a < 10 && 0 <= p < 10 && 0 <= a' < 10 && 0 <= p' < 10
    ensures OutKey(a, p, o) == OutKey(a', p', o') <==> a == a' && p == p' && o == o'
  {
    var k, k' := OutKey(a, p, o), OutKey(a', p', o');
    if k == k' {
      assert Digit(a) == k[5] == Digit(a');
      assert Digit(p) == k[12] == Digit(p');
      assert Suffix(o) == k[14..] == Suffix(o');
      SuffixShape(o);
      SuffixShape(o');
    }
  }

  // ------------------------------------------------------------------
  // What process needs and what it produces
  // ------------------------------------------------------------------

  /** The branch of the plane loop that writes output o runs. */
  predicate Enabled(rec: map<string, Frame>, tru: map<string, Frame>, o: Output) {
    match o
    case Gauss => "frame_gauss" in rec
    case Label(k, _) => LabelName(k, First) in tru
    case Charge(_) => ChargeName(First) in tru
  }

  /** Some branch of the plane loop runs. */
  predicate AnyBranch(rec: map<string, Frame>, tru: map<string, Frame>) {
    "frame_gauss" in rec || ChargeName(First) in tru ||
    LabelName(OrigTrackId, First) in tru || LabelName(OrigPid, First) in tru || LabelName(CurrentPid, First) in tru
  }

  predicate AllWellFormed(m: map<string, Frame>) {
    forall k :: k in m ==> WellFormed(m[k])
  }

  /** A frame every plane channel of anodes 0..7 is a row of. */
  predicate Sliceable(f: Frame) {
    WellFormed(f) && f.channels > MaxPlaneChannel
  }

  /**
   * What the branches that run demand, once the shapes agree: positive
   * factors (rebin_sum and rebin_track_first_second divide by them), the
   * frames each branch reads without checking that they exist (the 2nd
   * label frame and both charge frames), and enough channels for the plane
   * slices.
   */
  predicate BranchesRunnable(rec: map<string, Frame>, tru: map<string, Frame>, rt: int, rc: int) {
    (AnyBranch(rec, tru) ==> rt >= 1 && rc >= 1) &&
    ("frame_gauss" in rec ==> Sliceable(rec["frame_gauss"])) &&
    (forall k: Kind :: LabelName(k, First) in tru ==>
       LabelName(k, Second) in tru && ChargeName(First) in tru && ChargeName(Second) in tru &&
       Sliceable(tru[LabelName(k, First)])) &&
    (ChargeName(First) in tru ==> ChargeName(Second) in tru && Sliceable(tru[ChargeName(First)]))
  }

  /**
   * process(output_file) runs without an exception: the frames are
   * two-dimensional, the merged collection is not empty (its first frame's
   * shape is read), and once verify_dimensions passes, the branches taken
   * can run.
   */
  predicate CanProcess(rec: map<string, Frame>, tru: map<string, Frame>, rt: int, rc: int) {
    AllWellFormed(rec) && AllWellFormed(tru) && |rec + tru| > 0 &&
    (SameShapes(rec + tru) ==> BranchesRunnable(rec, tru, rt, rc))
  }

  /**
   * What the plane loop relies on once verify_dimensions has passed: the
   * truth frames share one shape (none of them is shadowed in the merged
   * map, so all of them were checked) and the branches can run.
   */
  predicate Ready(rec: map<string, Frame>, tru: map<string, Frame>, rt: int, rc: int) {
    AllWellFormed(rec) && AllWellFormed(tru) && SameShapes(tru) && BranchesRunnable(rec, tru, rt, rc)
  }

  lemma ReadyAfterCheck(rec: map<string, Frame>, tru: map<string, Frame>, rt: int, rc: int)
    requires CanProcess(rec, tru, rt, rc) && SameShapes(rec + tru)
    ensures Ready(rec, tru, rt, rc)
  {
    var m := rec + tru;
    forall x, y | x in tru && y in tru ensures ShapeOf(tru[x]) == ShapeOf(tru[y]) {
      assert m[x] == tru[x] && m[y] == tru[y];
    }
  }

  /** `frame[plane_channels, :]` for plane p of anode a. */
  function PlaneSlice(f: Frame, a: int, p: int): (s: Frame)
    requires Sliceable(f) && 0 <= a < AnodeCount && 0 <= p < PlaneCount
    ensures WellFormed(s) && s.channels == |PlaneChannels(a, p)| && s.ticks == f.ticks
  {
    PlaneChannelsBound(a, p);
    SliceRows(f, PlaneChannels(a, p))
  }

  /** The truth frames of one kind exist and all have the shape of its `_1st` frame. */
  lemma KindFramesAgree(rec: map<string, Frame>, tru: map<string, Frame>, rt: int, rc: int, k: Kind)
    requires Ready(rec, tru, rt, rc) && LabelName(k, First) in tru
    ensures LabelName(k, Second) in tru && ChargeName(First) in tru && ChargeName(Second) in tru
    ensures forall x :: x in tru ==> ShapeOf(tru[x]) == ShapeOf(tru[LabelName(k, First)]) && Sliceable(tru[x])
  {
  }

  /** Slices of four frames of one shape meet what rebin_track_first_second needs. */
  lemma SlicesTrack(d1: Frame, d2: Frame, c1: Frame, c2: Frame, rt: int, rc: int, a: int, p: int)
    requires Sliceable(d1) && Sliceable(d2) && Sliceable(c1) && Sliceable(c2)
    requires ShapeOf(d2) == ShapeOf(d1) && ShapeOf(c1) == ShapeOf(d1) && ShapeOf(c2) == ShapeOf(d1)
    requires rt >= 1 && rc >= 1 && 0 <= a < AnodeCount && 0 <= p < PlaneCount
    ensures TrackRequires(LabelSources(PlaneSlice(d1, a, p), PlaneSlice(d2, a, p),
                                       PlaneSlice(c1, a, p), PlaneSlice(c2, a, p)), rt, rc)
  {
    TruncatedFits(|PlaneChannels(a, p)|, rc);
    TruncatedFits(d1.ticks, rt);
  }

  /** The (data_1st, data_2nd, charge_1st, charge_2nd) slices of kind k for plane p of anode a. */
  function PlaneSources(rec: map<string, Frame>, tru: map<string, Frame>, rt: int, rc: int, k: Kind, a: int, p: int)
    : (src: LabelSources)
    requires Ready(rec, tru, rt, rc) && LabelName(k, First) in tru
    requires 0 <= a < AnodeCount && 0 <= p < PlaneCount
    ensures TrackRequires(src, rt, rc)
  {
    KindFramesAgree(rec, tru, rt, rc, k);
    assert AnyBranch(rec, tru) by { assert k.OrigTrackId? || k.OrigPid? || k.CurrentPid?; }
    SlicesTrack(tru[LabelName(k, First)], tru[LabelName(k, Second)], tru[ChargeName(First)], tru[ChargeName(Second)],
                rt, rc, a, p);
    LabelSources(PlaneSlice(tru[LabelName(k, First)], a, p), PlaneSlice(tru[LabelName(k, Second)], a, p),
                 PlaneSlice(tru[ChargeName(First)], a, p), PlaneSlice(tru[ChargeName(Second)], a, p))
  }

  /** The input frame whose shape output o's shape follows. */
  function InputFor(rec: map<string, Frame>, tru: map<string, Frame>, o: Output): Frame
    requires Enabled(rec, tru, o)
  {
    match o
    case Gauss => rec["frame_gauss"]
    case Label(k, _) => tru[LabelName(k, First)]
    case Charge(_) => tru[ChargeName(First)]
  }

  /**
   * The frame process stores for output o of plane p of anode a: one row per
   * rc plane channels and one column per rt ticks, partial blocks dropped.
   */
  function Expected(rec: map<string, Frame>, tru: map<string, Frame>, rt: int, rc: int, a: int, p: int, o: Output)
    : (r: Frame)
    requires Ready(rec, tru, rt, rc) && Enabled(rec, tru, o)
    requires 0 <= a < AnodeCount && 0 <= p < PlaneCount
    ensures WellFormed(r) && r.channels == |PlaneChannels(a, p)| / rc && r.ticks == InputFor(rec, tru, o).ticks / rt
  {
    assert AnyBranch(rec, tru) by {
      assert o.Gauss? || o.Charge? || o.kind.OrigTrackId? || o.kind.OrigPid? || o.kind.CurrentPid?;
    }
    match o
    case Gauss => RebinSum(PlaneSlice(rec["frame_gauss"], a, p), rt, rc)
    case Label(k, r) =>
      var out := TrackFirstSecond(PlaneSources(rec, tru, rt, rc, k, a, p), rt, rc);
      if r == First then out.0 else out.1
    case Charge(r) =>
      assert ShapeOf(tru[ChargeName(r)]) == ShapeOf(tru[ChargeName(First)]);
      RebinSum(PlaneSlice(tru[ChargeName(r)], a, p), rt, rc)
  }

  /**
   * The frames one iteration of the plane loop computes, branch by branch:
   * None for a branch that does not run; a label kind and the charge branch
   * give a (_1st, _2nd) pair.
   */
  datatype PlaneFrames = PlaneFrames(
    gauss: Option<Frame>,
    origTrackId: Option<(Frame, Frame)>,
    origPid: Option<(Frame, Frame)>,
    currentPid: Option<(Frame, Frame)>,
    charge: Option<(Frame, Frame)>)

  function KindFrames(pf: PlaneFrames, k: Kind): Option<(Frame, Frame)> {
    match k
    case OrigTrackId => pf.origTrackId
    case OrigPid => pf.origPid
    case CurrentPid => pf.currentPid
  }

  function Pick(pair: Option<(Frame, Frame)>, r: Rank): Option<Frame> {
    if pair.None? then None else if r == First then Some(pair.value.0) else Some(pair.value.1)
  }

  /** The frame of output o among pf, if its branch ran. */
  function Lookup(pf: PlaneFrames, o: Output): Option<Frame> {
    match o
    case Gauss => pf.gauss
    case Label(k, r) => Pick(KindFrames(pf, k), r)
    case Charge(r) => Pick(pf.charge, r)
  }

  /** The gauss branch of plane p of anode a. */
  function GaussFrame(rec: map<string, Frame>, tru: map<string, Frame>, rt: int, rc: int, a: int, p: int)
    : Option<Frame>
    requires Ready(rec, tru, rt, rc) && 0 <= a < AnodeCount && 0 <= p < PlaneCount
  {
    if Enabled(rec, tru, Gauss) then Some(Expected(rec, tru, rt, rc, a, p, Gauss)) else None
  }

  /** The branch of label kind k of plane p of anode a. */
  function KindPair(rec: map<string, Frame>, tru: map<string, Frame>, rt: int, rc: int, a: int, p: int, k: Kind)
    : Option<(Frame, Frame)>
    requires Ready(rec, tru, rt, rc) && 0 <= a < AnodeCount && 0 <= p < PlaneCount
  {
    if Enabled(rec, tru, Label(k, First))
    then Some((Expected(rec, tru, rt, rc, a, p, Label(k, First)), Expected(rec, tru, rt, rc, a, p, Label(k, Second))))
    else None
  }

  /** A label kind whose branch runs yields both outputs of one rebin_track_first_second call. */
  lemma KindPairTracks(rec: map<string, Frame>, tru: map<string, Frame>, rt: int, rc: int, a: int, p: int, k: Kind)
    requires Ready(rec, tru, rt, rc) && 0 <= a < AnodeCount && 0 <= p < PlaneCount
    requires LabelName(k, First) in tru
    ensures KindPair(rec, tru, rt, rc, a, p, k) == Some(TrackFirstSecond(PlaneSources(rec, tru, rt, rc, k, a, p), rt, rc))
  {
  }

  /** The charge branch of plane p of anode a. */
  function ChargePair(rec: map<string, Frame>, tru: map<string, Frame>, rt: int, rc: int, a: int, p: int)
    : Option<(Frame, Frame)>
    requires Ready(rec, tru, rt, rc) && 0 <= a < AnodeCount && 0 <= p < PlaneCount
  {
    if Enabled(rec, tru, Charge(First))
    then Some((Expected(rec, tru, rt, rc, a, p, Charge(First)), Expected(rec, tru, rt, rc, a, p, Charge(Second))))
    else None
  }

  /** What plane p of anode a computes from the loaded collections. */
  function PlaneFramesOf(rec: map<string, Frame>, tru: map<string, Frame>, rt: int, rc: int, a: int, p: int)
    : PlaneFrames
    requires Ready(rec, tru, rt, rc) && 0 <= a < AnodeCount && 0 <= p < PlaneCount
  {
    PlaneFrames(GaussFrame(rec, tru, rt, rc, a, p),
                KindPair(rec, tru, rt, rc, a, p, OrigTrackId),
                KindPair(rec, tru, rt, rc, a, p, OrigPid),
                KindPair(rec, tru, rt, rc, a, p, CurrentPid),
                ChargePair(rec, tru, rt, rc, a, p))
  }

  /** A plane computes output o exactly when o's branch runs, and then the frame Expected gives. */
  lemma PlaneFramesLookup(rec: map<string, Frame>, tru: map<string, Frame>, rt: int, rc: int, a: int, p: int, o: Output)
    requires Ready(rec, tru, rt, rc) && 0 <= a < AnodeCount && 0 <= p < PlaneCount
    ensures Lookup(PlaneFramesOf(rec, tru, rt, rc, a, p), o).Some? <==> Enabled(rec, tru, o)
    ensures Enabled(rec, tru, o) ==> Lookup(PlaneFramesOf(rec, tru, rt, rc, a, p), o).value == Expected(rec, tru, rt, rc, a, p, o)
  {
    var pf := PlaneFramesOf(rec, tru, rt, rc, a, p);
    match o
    case Gauss =>
      assert pf.gauss == GaussFrame(rec, tru, rt, rc, a, p);
    case Label(k, r) =>
      assert KindFrames(pf, k) == KindPair(rec, tru, rt, rc, a, p, k) by {
        match k
        case OrigTrackId =>
        case OrigPid =>
        case CurrentPid =>
      }
    case Charge(r) =>
      assert pf.charge == ChargePair(rec, tru, rt, rc, a, p);
  }

  /** The gauss branch: `rebinned_data[f"{plane_key}_gauss"] = ...` when it runs. */
  function GaussWrite(acc: map<string, Frame>, a: int, p: int, g: Option<Frame>): map<string, Frame>
    requires 0 <= a < AnodeCount && 0 <= p < PlaneCount
  {
    if g.Some? then acc[OutKey(a, p, Gauss) := g.value] else acc
  }

  /** A label-kind branch: its `_1st` and `_2nd` outputs, in that order, when it runs. */
  function KindWrite(acc: map<string, Frame>, a: int, p: int, k: Kind, pair: Option<(Frame, Frame)>)
    : map<string, Frame>
    requires 0 <= a < AnodeCount && 0 <= p < PlaneCount
  {
    if pair.Some?
    then acc[OutKey(a, p, Label(k, First)) := pair.value.0][OutKey(a, p, Label(k, Second)) := pair.value.1]
    else acc
  }

  /** The charge branch: the `charge_1st` and `charge_2nd` outputs, in that order, when it runs. */
  function ChargeWrite(acc: map<string, Frame>, a: int, p: int, pair: Option<(Frame, Frame)>): map<string, Frame>
    requires 0 <= a < AnodeCount && 0 <= p < PlaneCount
  {
    if pair.Some?
    then acc[OutKey(a, p, Charge(First)) := pair.value.0][OutKey(a, p, Charge(Second)) := pair.value.1]
    else acc
  }

  /**
   * The assignments to `rebinned_data` of one iteration of the plane loop,
   * in the order the branches run: gauss, the three label kinds, charge.
   */
  function PlaneWrite(acc: map<string, Frame>, a: int, p: int, pf: PlaneFrames): map<string, Frame>
    requires 0 <= a < AnodeCount && 0 <= p < PlaneCount
  {
    var m0 := GaussWrite(acc, a, p, pf.gauss);
    var m1 := KindWrite(m0, a, p, OrigTrackId, pf.origTrackId);
    var m2 := KindWrite(m1, a, p, OrigPid, pf.origPid);
    var m3 := KindWrite(m2, a, p, CurrentPid, pf.currentPid);
    ChargeWrite(m3, a, p, pf.charge)
  }

  /**
   * `rebinned_data` after the first n of the 24 iterations, anode-major:
   * iteration 3a + p is plane p of anode a and writes the frames fs[3a + p].
   */
  function Written(fs: seq<PlaneFrames>, n: int): map<string, Frame>
    requires |fs| == AnodeCount * PlaneCount && 0 <= n <= |fs|
  {
    if n == 0 then map[]
    else PlaneWrite(Written(fs, n - 1), (n - 1) / PlaneCount, (n - 1) % PlaneCount, fs[n - 1])
  }

  /** Iteration 3a + p extends the map by the frames fs[3a + p] of plane p of anode a. */
  lemma WrittenStep(fs: seq<PlaneFrames>, a: int, p: int, before: map<string, Frame>, after: map<string, Frame>)
    requires |fs| == AnodeCount * PlaneCount && 0 <= a < AnodeCount && 0 <= p < PlaneCount
    requires before == Written(fs, PlaneCount * a + p)
    requires after == PlaneWrite(before, a, p, fs[PlaneCount * a + p])
    ensures after == Written(fs, PlaneCount * a + p + 1)
  {
    PlaneIndex(a, p);
  }

  /** The frames of all 24 iterations. */
  function AllPlaneFrames(rec: map<string, Frame>, tru: map<string, Frame>, rt: int, rc: int): (fs: seq<PlaneFrames>)
    requires Ready(rec, tru, rt, rc)
    ensures |fs| == AnodeCount * PlaneCount
  {
    seq(AnodeCount * PlaneCount, i requires 0 <= i < AnodeCount * PlaneCount =>
      PlaneFramesOf(rec, tru, rt, rc, i / PlaneCount, i % PlaneCount))
  }

  /** The map `rebinned_data` that process hands to the writer. */
  function Outputs(rec: map<string, Frame>, tru: map<string, Frame>, rt: int, rc: int): map<string, Frame>
    requires Ready(rec, tru, rt, rc)
  {
    Written(AllPlaneFrames(rec, tru, rt, rc), AnodeCount * PlaneCount)
  }

  /** Iteration p of anode a is the (3a + p)-th of the loop. */
  lemma PlaneIndex(a: int, p: int)
    requires 0 <= p < PlaneCount
    ensures (PlaneCount * a + p) / PlaneCount == a && (PlaneCount * a + p) % PlaneCount == p
  {
  }

  /** Iteration m of the loop is plane p of anode a exactly when m == 3a + p. */
  lemma IterationOf(m: int, a: int, p: int)
    requires 0 <= m && 0 <= p < PlaneCount
    ensures m / PlaneCount == a && m % PlaneCount == p <==> PlaneCount * a + p == m
  {
    if PlaneCount * a + p == m {
      PlaneIndex(a, p);
    }
  }

  lemma AllPlaneFramesAt(rec: map<string, Frame>, tru: map<string, Frame>, rt: int, rc: int, a: int, p: int)
    requires Ready(rec, tru, rt, rc) && 0 <= a < AnodeCount && 0 <= p < PlaneCount
    ensures AllPlaneFrames(rec, tru, rt, rc)[PlaneCount * a + p] == PlaneFramesOf(rec, tru, rt, rc, a, p)
  {
    PlaneIndex(a, p);
  }

  // ------------------------------------------------------------------
  // The plane loop of process
  // ------------------------------------------------------------------

  /**
   * One `if '{kind}_1st' in frames_tru:` branch: slice the two label and the
   * two charge frames to the plane, rank the block contributors and store
   * both outputs.
   */
  method RebinLabelKind(rec: map<string, Frame>, tru: map<string, Frame>, rt: int, rc: int,
                        a: int, p: int, k: Kind, acc: map<string, Frame>)
    returns (res: map<string, Frame>)
    requires Ready(rec, tru, rt, rc) && 0 <= a < AnodeCount && 0 <= p < PlaneCount
    ensures res == KindWrite(acc, a, p, k, KindPair(rec, tru, rt, rc, a, p, k))
  {
    res := acc;
    if LabelName(k, First) in tru {
      var src := PlaneSources(rec, tru, rt, rc, k, a, p);
      var out1st, out2nd := RebinTrackFirstSecond(src.data1st, src.data2nd, src.charge1st, src.charge2nd, rt, rc);
      KindPairTracks(rec, tru, rt, rc, a, p, k);
      res := res[OutKey(a, p, Label(k, First)) := out1st];
      res := res[OutKey(a, p, Label(k, Second)) := out2nd];
    }
  }

  /** The gauss branch: `frames_rec['frame_gauss'][plane_channels, :]`, block-summed. */
  method RebinGauss(rec: map<string, Frame>, tru: map<string, Frame>, rt: int, rc: int,
                    a: int, p: int, acc: map<string, Frame>)
    returns (res: map<string, Frame>)
    requires Ready(rec, tru, rt, rc) && 0 <= a < AnodeCount && 0 <= p < PlaneCount
    ensures res == GaussWrite(acc, a, p, GaussFrame(rec, tru, rt, rc, a, p))
  {
    res := acc;
    if "frame_gauss" in rec {
      assert AnyBranch(rec, tru);
      var data := PlaneSlice(rec["frame_gauss"], a, p);
      res := res[OutKey(a, p, Gauss) := RebinSum(data, rt, rc)];
    }
  }

  /** The charge branch: both charge frames sliced to the plane and block-summed. */
  method RebinCharge(rec: map<string, Frame>, tru: map<string, Frame>, rt: int, rc: int,
                     a: int, p: int, acc: map<string, Frame>)
    returns (res: map<string, Frame>)
    requires Ready(rec, tru, rt, rc) && 0 <= a < AnodeCount && 0 <= p < PlaneCount
    ensures res == ChargeWrite(acc, a, p, ChargePair(rec, tru, rt, rc, a, p))
  {
    res := acc;
    if ChargeName(First) in tru {
      assert AnyBranch(rec, tru);
      assert ShapeOf(tru[ChargeName(Second)]) == ShapeOf(tru[ChargeName(First)]);
      var charge1st := PlaneSlice(tru[ChargeName(First)], a, p);
      var charge2nd := PlaneSlice(tru[ChargeName(Second)], a, p);
      res := res[OutKey(a, p, Charge(First)) := RebinSum(charge1st, rt, rc)];
      res := res[OutKey(a, p, Charge(Second)) := RebinSum(charge2nd, rt, rc)];
    }
  }

  /**
   * The body of `for plane_id in range(3)` for anode a: the gauss branch,
   * the three label kinds and the charge branch, each adding its outputs.
   */
  method RebinPlane(rec: map<string, Frame>, tru: map<string, Frame>, rt: int, rc: int,
                    a: int, p: int, acc: map<string, Frame>)
    returns (res: map<string, Frame>)
    requires Ready(rec, tru, rt, rc) && 0 <= a < AnodeCount && 0 <= p < PlaneCount
    ensures res == PlaneWrite(acc, a, p, PlaneFramesOf(rec, tru, rt, rc, a, p))
  {
    res := RebinGauss(rec, tru, rt, rc, a, p, acc);
    res := RebinLabelKind(rec, tru, rt, rc, a, p, OrigTrackId, res);
    res := RebinLabelKind(rec, tru, rt, rc, a, p, OrigPid, res);
    res := RebinLabelKind(rec, tru, rt, rc, a, p, CurrentPid, res);
    res := RebinCharge(rec, tru, rt, rc, a, p, res);
  }

  // ------------------------------------------------------------------
  // process
  // ------------------------------------------------------------------

  /**
   * process(output_file) from the merged check on: False and nothing written
   * when verify_dimensions fails; otherwise the 8 x 3 plane loop, anode by
   * anode, and True.  `out` is the `rebinned_data` handed to the writer.
   */
  method Process(rec: map<string, Frame>, tru: map<string, Frame>, rt: int, rc: int)
    returns (ok: bool, out: map<string, Frame>)
    requires CanProcess(rec, tru, rt, rc)
    ensures ok <==> SameShapes(rec + tru)
    ensures ok ==> Ready(rec, tru, rt, rc) && out == Outputs(rec, tru, rt, rc)
    ensures !ok ==> out == map[]
  {
    out := map[];
    ok := VerifyDimensions(rec + tru);
    if !ok {
      return;
    }
    ReadyAfterCheck(rec, tru, rt, rc);
    out := RebinAll(rec, tru, rt, rc);
  }

  /** `for anode_id in range(8)` around the plane loop, from an empty `rebinned_data`. */
  method RebinAll(rec: map<string, Frame>, tru: map<string, Frame>, rt: int, rc: int)
    returns (out: map<string, Frame>)
    requires Ready(rec, tru, rt, rc)
    ensures out == Outputs(rec, tru, rt, rc)
  {
    out := map[];
    for a := 0 to AnodeCount
      invariant out == Written(AllPlaneFrames(rec, tru, rt, rc), PlaneCount * a)
    {
      out := RebinAnode(rec, tru, rt, rc, a, out);
    }
  }

  /** `for plane_id in range(3)` for anode a, continuing from the outputs of the anodes before it. */
  method RebinAnode(rec: map<string, Frame>, tru: map<string, Frame>, rt: int, rc: int,
                    a: int, acc: map<string, Frame>)
    returns (res: map<string, Frame>)
    requires Ready(rec, tru, rt, rc) && 0 <= a < AnodeCount
    requires acc == Written(AllPlaneFrames(rec, tru, rt, rc), PlaneCount * a)
    ensures res == Written(AllPlaneFrames(rec, tru, rt, rc), PlaneCount * (a + 1))
  {
    ghost var fs := AllPlaneFrames(rec, tru, rt, rc);
    res := acc;
    for p := 0 to PlaneCount
      invariant res == Written(fs, PlaneCount * a + p)
    {
      ghost var before := res;
      res := RebinPlane(rec, tru, rt, rc, a, p, res);
      AllPlaneFramesAt(rec, tru, rt, rc, a, p);
      WrittenStep(fs, a, p, before, res);
    }
    assert PlaneCount * a + PlaneCount == PlaneCount * (a + 1);
  }

  // ------------------------------------------------------------------
  // What rebinned_data holds
  // ------------------------------------------------------------------

  /** The entry under `key`, or its absence, is the same in res as in acc. */
  predicate Keeps(acc: map<string, Frame>, res: map<string, Frame>, key: string) {
    (key in res <==> key in acc) && (key in acc ==> res[key] == acc[key])
  }

  /** The gauss write stores only its own output, when it runs. */
  lemma GaussWriteAt(acc: map<string, Frame>, a: int, p: int, g: Option<Frame>, a': int, p': int, o: Output)
    requires 0 <= a < AnodeCount && 0 <= p < PlaneCount && 0 <= a' < AnodeCount && 0 <= p' < PlaneCount
    ensures var key, res := OutKey(a', p', o), GaussWrite(acc, a, p, g);
      if a == a' && p == p' && o == Gauss && g.Some? then key in res && res[key] == g.value else Keeps(acc, res, key)
  {
    OutKeyInjective(a, p, Gauss, a', p', o);
  }

  /** A label-kind write stores only its own two outputs, when it runs. */
  lemma KindWriteAt(acc: map<string, Frame>, a: int, p: int, k: Kind, pair: Option<(Frame, Frame)>,
                    a': int, p': int, o: Output)
    requires 0 <= a < AnodeCount && 0 <= p < PlaneCount && 0 <= a' < AnodeCount && 0 <= p' < PlaneCount
    ensures var key, res := OutKey(a', p', o), KindWrite(acc, a, p, k, pair);
      if a == a' && p == p' && o.Label? && o.kind == k && pair.Some?
      then key in res && res[key] == Pick(pair, o.rank).value
      else Keeps(acc, res, key)
  {
    OutKeyInjective(a, p, Label(k, First), a', p', o);
    OutKeyInjective(a, p, Label(k, Second), a', p', o);
  }

  /** The charge write stores only its own two outputs, when it runs. */
  lemma ChargeWriteAt(acc: map<string, Frame>, a: int, p: int, pair: Option<(Frame, Frame)>,
                      a': int, p': int, o: Output)
    requires 0 <= a < AnodeCount && 0 <= p < PlaneCount && 0 <= a' < AnodeCount && 0 <= p' < PlaneCount
    ensures var key, res := OutKey(a', p', o), ChargeWrite(acc, a, p, pair);
      if a == a' && p == p' && o.Charge? && pair.Some?
      then key in res && res[key] == Pick(pair, o.rank).value
      else Keeps(acc, res, key)
  {
    OutKeyInjective(a, p, Charge(First), a', p', o);
    OutKeyInjective(a, p, Charge(Second), a', p', o);
  }

  /**
   * One iteration of the plane loop stores output o of its own plane exactly
   * when o was computed, with that frame, and leaves the entries of every
   * other plane as they were.
   */
  lemma PlaneWriteAt(acc: map<string, Frame>, a: int, p: int, pf: PlaneFrames, a': int, p': int, o: Output)
    requires 0 <= a < AnodeCount && 0 <= p < PlaneCount && 0 <= a' < AnodeCount && 0 <= p' < PlaneCount
    ensures var key, res := OutKey(a', p', o), PlaneWrite(acc, a, p, pf);
      if a == a' && p == p' && Lookup(pf, o).Some?
      then key in res && res[key] == Lookup(pf, o).value
      else Keeps(acc, res, key)
  {
    var m0 := GaussWrite(acc, a, p, pf.gauss);
    var m1 := KindWrite(m0, a, p, OrigTrackId, pf.origTrackId);
    var m2 := KindWrite(m1, a, p, OrigPid, pf.origPid);
    var m3 := KindWrite(m2, a, p, CurrentPid, pf.currentPid);
    GaussWriteAt(acc, a, p, pf.gauss, a', p', o);
    KindWriteAt(m0, a, p, OrigTrackId, pf.origTrackId, a', p', o);
    KindWriteAt(m1, a, p, OrigPid, pf.origPid, a', p', o);
    KindWriteAt(m2, a, p, CurrentPid, pf.currentPid, a', p', o);
    ChargeWriteAt(m3, a, p, pf.charge, a', p', o);
  }

  /** Every name one iteration adds is the name of an output it computed. */
  lemma PlaneWriteKeys(acc: map<string, Frame>, a: int, p: int, pf: PlaneFrames)
    requires 0 <= a < AnodeCount && 0 <= p < PlaneCount
    ensures forall key :: key in PlaneWrite(acc, a, p, pf) ==>
              key in acc || exists o :: Lookup(pf, o).Some? && key == OutKey(a, p, o)
  {
    var m0 := GaussWrite(acc, a, p, pf.gauss);
    var m1 := KindWrite(m0, a, p, OrigTrackId, pf.origTrackId);
    var m2 := KindWrite(m1, a, p, OrigPid, pf.origPid);
    var m3 := KindWrite(m2, a, p, CurrentPid, pf.currentPid);
    forall key | key in PlaneWrite(acc, a, p, pf) && key !in acc
      ensures exists o :: Lookup(pf, o).Some? && key == OutKey(a, p, o)
    {
      var o :=
        if key !in m3 then (if key == OutKey(a, p, Charge(First)) then Charge(First) else Charge(Second))
        else if key !in m2 then (if key == OutKey(a, p, Label(CurrentPid, First)) then Label(CurrentPid, First) else Label(CurrentPid, Second))
        else if key !in m1 then (if key == OutKey(a, p, Label(OrigPid, First)) then Label(OrigPid, First) else Label(OrigPid, Second))
        else if key !in m0 then (if key == OutKey(a, p, Label(OrigTrackId, First)) then Label(OrigTrackId, First) else Label(OrigTrackId, Second))
        else Gauss;
      assert Lookup(pf, o).Some? && key == OutKey(a, p, o);
    }
  }

  /**
   * After the first n iterations, output o of plane p of anode a is stored
   * exactly when its iteration is among them and computed o, and then it
   * holds that frame: later iterations never overwrite it.
   */
  lemma {:induction false} WrittenAt(fs: seq<PlaneFrames>, n: int, a: int, p: int, o: Output)
    requires |fs| == AnodeCount * PlaneCount && 0 <= n <= |fs|
    requires 0 <= a < AnodeCount && 0 <= p < PlaneCount
    ensures OutKey(a, p, o) in Written(fs, n) <==> PlaneCount * a + p < n && Lookup(fs[PlaneCount * a + p], o).Some?
    ensures OutKey(a, p, o) in Written(fs, n) ==>
              Lookup(fs[PlaneCount * a + p], o).Some? && Written(fs, n)[OutKey(a, p, o)] == Lookup(fs[PlaneCount * a + p], o).value
    decreases n
  {
    if n > 0 {
      var m := n - 1;
      WrittenAt(fs, m, a, p, o);
      IterationOf(m, a, p);
      PlaneWriteAt(Written(fs, m), m / PlaneCount, m % PlaneCount, fs[m], a, p, o);
    }
  }

  /** After the first n iterations, every stored name is an output one of them computed. */
  lemma {:induction false} WrittenKeys(fs: seq<PlaneFrames>, n: int)
    requires |fs| == AnodeCount * PlaneCount && 0 <= n <= |fs|
    ensures forall key :: key in Written(fs, n) ==>
              exists a, p, o :: 0 <= a < AnodeCount && 0 <= p < PlaneCount && PlaneCount * a + p < n &&
                                Lookup(fs[PlaneCount * a + p], o).Some? && key == OutKey(a, p, o)
    decreases n
  {
    if n > 0 {
      var m := n - 1;
      var a, p := m / PlaneCount, m % PlaneCount;
      WrittenKeys(fs, m);
      PlaneWriteKeys(Written(fs, m), a, p, fs[m]);
      assert PlaneCount * a + p == m;
      KeysStep(fs, m, a, p, Written(fs, m), Written(fs, n));
    }
  }

  /** The induction step of WrittenKeys, over the maps before and after iteration m. */
  lemma KeysStep(fs: seq<PlaneFrames>, m: int, a: int, p: int, before: map<string, Frame>, after: map<string, Frame>)
    requires |fs| == AnodeCount * PlaneCount && 0 <= m < |fs|
    requires 0 <= a < AnodeCount && 0 <= p < PlaneCount && PlaneCount * a + p == m
    requires forall key :: key in before ==>
               exists a, p, o :: 0 <= a < AnodeCount && 0 <= p < PlaneCount && PlaneCount * a + p < m &&
                                 Lookup(fs[PlaneCount * a + p], o).Some? && key == OutKey(a, p, o)
    requires forall key :: key in after ==> key in before || exists o :: Lookup(fs[m], o).Some? && key == OutKey(a, p, o)
    ensures forall key :: key in after ==>
              exists a, p, o :: 0 <= a < AnodeCount && 0 <= p < PlaneCount && PlaneCount * a + p < m + 1 &&
                                Lookup(fs[PlaneCount * a + p], o).Some? && key == OutKey(a, p, o)
  {
  }

  /** Key is the name of an output that plane p of anode a writes. */
  ghost predicate PlaneKey(rec: map<string, Frame>, tru: map<string, Frame>, a: int, p: int, key: string)
    requires 0 <= a < AnodeCount && 0 <= p < PlaneCount
  {
    exists o :: Enabled(rec, tru, o) && key == OutKey(a, p, o)
  }

  /**
   * What `rebinned_data` holds at the end of the loop: for each of the 24
   * (anode, plane) pairs, output o is stored exactly when its branch runs,
   * with the frame Expected gives, and nothing else is stored.
   */
  lemma OutputsContents(rec: map<string, Frame>, tru: map<string, Frame>, rt: int, rc: int)
    requires Ready(rec, tru, rt, rc)
    ensures forall a, p, o :: 0 <= a < AnodeCount && 0 <= p < PlaneCount ==>
              (OutKey(a, p, o) in Outputs(rec, tru, rt, rc) <==> Enabled(rec, tru, o))
    ensures forall a, p, o :: 0 <= a < AnodeCount && 0 <= p < PlaneCount && Enabled(rec, tru, o) ==>
              Outputs(rec, tru, rt, rc)[OutKey(a, p, o)] == Expected(rec, tru, rt, rc, a, p, o)
    ensures forall key :: key in Outputs(rec, tru, rt, rc) ==>
              exists a, p :: 0 <= a < AnodeCount && 0 <= p < PlaneCount && PlaneKey(rec, tru, a, p, key)
  {
    var fs := AllPlaneFrames(rec, tru, rt, rc);
    var n := AnodeCount * PlaneCount;
    forall a, p, o | 0 <= a < AnodeCount && 0 <= p < PlaneCount
      ensures OutKey(a, p, o) in Outputs(rec, tru, rt, rc) <==> Enabled(rec, tru, o)
      ensures Enabled(rec, tru, o) ==> Outputs(rec, tru, rt, rc)[OutKey(a, p, o)] == Expected(rec, tru, rt, rc, a, p, o)
    {
      OutputAt(rec, tru, rt, rc, a, p, o);
    }
    WrittenKeys(fs, n);
    forall key | key in Outputs(rec, tru, rt, rc)
      ensures exists a, p :: 0 <= a < AnodeCount && 0 <= p < PlaneCount && PlaneKey(rec, tru, a, p, key)
    {
      var a, p, o :| 0 <= a < AnodeCount && 0 <= p < PlaneCount && PlaneCount * a + p < n &&
                     Lookup(fs[PlaneCount * a + p], o).Some? && key == OutKey(a, p, o);
      AllPlaneFramesAt(rec, tru, rt, rc, a, p);
      PlaneFramesLookup(rec, tru, rt, rc, a, p, o);
      assert PlaneKey(rec, tru, a, p, key);
    }
  }

  /** Output o of plane p of anode a in `rebinned_data`. */
  lemma OutputAt(rec: map<string, Frame>, tru: map<string, Frame>, rt: int, rc: int, a: int, p: int, o: Output)
    requires Ready(rec, tru, rt, rc) && 0 <= a < AnodeCount && 0 <= p < PlaneCount
    ensures OutKey(a, p, o) in Outputs(rec, tru, rt, rc) <==> Enabled(rec, tru, o)
    ensures Enabled(rec, tru, o) ==> Outputs(rec, tru, rt, rc)[OutKey(a, p, o)] == Expected(rec, tru, rt, rc, a, p, o)
  {
    var fs := AllPlaneFrames(rec, tru, rt, rc);
    WrittenAt(fs, AnodeCount * PlaneCount, a, p, o);
    AllPlaneFramesAt(rec, tru, rt, rc, a, p);
    PlaneFramesLookup(rec, tru, rt, rc, a, p, o);
  }

  /**
   * The gauss bug end to end: with the reco entries loaded as process loads
   * them, a plane's `_gauss` output exists exactly when the file holds a
   * dataset named "frame_frame_gauss"; a file whose gauss dataset is named
   * "frame_gauss" yields no gauss output at all.
   */
  lemma GaussOutputNeedsDoublePrefix(entries: seq<(string, Frame)>, tru: map<string, Frame>, rt: int, rc: int,
                                     a: int, p: int)
    requires Ready(Loaded(entries), tru, rt, rc) && 0 <= a < AnodeCount && 0 <= p < PlaneCount
    ensures OutKey(a, p, Gauss) in Outputs(Loaded(entries), tru, rt, rc) <==>
            exists i :: 0 <= i < |entries| && entries[i].0 == "frame_frame_gauss"
  {
    OutputAt(Loaded(entries), tru, rt, rc, a, p, Gauss);
    GaussKeyNeedsDoublePrefix(entries);
  }

  // ------------------------------------------------------------------
  // Dataset names on output
  // ------------------------------------------------------------------

  /** `f"frame_{key}" if not key.startswith('frame_') else key` */
  function SavedName(key: string): (name: string)
    ensures Prefix <= name
  {
    if Prefix <= key then key else Prefix + key
  }

  /**
   * Every output is saved as "frame_" followed by its name, so loading the
   * written file with the same loader gives the output names back.
   */
  lemma SavedNameRoundTrip(a: int, p: int, o: Output)
    requires 0 <= a < AnodeCount && 0 <= p < PlaneCount
    ensures SavedName(OutKey(a, p, o)) == Prefix + OutKey(a, p, o)
    ensures IsFrameName(SavedName(OutKey(a, p, o)))
    ensures CleanKey(SavedName(OutKey(a, p, o))) == OutKey(a, p, o)
  {
    var key := OutKey(a, p, o);
    assert key[0] == 'a';
    assert !(Prefix <= key) by { assert Prefix[0] != key[0]; }
    var name := Prefix + key;
    assert Lower(name)[..5] == "frame" by {
      assert name[..5] == "frame";
    }
    assert OccursAt(Lower(name), "frame", 0);
  }
}

