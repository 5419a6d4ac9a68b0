# Rebinning of labelled 2D frames, modelled in Dafny

This project models the core of the `labelling-2d` rebinning tool. The tool
reads two collections of two-dimensional frames indexed by channel and tick:

- the reconstructed signal (`frame_gauss`);
- the truth labels: `orig_trackid`, `orig_pid` and `current_pid`, each with a
  1st and a 2nd contributor, plus the charges `charge_1st` and `charge_2nd`.

For each of the 8 anodes and their 3 wire planes, the tool cuts out the plane's
channels. It then shrinks each frame by a channel factor and a tick factor:

- signal and charge frames are summed block by block;
- label frames keep the labels of the two contributions with the largest
  charge in each block.

The model has five modules, one per part of the tool:

| file | module | models |
|---|---|---|
| `frames.dfy` | `Frames` | a frame, i.e. a channels x ticks integer matrix, and the numpy operations used on it: zeros and row selection; the element-wise sum `Add` is not used by the source and exists only to state that `rebin_sum` is linear |
| `channel_grouping.dfy` | `ChannelGrouping` | `AnodesChannelGrouping`: the channels of each anode, and the U/V/W plane channels of each anode |
| `rebinned_channel_plotter.dfy` | `RebinnedChannelPlotter` | `RebinnedChannelPlotter.determine_anode_plane`: the map from a global channel back to (anode, plane, index in plane) |
| `frame_rebinner.dfy` | `FrameRebinner` | `FrameRebinner.rebin_sum`, and `rebin_track_first_second` as methods with loops proved against specification functions |
| `frame_processor.dfy` | `FrameProcessor` | `HDF5FrameProcessor`: the loading of the two collections as a loop over dataset entries, `verify_dimensions`, and the anode/plane loop of `process` that builds the map of output frames keyed `anode{A}_plane{P}_{suffix}` |

The pure parts of the source are modelled as functions with lemmas:

- the channel ranges;
- the channel lookup;
- `rebin_sum`, which is reshape-and-sum.

The parts of the source that fill results step by step are modelled as
methods with loop invariants:

- `rebin_track_first_second`, with four nested loops and a sorted contribution
  list;
- `verify_dimensions`;
- the loading loops and the dispatch loop of `process`.

Each method is proved equal to a specification function, and the properties
are proved about those functions.

Two behaviours of the code are kept as written:

- **The gauss lookup.** The loader strips a leading `frame_` from every
  dataset name (`rebin_frames.py:254`, `265`). The gauss branch still asks for
  the key `frame_gauss` (`rebin_frames.py:305-306`). So a `_gauss` output is
  produced only when the reconstructed collection holds a dataset literally
  named `frame_frame_gauss` (`GaussKeyNeedsDoublePrefix`,
  `GaussOutputNeedsDoublePrefix`).
- **The odd-anode plane asymmetry.** Odd anodes own channels `[476, 952)`,
  `[1428, 1904)` and `[2488, 3072)` above their CRP base. Their planes stop
  one channel short of each of those ranges. So three channels per odd anode
  lie in the anode but in no plane (`PlanesWithinAnode`, `GapChannels`).

Two consequences of the code are worth stating plainly:

- **Channels per anode.** `get_anode_channels` concatenates
  476 + 476 + 584 = 1536 channels (`AnodeChannelsLayout`).
- **Both charges count.** Take `charge_1st = [[5,0],[0,3]]` and
  `data_1st = [[7,0],[0,9]]`, with 2 x 2 factors. Every positive charge in
  the block is collected, including the pair with charge 3. So `out_1st` is
  `[[7]]` and `out_2nd` is `[[9]]` (`TrackExample`).

Charges and labels are integers. Python's `//` and `%` floor, which for the
positive divisors used here is Dafny's `/` and `%`.

## Model

| member | source | states |
|---|---|---|
| ChannelGrouping.AnodeChannels | labelling-2d/rebin_frames.py:25-47 | get_anode_channels(n) has 1536 channels; AnodeChannelsLayout gives their order and CRP window, AnodeChannelsMember their exact membership |
| ChannelGrouping.AnodeChannelsLayout | labelling-2d/rebin_frames.py:25-47 | every anode has 1536 channels, strictly increasing, all inside its CRP's 3072-channel window starting at 3072 * (n // 2) |
| ChannelGrouping.AnodeChannelsMember | labelling-2d/rebin_frames.py:30-47 | a channel belongs to anode n exactly when its offset from the CRP base lies in the CRU0 sub-ranges (even n) or the CRU1 sub-ranges (odd n) |
| ChannelGrouping.CrpPartition | labelling-2d/rebin_frames.py:30-47 | the even and the odd anode of one CRP share no channel, and together they hold exactly the 3072 channels of that CRP |
| ChannelGrouping.AnodesDisjoint | labelling-2d/rebin_frames.py:25-52 | no channel belongs to two different anodes among 0..7 |
| ChannelGrouping.AnodesCoverDetector | labelling-2d/rebin_frames.py:25-52 | a channel belongs to some anode 0..7 exactly when it lies in [0, 12288) |
| ChannelGrouping.ChannelInItsCrp | labelling-2d/rebin_frames.py:30-47 | every channel of anode n lies in CRP n // 2: channel // 3072 == n // 2 |
| ChannelGrouping.AllAnodesChannels | labelling-2d/rebin_frames.py:50-52 | the map has exactly the keys 0..7, and each key maps to that anode's channel list |
| ChannelGrouping.AnodePlanes | labelling-2d/rebin_frames.py:55-88 | get_anode_planes gives exactly the keys 0, 1, 2, and plane p has PlaneEnd - PlaneStart channels (476/476/584 for even anodes, 475/475/583 for odd ones) |
| ChannelGrouping.PlaneChannels | labelling-2d/rebin_frames.py:69-88 | plane p of anode a is the run of consecutive channels starting PlaneStart(a, p) above the CRP base 3072 * (a // 2), of length PlaneEnd - PlaneStart |
| ChannelGrouping.AnodePlanesLayout | labelling-2d/rebin_frames.py:55-88 | the planes map has keys {0, 1, 2}; each plane is strictly increasing (so the sort changes nothing) and inside the CRP; sizes are 476/476/584 for even anodes and 475/475/583 for odd ones; U ends before V starts and V ends before W starts |
| ChannelGrouping.PlaneLayout | labelling-2d/rebin_frames.py:69-88 | one plane is a strictly increasing run of consecutive channels inside the anode's CRP, of length end minus start |
| ChannelGrouping.PlaneMember | labelling-2d/rebin_frames.py:69-82 | a channel is in plane p of anode a exactly when its offset from the CRP base lies in that plane's half-open range |
| ChannelGrouping.PlanesDisjoint | labelling-2d/rebin_frames.py:69-88 | the three planes of an anode share no channel |
| ChannelGrouping.PlanesWithinAnode | labelling-2d/rebin_frames.py:36-82 | every plane channel belongs to the anode; a channel of the anode is in none of its planes exactly when the anode is odd and the channel is 951, 1903 or 3071 above the CRP base |
| ChannelGrouping.PlaneChannelsBound | labelling-2d/rebin_frames.py:290-296 | for anodes 0..7, every plane channel is a row index in [0, 12287), and the last channel of W of anode 7 is 12286 |
| RebinnedChannelPlotter.DetermineAnodePlane | labelling-2d/plot_rebinned_channels.py:70-110 | for every integer channel: anode // 2 == channel // 3072; plane is 0, 1 or 2; the index lies within the full sub-range width (476, 476 or 584); the channel equals CRP base + PlaneStart(anode, plane) + index, the same start get_anode_planes uses |
| RebinnedChannelPlotter.DetermineInvertsPlanes | labelling-2d/plot_rebinned_channels.py:70-110 | round trip: the channel at position i of plane p of anode a maps back to exactly (a, p, i) |
| RebinnedChannelPlotter.DetermineMatchesAnodeChannels | labelling-2d/plot_rebinned_channels.py:77-107 | the reported anode owns the channel in get_anode_channels |
| RebinnedChannelPlotter.GapChannels | labelling-2d/plot_rebinned_channels.py:86-105 | channels 951, 1903 and 3071 above a CRP base map to the odd anode with index 475, 475 and 583, one past the plane's last row; they are in that anode but in no plane |
| RebinnedChannelPlotter.NoAnodeBoundCheck | labelling-2d/plot_rebinned_channels.py:77-107 | there is no range check: the anode is at least 8 exactly when the channel is at least 12288, and negative exactly when the channel is negative |
| FrameRebinner.RebinSum | labelling-2d/rebin_frames.py:118-132 | the result is a well-formed (n_ch // rc) x (n_ticks // rt) frame |
| FrameRebinner.RebinSumCell | labelling-2d/rebin_frames.py:118-132 | cell (i, j) is the sum of the input over channels [i*rc, (i+1)*rc) and ticks [j*rt, (j+1)*rt), and that block lies inside the input |
| FrameRebinner.RebinSumIdentity | labelling-2d/rebin_frames.py:106-132 | with both factors 1 the output equals the input |
| FrameRebinner.RebinSumTotal | labelling-2d/rebin_frames.py:118-132 | the grand total of the output equals the total of the input's truncated region: trailing channels and ticks are dropped, nothing else is lost |
| FrameRebinner.RebinSumLinear | labelling-2d/rebin_frames.py:106-132 | rebinning the element-wise sum of two frames of one shape equals the sum of their rebinnings |
| FrameRebinner.RebinSumOnesExample | labelling-2d/rebin_frames.py:106-132 | a 4 x 4 frame of ones rebinned by 2 x 2 is a 2 x 2 frame of fours |
| FrameRebinner.TrackFirstSecond | labelling-2d/rebin_frames.py:158-164 | both outputs are well-formed (n_ch // rc) x (n_ticks // rt) frames |
| FrameRebinner.ChannelContributions | labelling-2d/rebin_frames.py:179-183 | the tick loop of one channel appends exactly that channel's collected pairs, tick by tick, the 1st before the 2nd |
| FrameRebinner.CollectContributions | labelling-2d/rebin_frames.py:176-183 | the nested channel and tick loops build exactly the block's contribution list in channel-major order |
| FrameRebinner.BlockOf | labelling-2d/rebin_frames.py:168-183 | the contributions gathered for block (i, j) are those of channels [i*rc, i*rc+rc) and ticks [j*rt, j*rt+rt); the min clipping never shortens a block |
| FrameRebinner.RebinRow | labelling-2d/rebin_frames.py:171-190 | row i of both outputs has n_ticks // rt cells, and cell j holds the labels of the first two contributions of block (i, j) after the descending sort, 0 where there are none |
| FrameRebinner.RebinTrackFirstSecond | labelling-2d/rebin_frames.py:135-192 | the loop-filled outputs equal the specification TrackFirstSecond, cell for cell |
| FrameRebinner.FirstMaxIndex | labelling-2d/rebin_frames.py:187 | the position of a largest charge, with every earlier pair strictly smaller: the earliest maximum |
| FrameRebinner.SortByChargeDesc | labelling-2d/rebin_frames.py:187 | the sort keeps the number of contributions; SortPermutes, SortDescends and SortPicksFirstMax state that it is a stable descending sort by charge |
| FrameRebinner.SortPermutes | labelling-2d/rebin_frames.py:187 | the sort is a permutation of the contributions (equal multisets) |
| FrameRebinner.SortDescends | labelling-2d/rebin_frames.py:187 | the sorted contributions have non-increasing charges |
| FrameRebinner.SortPicksFirstMax | labelling-2d/rebin_frames.py:187 | stability: the sort puts the earliest maximum-charge pair first, followed by the sort of the remaining pairs |
| FrameRebinner.TopTwoOfSorted | labelling-2d/rebin_frames.py:185-190 | no pairs gives (0, 0); otherwise the 1st label is that of the earliest maximum, the 2nd is 0 for a single pair and otherwise the earliest maximum of the rest (which may carry the same label) |
| FrameRebinner.CellContributionsMembers | labelling-2d/rebin_frames.py:180-183 | a pair is collected at a cell exactly when it is (charge_1st, data_1st) with positive charge or (charge_2nd, data_2nd) with positive charge |
| FrameRebinner.TickContributionsMembers | labelling-2d/rebin_frames.py:179-183 | a pair is collected along one channel exactly when some tick of the range contributes it |
| FrameRebinner.BlockContributionsMembers | labelling-2d/rebin_frames.py:176-183 | a pair is in the block's list exactly when some cell of the block contributes it |
| FrameRebinner.BlockChargesPositive | labelling-2d/rebin_frames.py:180-183 | every collected pair has a positive charge |
| FrameRebinner.BlockEmptyIffNoCharge | labelling-2d/rebin_frames.py:178-185 | a block's list is empty exactly when neither charge array has a positive value in the block |
| FrameRebinner.TrackCell | labelling-2d/rebin_frames.py:167-190 | for cell (i, j): no positive charge gives 0 and 0; otherwise out_1st holds the label of the earliest maximum-charge pair; one pair gives out_2nd 0; more pairs give out_2nd the earliest maximum among the others |
| FrameRebinner.TrackExample | labelling-2d/rebin_frames.py:135-192 | charges [[5,0],[0,3]] with labels [[7,0],[0,9]] and 2 x 2 factors give out_1st [[7]] and out_2nd [[9]] |
| FrameRebinner.TrackTieExample | labelling-2d/rebin_frames.py:180-190 | with equal charges in both arrays of one cell the 1st array's label comes first: out_1st 4, out_2nd 8 |
| FrameProcessor.CleanKey | labelling-2d/rebin_frames.py:254 | a name starting with "frame_" loses exactly that prefix; any other name is kept |
| FrameProcessor.CleanKeyGauss | labelling-2d/rebin_frames.py:254 | the loaded key is "frame_gauss" exactly for the dataset "frame_frame_gauss", and "gauss" exactly for "frame_gauss" or "gauss" |
| FrameProcessor.Loaded | labelling-2d/rebin_frames.py:248-268 | the map the loading loops build from a group's entries; its meaning is stated by LoadedKeys (which keys) and LoadedValues (the last entry per key wins), and LoadFrames is proved equal to it |
| FrameProcessor.LoadFrames | labelling-2d/rebin_frames.py:248-268 | the loop stores every entry whose lower-cased name contains "frame" under its cleaned name, later entries overwriting earlier ones; a file without group "/1" gives the empty map |
| FrameProcessor.LoadedKeys | labelling-2d/rebin_frames.py:250-255 | a key is loaded exactly when some entry whose lower-cased name contains "frame" cleans to it |
| FrameProcessor.LoadedValues | labelling-2d/rebin_frames.py:250-255 | a key holds the frame of the last entry that cleans to it |
| FrameProcessor.GaussKeyNeedsDoublePrefix | labelling-2d/rebin_frames.py:250-305 | the loaded collection holds "frame_gauss" exactly when some dataset is named "frame_frame_gauss" |
| FrameProcessor.VerifyDimensions | labelling-2d/rebin_frames.py:220-233 | returns true exactly when all frames of the map have one shape, so true for the empty map |
| FrameProcessor.OutKey | labelling-2d/rebin_frames.py:302-308 | the output name carries the anode digit at position 5, the plane digit at position 12 and the output suffix from position 14 on |
| FrameProcessor.OutKeyInjective | labelling-2d/rebin_frames.py:302-365 | two output names are equal exactly when anode, plane and output are all equal, so no write of the loop overwrites another |
| FrameProcessor.ReadyAfterCheck | labelling-2d/rebin_frames.py:274-279 | once the merged map passes verify_dimensions, all truth frames share one shape and the branches that run can run |
| FrameProcessor.PlaneSlice | labelling-2d/rebin_frames.py:296-306 | the slice has one row per plane channel and the frame's ticks |
| FrameProcessor.Expected | labelling-2d/rebin_frames.py:305-367 | each output of plane p of anode a is a well-formed frame with one row per rc plane channels and one column per rt ticks of its input |
| FrameProcessor.PlaneFramesLookup | labelling-2d/rebin_frames.py:304-367 | one iteration of the plane loop produces output o exactly when its branch condition holds, and then produces the expected frame |
| FrameProcessor.RebinGauss | labelling-2d/rebin_frames.py:305-308 | the gauss branch adds the block sum of the plane's rows of "frame_gauss" when that key exists, and otherwise leaves the map unchanged |
| FrameProcessor.RebinLabelKind | labelling-2d/rebin_frames.py:314-356 | a label-kind branch adds its 1st and 2nd outputs from rebin_track_first_second on the plane slices when `{kind}_1st` exists |
| FrameProcessor.RebinCharge | labelling-2d/rebin_frames.py:359-367 | the charge branch adds the block sums of both charge frames when `charge_1st` exists |
| FrameProcessor.RebinPlane | labelling-2d/rebin_frames.py:295-367 | one plane iteration applies the gauss, three label-kind and charge branches in the source's order |
| FrameProcessor.RebinAnode | labelling-2d/rebin_frames.py:290-367 | the inner loop over 3 planes extends the map written for the earlier anodes by this anode's planes |
| FrameProcessor.RebinAll | labelling-2d/rebin_frames.py:288-367 | the nested anode and plane loops build exactly the specification map of outputs |
| FrameProcessor.Process | labelling-2d/rebin_frames.py:274-379 | succeeds exactly when the merged frames have one shape; on success the outputs are the specification map, on failure nothing is written |
| FrameProcessor.PlaneWriteAt | labelling-2d/rebin_frames.py:302-367 | one plane's writes set only the keys of that plane's produced outputs and keep every other key |
| FrameProcessor.Written | labelling-2d/rebin_frames.py:290-367 | `rebinned_data` after the first n plane iterations; its meaning is stated by WrittenAt (which outputs are present, with which frames) and WrittenKeys (no other key) |
| FrameProcessor.WrittenAt | labelling-2d/rebin_frames.py:290-367 | after the first n plane iterations, the name of output o of (a, p) is present exactly when (a, p) was already visited and produced o, and it holds that iteration's frame |
| FrameProcessor.WrittenKeys | labelling-2d/rebin_frames.py:290-367 | every written key is the name of an output produced by some visited (anode, plane) |
| FrameProcessor.Outputs | labelling-2d/rebin_frames.py:288-367 | `rebinned_data` after all 24 iterations; its meaning is stated by OutputsContents and OutputAt, and RebinAll and Process are proved to produce it |
| FrameProcessor.OutputsContents | labelling-2d/rebin_frames.py:288-367 | the final map holds output o of every anode 0..7 and plane 0..2 exactly when o's branch runs, holds the expected frame there, and holds no other keys |
| FrameProcessor.OutputAt | labelling-2d/rebin_frames.py:288-367 | one output name is present exactly when its branch runs, and holds the expected frame |
| FrameProcessor.GaussOutputNeedsDoublePrefix | labelling-2d/rebin_frames.py:248-308 | a `_gauss` output exists exactly when the reconstructed file has a dataset literally named "frame_frame_gauss" |
| FrameProcessor.SavedName | labelling-2d/rebin_frames.py:374 | every saved dataset name starts with "frame_" |
| FrameProcessor.SavedNameRoundTrip | labelling-2d/rebin_frames.py:372-375 | an output name is saved as "frame_" + name, which the loader would keep and clean back to the same name |

## Left out

- HDF5 files are not modelled: opening them, the `/1` group lookup, dataset
  creation and gzip compression are outside the model. A collection enters as
  the optional sequence of (dataset name, frame) entries of group `/1`, in the
  order `keys()` yields them. `load_frame` is the frame of an entry.
- All printing, the banner and error messages, `argparse` and `main` are left
  out. They have no effect on the results.
- The plotting and inspection scripts are left out; they are matplotlib and
  printing code. Only `determine_anode_plane` of the plotter is modelled.
- numpy dtypes and floating-point charges are not modelled. Charges and labels
  are unbounded integers, so the dtype of the pre-allocated outputs does not
  matter.
- Only two-dimensional frames are modelled. A frame of another rank would make
  the shape unpacking fail.
- `SliceRows` does not model negative indices. The plane channels it slices
  with are never negative.
- The failures of `process` are not modelled as error results. They are the
  preconditions `CanProcess` and `BranchesRunnable`:
  - an empty merged map, whose first frame cannot be read;
  - a label kind's `_1st` frame without its `_2nd` frame;
  - a label kind or the charge branch without both charge frames;
  - a rebin factor below 1 (zero divides by zero; a negative factor gives
    `reshape` and `np.zeros` negative dimensions);
  - a frame with too few channels for the plane slices.
  Each of these raises an exception in the source.
- `np.sort` on the plane ranges is the identity in the model:
  `AnodePlanesLayout` proves the ranges already strictly increasing.
- The source computes and then ignores some values: `get_all_anodes_channels()`
  in `process`, the `processed_frames` set, and the `n_channels`, `n_ticks`,
  `cru_id` and `plane_type` values. These are not modelled; nothing reads
  them.
- Which shape `verify_dimensions` takes as "first" depends on dict order. It
  only changes the frame named in the error message. `VerifyDimensions`
  visits the keys in an unspecified order and is proved for every order.
- The order in which the output datasets are written to the file is not
  modelled. The output is a map.
- `str.lower()` is modelled on ASCII letters only.
- The merged map gives truth frames precedence over reconstructed frames of
  the same name (`{**frames_rec, **frames_tru}`), and that is modelled as
  `rec + tru`. A reconstructed frame shadowed this way is not shape-checked,
  as in the source.
