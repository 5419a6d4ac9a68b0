/**
 * The channel-to-plane lookup of the rebinned-channel plotter
 * (RebinnedChannelPlotter.determine_anode_plane), with its relation to the
 * channel grouping it inverts.
 */
module RebinnedChannelPlotter {
  import opened ChannelGrouping

  /** (anode_id, plane_id, channel_index_in_plane) */
  datatype Location = Location(anode: int, plane: int, index: int)

  /** Width of the full sub-range of a plane in get_anode_channels. */
  function SubRangeWidth(plane: int): int
    requires 0 <= plane < PlaneCount
  {
    [476, 476, 584][plane]
  }

  /**
   * determine_anode_plane(channel).  The result decomposes the channel: its
   * anode is 2 * (channel // 3072) + cru for a CRU 0 or 1, its plane is one of
   * 0, 1, 2, and the channel is the one at position `index` of that CRU's
   * full sub-range for the plane, which starts where the plane of
   * get_anode_planes starts.
   */
  function DetermineAnodePlane(channel: int): (loc: Location)
    ensures loc.anode / 2 == channel / CrpChannels
    ensures 0 <= loc.plane < PlaneCount
    ensures 0 <= loc.index < SubRangeWidth(loc.plane)
    ensures channel == CrpChannels * (loc.anode / 2) + PlaneStart(loc.anode, loc.plane) + loc.index
  {
    var crp := channel / 3072;
    var chInCrp := channel % 3072;
    var (cru, planeInCru, chIdx) :=
      if chInCrp < 476 then (0, 0, chInCrp)
      else if chInCrp < 952 then (1, 0, chInCrp - 476)
      else if chInCrp < 1428 then (0, 1, chInCrp - 952)
      else if chInCrp < 1904 then (1, 1, chInCrp - 1428)
      else if chInCrp < 2488 then (0, 2, chInCrp - 1904)
      else (1, 2, chInCrp - 2488);
    Location(crp * 2 + cru, planeInCru, chIdx)
  }

  /** Div/mod of a channel written as a CRP base plus an offset inside the CRP. */
  lemma SplitChannel(crp: int, r: int)
    requires 0 <= r < CrpChannels
    ensures (CrpChannels * crp + r) / CrpChannels == crp
    ensures (CrpChannels * crp + r) % CrpChannels == r
  {
  }

  /**
   * Round trip: the channel at position i of plane p of anode a is mapped back
   * to exactly (a, p, i), for every anode id the source accepts.
   */
  lemma DetermineInvertsPlanes(a: int, p: int, i: int)
    requires 0 <= p < PlaneCount
    requires 0 <= i < |PlaneChannels(a, p)|
    ensures DetermineAnodePlane(PlaneChannels(a, p)[i]) == Location(a, p, i)
  {
    PlaneChannelsAsRange(a, p);
    var r := PlaneStart(a, p) + i;
    assert PlaneChannels(a, p)[i] == CrpChannels * (a / 2) + r;
    SplitChannel(a / 2, r);
  }

  /**
   * The anode determine_anode_plane reports for a channel owns that channel
   * in get_anode_channels; with AnodesDisjoint, it is the only one among 0..7.
   */
  lemma DetermineMatchesAnodeChannels(channel: int)
    ensures channel in AnodeChannels(DetermineAnodePlane(channel).anode)
  {
    var loc := DetermineAnodePlane(channel);
    AnodeChannelsMember(loc.anode, channel);
  }

  /**
   * The three channels per CRP that get_anode_channels gives an odd anode but
   * get_anode_planes leaves out (951, 1903 and 3071 above the CRP base) are
   * mapped to that odd anode with index 475, 475 and 583: one past the last
   * row of the plane, so no rebinned frame of that plane has such a row.
   */
  lemma GapChannels(channel: int)
    requires var r := channel % CrpChannels; r == 951 || r == 1903 || r == 3071
    ensures var loc := DetermineAnodePlane(channel);
      && loc.anode == 2 * (channel / CrpChannels) + 1
      && loc.index == (if channel % CrpChannels == 3071 then 583 else 475)
      && loc.index == |PlaneChannels(loc.anode, loc.plane)|
      && InAnodeOutsidePlanes(loc.anode, channel)
  {
    var loc := DetermineAnodePlane(channel);
    PlaneChannelsAsRange(loc.anode, loc.plane);
    PlanesWithinAnode(loc.anode);
    DetermineMatchesAnodeChannels(channel);
    assert InAnodeOutsidePlanes(loc.anode, channel);
  }

  /**
   * There is no upper bound check: the reported anode is at least 8 exactly
   * when the channel is at least 12288, and negative exactly when the channel is.
   */
  lemma NoAnodeBoundCheck(channel: int)
    ensures DetermineAnodePlane(channel).anode >= AnodeCount <==> channel >= AnodeCount / 2 * CrpChannels
    ensures DetermineAnodePlane(channel).anode < 0 <==> channel < 0
  {
  }
}
