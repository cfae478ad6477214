/** The batch endpoint loadAllByXYZ of api/api/views.py: for every group of map
    tiles, the per-tile figures in order, and one summary per group (total area,
    total vegetation area, mean vegetation percentage). The per-tile analysis
    getImageByXYZ is a parameter `lookup` (it fetches and analyses an image). */
module Views {
  import opened Errors
  import opened Analyzer

  /** One requested tile: its x, y, z tile coordinates and the latitude/longitude
      passed on to the analysis. */
  datatype Region = Region(x: int, y: int, z: int, lat: real, lng: real)

  /** A group summary, the `info` record. */
  datatype Info = Info(totalArea: real, totalTree: real, percent: real)

  /** The response body: `data` and `percentage`. */
  datatype Response = Response(data: seq<seq<TileFigures>>, percentage: seq<Info>)

  datatype Measure = Tree | Area | Percent

  function Pick(t: TileFigures, m: Measure): real
  {
    match m
    case Tree => t.area
    case Area => t.totalArea
    case Percent => t.perc
  }

  /** The sum of one measure over the tiles, accumulated from the first tile on. */
  function Total(ts: seq<TileFigures>, m: Measure): real
  {
    if ts == [] then 0.0 else Total(ts[..|ts| - 1], m) + Pick(ts[|ts| - 1], m)
  }

  /** The per-tile figures of a group, one per region, in region order. */
  function Lookups(regions: seq<Region>, lookup: Region -> TileFigures): (ts: seq<TileFigures>)
    ensures |ts| == |regions|
    ensures forall j :: 0 <= j < |regions| ==> ts[j] == lookup(regions[j])
  {
    seq(|regions|, j requires 0 <= j < |regions| => lookup(regions[j]))
  }

  /** A group's summary: the summed areas and the mean percentage; an empty group
      divides by zero. */
  function GroupInfo(ts: seq<TileFigures>): (r: Result<Info>)
    ensures r.Err? <==> ts == []
    ensures r.Err? ==> r.error == ZeroDivision
    ensures r.Ok? ==> r.value.percent * |ts| as real == Total(ts, Percent)
  {
    if ts == [] then Err(ZeroDivision)
    else Ok(Info(Total(ts, Area), Total(ts, Tree), Total(ts, Percent) / |ts| as real))
  }

  /** loadAllByXYZ: one list of tile figures and one summary per group, both in group
      order; the summary of a group depends on that group's tiles only. The first
      empty group raises a division by zero and no response is produced. */
  method LoadAllByXYZ(groups: seq<seq<Region>>, lookup: Region -> TileFigures)
    returns (r: Result<Response>)
    ensures r.Ok? <==> forall i :: 0 <= i < |groups| ==> groups[i] != []
    ensures r.Err? ==> r.error == ZeroDivision
    ensures r.Ok? ==> |r.value.data| == |groups| && |r.value.percentage| == |groups|
    ensures r.Ok? ==> forall i :: 0 <= i < |groups| ==>
              && r.value.data[i] == Lookups(groups[i], lookup)
              && GroupInfo(r.value.data[i]) == Ok(r.value.percentage[i])
  {
    var resp: seq<seq<TileFigures>> := [];
    var p: seq<Info> := [];
    for i := 0 to |groups|
      invariant |resp| == i && |p| == i
      invariant forall k :: 0 <= k < i ==>
                  && groups[k] != []
                  && resp[k] == Lookups(groups[k], lookup)
                  && GroupInfo(resp[k]) == Ok(p[k])
    {
      var gr: seq<TileFigures> := [];
      var info := Info(0.0, 0.0, 0.0);
      for j := 0 to |groups[i]|
        invariant gr == Lookups(groups[i][..j], lookup)
        invariant info == Info(Total(gr, Area), Total(gr, Tree), Total(gr, Percent))
      {
        var perc := lookup(groups[i][j]);
        info := info.(totalTree := info.totalTree + perc.area);
        info := info.(totalArea := info.totalArea + perc.totalArea);
        info := info.(percent := info.percent + perc.perc);
        assert (gr + [perc])[..|gr|] == gr;
        gr := gr + [perc];
      }
      assert groups[i][..|groups[i]|] == groups[i];
      if |gr| == 0 {
        return Err(ZeroDivision);
      }
      info := info.(percent := info.percent / |gr| as real);
      resp := resp + [gr];
      p := p + [info];
    }
    r := Ok(Response(resp, p));
  }

  /** With consistent tile figures, a group's vegetation area is between zero and its
      total area. */
  lemma {:induction false} TreeWithinArea(ts: seq<TileFigures>)
    requires forall j :: 0 <= j < |ts| ==> Consistent(ts[j])
    ensures 0.0 <= Total(ts, Tree) <= Total(ts, Area)
    decreases |ts|
  {
    if ts != [] {
      var last := ts[|ts| - 1];
      TreeWithinArea(ts[..|ts| - 1]);
      assert Consistent(last);
      assert last.totalArea * last.perc <= last.totalArea * 100.0;
    }
  }

  /** With percentages in [0, 100], their sum is between 0 and 100 per tile. */
  lemma {:induction false} PercentSumBounds(ts: seq<TileFigures>)
    requires forall j :: 0 <= j < |ts| ==> 0.0 <= ts[j].perc <= 100.0
    ensures 0.0 <= Total(ts, Percent) <= 100.0 * |ts| as real
    decreases |ts|
  {
    if ts != [] {
      PercentSumBounds(ts[..|ts| - 1]);
    }
  }

  /** The summary of a non-empty group of consistent tiles: vegetation area at most the
      total area, and a mean percentage in [0, 100]. */
  lemma GroupInfoBounds(ts: seq<TileFigures>)
    requires ts != []
    requires forall j :: 0 <= j < |ts| ==> Consistent(ts[j])
    ensures var info := GroupInfo(ts).value;
            && 0.0 <= info.totalTree <= info.totalArea
            && 0.0 <= info.percent <= 100.0
  {
    TreeWithinArea(ts);
    PercentSumBounds(ts);
    var info := GroupInfo(ts).value;
    var n := |ts| as real;
    assert info.percent * n == Total(ts, Percent);
    assert info.percent * n <= 100.0 * n;
  }

  /** When every tile is analysed with a non-negative area and a percentage in
      [0, 100], each group's summary keeps vegetation within the area. */
  lemma GroupOfTilesBounds(regions: seq<Region>, lookup: Region -> TileFigures,
                           ratio: Region -> real, perc: Region -> real)
    requires regions != []
    requires forall g :: lookup(g) == TileFiguresFor(ratio(g), perc(g))
    requires forall j :: 0 <= j < |regions| ==>
               0.0 <= ratio(regions[j]) && 0.0 <= perc(regions[j]) <= 100.0
    ensures var info := GroupInfo(Lookups(regions, lookup)).value;
            && 0.0 <= info.totalTree <= info.totalArea
            && 0.0 <= info.percent <= 100.0
  {
    var ts := Lookups(regions, lookup);
    forall j | 0 <= j < |ts|
      ensures Consistent(ts[j])
    {
      assert ts[j] == TileFiguresFor(ratio(regions[j]), perc(regions[j]));
    }
    GroupInfoBounds(ts);
  }
}
