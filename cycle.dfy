/** `job`: one update cycle over the configured assets. */
module Cycle {
  import opened Wrappers
  import opened Assets
  import opened Storage
  import opened PriceApi
  import opened Screenshot
  import opened Captions
  import opened Telegram

  /** What the outside world does for one asset during a cycle: the price API's
      answer, the browser's behaviour, and the wall-clock reading used in the caption. */
  datatype AssetWorld = AssetWorld(api: ApiResponse, browser: Browser, clock: string)

  /** The result of one iteration of the asset loop. */
  datatype Step = Abort(disk: Disk) | Skip(disk: Disk) | Keep(chart: Chart, disk: Disk)

  /** Charts collected so far, whether an exception ended the loop, and the disk. */
  datatype Gathered = Gathered(aborted: bool, charts: seq<Chart>, disk: Disk)

  /** Everything a cycle did that can be observed from outside. `delivery` is the
      result of `send_media_group`, absent when no send was attempted; `request` is
      what was posted. */
  datatype CycleReport = CycleReport(
    aborted: bool,
    charts: seq<Chart>,
    delivery: Option<bool>,
    request: Option<MediaRequest>,
    disk: Disk)

  /** `driver.quit()` raises, so the exception escapes the capture. */
  predicate Raises(world: AssetWorld)
  {
    world.browser.launches && world.browser.quitRaises
  }

  ghost predicate NoneRaise(worlds: seq<AssetWorld>)
  {
    forall k :: 0 <= k < |worlds| ==> !Raises(worlds[k])
  }

  /** The capture of `asset` against `disk` returns a path. */
  predicate Shot(asset: AssetSpec, world: AssetWorld, disk: Disk)
  {
    var r := CaptureOutcome(asset, disk, world.browser).0;
    r.Returned? && r.path.Some?
  }

  /** The chart `job` builds for an asset whose screenshot exists. */
  function ChartOf(asset: AssetSpec, world: AssetWorld, fmt: Price -> string): Chart
  {
    Chart(ScreenshotPath(asset.name), Caption(asset, GetPriceFromApi(world.api), fmt, world.clock))
  }

  /** One iteration of the loop in `job`: fetch the price, capture the chart, and
      keep the pair when a path came back and that file exists. */
  function ProcessAsset(asset: AssetSpec, world: AssetWorld, disk: Disk, fmt: Price -> string): (s: Step)
    ensures s.Abort? <==> Raises(world)
    ensures s.Keep? <==> Shot(asset, world, disk)
    ensures s.Keep? ==> s.chart == ChartOf(asset, world, fmt)
    ensures s.disk == CaptureOutcome(asset, disk, world.browser).1
  {
    var price := GetPriceFromApi(world.api);
    var captured := CaptureOutcome(asset, disk, world.browser);
    match captured.0
    case Raised => Abort(captured.1)
    case Returned(path) =>
      if path.Some? && path.value != "" && path.value in captured.1.files then
        Keep(Chart(path.value, Caption(asset, price, fmt, world.clock)), captured.1)
      else
        Skip(captured.1)
  }

  /** The asset loop of `job`, threading the disk from one asset to the next. An
      exception from a capture ends the loop (it is caught by `job`'s outer handler). */
  function Collect(assets: seq<AssetSpec>, worlds: seq<AssetWorld>, disk: Disk, fmt: Price -> string): (g: Gathered)
    requires |worlds| == |assets|
    ensures |g.charts| <= |assets|
    ensures disk.files <= g.disk.files
    ensures g.disk.unreadable == disk.unreadable && g.disk.undeletable == disk.undeletable
    ensures forall j :: 0 <= j < |g.charts| ==> g.charts[j].path in g.disk.files
    decreases |assets|
  {
    if assets == [] then Gathered(false, [], disk)
    else match ProcessAsset(assets[0], worlds[0], disk, fmt)
      case Abort(d) => Gathered(true, [], d)
      case Skip(d) => Collect(assets[1..], worlds[1..], d, fmt)
      case Keep(c, d) =>
        var g := Collect(assets[1..], worlds[1..], d, fmt);
        g.(charts := [c] + g.charts)
  }

  /** Reference definition: each asset judged on its own against the starting disk. */
  function Kept(assets: seq<AssetSpec>, worlds: seq<AssetWorld>, disk: Disk, fmt: Price -> string): seq<Chart>
    requires |worlds| == |assets|
    decreases |assets|
  {
    if assets == [] then []
    else (if Shot(assets[0], worlds[0], disk) then [ChartOf(assets[0], worlds[0], fmt)] else [])
         + Kept(assets[1..], worlds[1..], disk, fmt)
  }

  /** The disk after the cleanup loop: every collected path is removed unless
      removing it raises. */
  ghost function Cleaned(disk: Disk, charts: seq<Chart>): Disk
  {
    disk.(files := disk.files - (PathsBefore(charts, |charts|) - disk.undeletable))
  }

  ghost function WrittenPaths(assets: seq<AssetSpec>, worlds: seq<AssetWorld>): set<Path>
    requires |worlds| == |assets|
  {
    set k | 0 <= k < |assets| && Writes(worlds[k].browser) :: ScreenshotPath(assets[k].name)
  }

  ghost function ShotPaths(assets: seq<AssetSpec>, worlds: seq<AssetWorld>, disk: Disk): set<Path>
    requires |worlds| == |assets|
  {
    set k | 0 <= k < |assets| && Shot(assets[k], worlds[k], disk) :: ScreenshotPath(assets[k].name)
  }

  /** The cycle is cut short exactly when some capture's `driver.quit()` raises. */
  lemma {:induction false} CollectAborts(assets: seq<AssetSpec>, worlds: seq<AssetWorld>, disk: Disk, fmt: Price -> string)
    requires |worlds| == |assets|
    ensures Collect(assets, worlds, disk, fmt).aborted <==> exists k :: 0 <= k < |assets| && Raises(worlds[k])
    decreases |assets|
  {
    if assets != [] {
      var s := ProcessAsset(assets[0], worlds[0], disk, fmt);
      if !s.Abort? {
        CollectAborts(assets[1..], worlds[1..], s.disk, fmt);
        if exists k :: 0 <= k < |assets| && Raises(worlds[k]) {
          var k :| 0 <= k < |assets| && Raises(worlds[k]);
          assert k != 0;
          assert Raises(worlds[1..][k - 1]);
        }
        if exists k :: 0 <= k < |assets| - 1 && Raises(worlds[1..][k]) {
          var k :| 0 <= k < |assets| - 1 && Raises(worlds[1..][k]);
          assert Raises(worlds[k + 1]);
        }
      }
    }
  }

  lemma DistinctTail(assets: seq<AssetSpec>)
    requires assets != [] && DistinctPaths(assets)
    ensures DistinctPaths(assets[1..])
    ensures forall k :: 1 <= k < |assets| ==> ScreenshotPath(assets[k].name) != ScreenshotPath(assets[0].name)
  {
  }

  /** Threading the disk does not matter when every asset has its own file: the
      asset loop run from `d` keeps what judging each asset against `start` keeps,
      provided `d` and `start` agree on the assets' files. */
  lemma {:induction false} CollectKeepsWhatEachKeeps(
    assets: seq<AssetSpec>, worlds: seq<AssetWorld>, d: Disk, start: Disk, fmt: Price -> string)
    requires |worlds| == |assets|
    requires DistinctPaths(assets) && NoneRaise(worlds)
    requires forall k :: 0 <= k < |assets| ==>
               (ScreenshotPath(assets[k].name) in d.files <==> ScreenshotPath(assets[k].name) in start.files)
    ensures !Collect(assets, worlds, d, fmt).aborted
    ensures Collect(assets, worlds, d, fmt).charts == Kept(assets, worlds, start, fmt)
    decreases |assets|
  {
    if assets != [] {
      var p := ScreenshotPath(assets[0].name);
      assert p in d.files <==> p in start.files;
      assert Shot(assets[0], worlds[0], d) == Shot(assets[0], worlds[0], start);
      var s := ProcessAsset(assets[0], worlds[0], d, fmt);
      assert !Raises(worlds[0]);
      DistinctTail(assets);
      forall k | 0 <= k < |assets| - 1
        ensures ScreenshotPath(assets[1..][k].name) in s.disk.files <==> ScreenshotPath(assets[1..][k].name) in start.files
      {
        assert assets[1..][k] == assets[k + 1];
      }
      assert NoneRaise(worlds[1..]) by {
        forall k | 0 <= k < |worlds| - 1 ensures !Raises(worlds[1..][k]) {
          assert worlds[1..][k] == worlds[k + 1];
        }
      }
      CollectKeepsWhatEachKeeps(assets[1..], worlds[1..], s.disk, start, fmt);
    }
  }

  /** `charts_data` holds exactly the assets whose screenshot exists, one pair
      each, in configuration order; an asset without one is skipped and does not
      disturb the others. */
  lemma CollectIsKept(assets: seq<AssetSpec>, worlds: seq<AssetWorld>, disk: Disk, fmt: Price -> string)
    requires |worlds| == |assets|
    requires DistinctPaths(assets) && NoneRaise(worlds)
    ensures !Collect(assets, worlds, disk, fmt).aborted
    ensures Collect(assets, worlds, disk, fmt).charts == Kept(assets, worlds, disk, fmt)
  {
    CollectKeepsWhatEachKeeps(assets, worlds, disk, disk, fmt);
  }

  /** The asset loop only ever adds the screenshot files it wrote. */
  lemma {:induction false} CollectDisk(assets: seq<AssetSpec>, worlds: seq<AssetWorld>, disk: Disk, fmt: Price -> string)
    requires |worlds| == |assets|
    requires NoneRaise(worlds)
    ensures Collect(assets, worlds, disk, fmt).disk
         == disk.(files := disk.files + WrittenPaths(assets, worlds))
    decreases |assets|
  {
    if assets == [] {
      assert WrittenPaths(assets, worlds) == {};
    } else {
      var s := ProcessAsset(assets[0], worlds[0], disk, fmt);
      assert !Raises(worlds[0]);
      assert NoneRaise(worlds[1..]) by {
        forall k | 0 <= k < |worlds| - 1 ensures !Raises(worlds[1..][k]) {
          assert worlds[1..][k] == worlds[k + 1];
        }
      }
      CollectDisk(assets[1..], worlds[1..], s.disk, fmt);
      WrittenPathsCons(assets, worlds);
    }
  }

  /** The written paths of a list: that of its head asset and those of the rest. */
  lemma WrittenPathsCons(assets: seq<AssetSpec>, worlds: seq<AssetWorld>)
    requires |worlds| == |assets| && assets != []
    ensures WrittenPaths(assets, worlds)
         == (if Writes(worlds[0].browser) then {ScreenshotPath(assets[0].name)} else {})
            + WrittenPaths(assets[1..], worlds[1..])
  {
    var head := if Writes(worlds[0].browser) then {ScreenshotPath(assets[0].name)} else {};
    var all, rest := WrittenPaths(assets, worlds), WrittenPaths(assets[1..], worlds[1..]);
    forall p | p in all ensures p in head + rest {
      var k :| 0 <= k < |assets| && Writes(worlds[k].browser) && ScreenshotPath(assets[k].name) == p;
      if k > 0 {
        assert assets[1..][k - 1] == assets[k] && worlds[1..][k - 1] == worlds[k];
      }
    }
    forall p | p in rest ensures p in all {
      var k :| 0 <= k < |assets| - 1 && Writes(worlds[1..][k].browser) && ScreenshotPath(assets[1..][k].name) == p;
      assert assets[1..][k] == assets[k + 1] && worlds[1..][k] == worlds[k + 1];
    }
  }

  /** The paths of a concatenation are the paths of its two parts. */
  lemma PathsConcat(front: seq<Chart>, tail: seq<Chart>)
    ensures PathsBefore(front + tail, |front + tail|) == PathsBefore(front, |front|) + PathsBefore(tail, |tail|)
  {
    var kept := front + tail;
    forall p | p in PathsBefore(kept, |kept|) ensures p in PathsBefore(front, |front|) + PathsBefore(tail, |tail|) {
      var i :| 0 <= i < |kept| && kept[i].path == p;
      if i >= |front| {
        assert kept[i] == tail[i - |front|];
      }
    }
    forall p | p in PathsBefore(front, |front|) ensures p in PathsBefore(kept, |kept|) {
      var i :| 0 <= i < |front| && front[i].path == p;
      assert kept[i] == front[i];
    }
    forall p | p in PathsBefore(tail, |tail|) ensures p in PathsBefore(kept, |kept|) {
      var i :| 0 <= i < |tail| && tail[i].path == p;
      assert kept[i + |front|] == tail[i];
    }
  }

  /** The returned paths of a list: those of its head asset and those of the rest. */
  lemma ShotPathsCons(assets: seq<AssetSpec>, worlds: seq<AssetWorld>, disk: Disk)
    requires |worlds| == |assets| && assets != []
    ensures ShotPaths(assets, worlds, disk)
         == (if Shot(assets[0], worlds[0], disk) then {ScreenshotPath(assets[0].name)} else {})
            + ShotPaths(assets[1..], worlds[1..], disk)
  {
    var head := if Shot(assets[0], worlds[0], disk) then {ScreenshotPath(assets[0].name)} else {};
    var all, rest := ShotPaths(assets, worlds, disk), ShotPaths(assets[1..], worlds[1..], disk);
    forall p | p in all ensures p in head + rest {
      var k :| 0 <= k < |assets| && Shot(assets[k], worlds[k], disk) && ScreenshotPath(assets[k].name) == p;
      if k > 0 {
        assert assets[1..][k - 1] == assets[k] && worlds[1..][k - 1] == worlds[k];
      }
    }
    forall p | p in rest ensures p in all {
      var k :| 0 <= k < |assets| - 1 && Shot(assets[1..][k], worlds[1..][k], disk) && ScreenshotPath(assets[1..][k].name) == p;
      assert assets[1..][k] == assets[k + 1] && worlds[1..][k] == worlds[k + 1];
    }
  }

  /** The paths of the kept charts are the paths of the assets whose capture returned one. */
  lemma {:induction false} KeptPaths(assets: seq<AssetSpec>, worlds: seq<AssetWorld>, disk: Disk, fmt: Price -> string)
    requires |worlds| == |assets|
    ensures var kept := Kept(assets, worlds, disk, fmt);
      PathsBefore(kept, |kept|) == ShotPaths(assets, worlds, disk)
    decreases |assets|
  {
    if assets == [] {
      assert ShotPaths(assets, worlds, disk) == {};
    } else {
      var tail := Kept(assets[1..], worlds[1..], disk, fmt);
      KeptPaths(assets[1..], worlds[1..], disk, fmt);
      var front := if Shot(assets[0], worlds[0], disk) then [ChartOf(assets[0], worlds[0], fmt)] else [];
      PathsConcat(front, tail);
      ShotPathsCons(assets, worlds, disk);
      assert PathsBefore(front, |front|)
          == if Shot(assets[0], worlds[0], disk) then {ScreenshotPath(assets[0].name)} else {};
    }
  }

  /** What a completed cycle leaves on disk: an asset's screenshot file remains
      exactly when it was there before and the capture did not return it (and it is
      not protected against removal). */
  lemma LeftBehind(assets: seq<AssetSpec>, worlds: seq<AssetWorld>, disk: Disk, fmt: Price -> string, k: nat)
    requires |worlds| == |assets|
    requires DistinctPaths(assets) && NoneRaise(worlds)
    requires k < |assets| && ScreenshotPath(assets[k].name) !in disk.undeletable
    ensures var g := Collect(assets, worlds, disk, fmt);
      (ScreenshotPath(assets[k].name) in Cleaned(g.disk, g.charts).files
       <==> ScreenshotPath(assets[k].name) in disk.files && !Shot(assets[k], worlds[k], disk))
  {
    var g := Collect(assets, worlds, disk, fmt);
    var p := ScreenshotPath(assets[k].name);
    CollectIsKept(assets, worlds, disk, fmt);
    CollectDisk(assets, worlds, disk, fmt);
    KeptPaths(assets, worlds, disk, fmt);
    assert p in ShotPaths(assets, worlds, disk) <==> Shot(assets[k], worlds[k], disk) by {
      if p in ShotPaths(assets, worlds, disk) {
        var j :| 0 <= j < |assets| && Shot(assets[j], worlds[j], disk) && ScreenshotPath(assets[j].name) == p;
        assert j == k;
      }
    }
    assert p in WrittenPaths(assets, worlds) <==> Writes(worlds[k].browser) by {
      if p in WrittenPaths(assets, worlds) {
        var j :| 0 <= j < |assets| && Writes(worlds[j].browser) && ScreenshotPath(assets[j].name) == p;
        assert j == k;
      }
    }
    assert !Raises(worlds[k]);
  }

  /** For the configured assets, when no capture raises, `charts_data` is the
      per-asset selection and no kept screenshot survives the cycle unless it is
      protected against removal. */
  lemma TrackedCycle(worlds: seq<AssetWorld>, disk: Disk, fmt: Price -> string)
    requires |worlds| == |Tracked| && NoneRaise(worlds)
    ensures var g := Collect(Tracked, worlds, disk, fmt);
      && !g.aborted
      && g.charts == Kept(Tracked, worlds, disk, fmt)
      && forall k :: 0 <= k < |Tracked| && ScreenshotPath(Tracked[k].name) !in disk.undeletable ==>
           (ScreenshotPath(Tracked[k].name) in Cleaned(g.disk, g.charts).files
            <==> ScreenshotPath(Tracked[k].name) in disk.files && !Shot(Tracked[k], worlds[k], disk))
  {
    TrackedPathsDistinct();
    CollectIsKept(Tracked, worlds, disk, fmt);
    forall k | 0 <= k < |Tracked| && ScreenshotPath(Tracked[k].name) !in disk.undeletable
      ensures var g := Collect(Tracked, worlds, disk, fmt);
        (ScreenshotPath(Tracked[k].name) in Cleaned(g.disk, g.charts).files
         <==> ScreenshotPath(Tracked[k].name) in disk.files && !Shot(Tracked[k], worlds[k], disk))
    {
      LeftBehind(Tracked, worlds, disk, fmt, k);
    }
  }

  /** The cleanup loop of `job`: try to remove every collected path; a failing
      `os.remove` is swallowed and the loop goes on. */
  method RemoveAll(charts: seq<Chart>, disk: Disk) returns (after: Disk)
    ensures after == Cleaned(disk, charts)
    ensures forall i :: 0 <= i < |charts| && charts[i].path !in disk.undeletable ==> charts[i].path !in after.files
  {
    after := disk;
    for i := 0 to |charts|
      invariant after == Cleaned(disk, charts[..i])
    {
      assert PathsBefore(charts[..i + 1], i + 1) == PathsBefore(charts[..i], i) + {charts[i].path};
      if CanRemove(after, charts[i].path) {
        after := after.(files := after.files - {charts[i].path});
      }
    }
    assert charts[..|charts|] == charts;
  }

  /** One turn of the asset loop: what the first asset's step does to the result. */
  lemma CollectStep(assets: seq<AssetSpec>, worlds: seq<AssetWorld>, disk: Disk, fmt: Price -> string)
    requires |worlds| == |assets| && assets != []
    ensures var s := ProcessAsset(assets[0], worlds[0], disk, fmt);
      var rest := Collect(assets[1..], worlds[1..], s.disk, fmt);
      Collect(assets, worlds, disk, fmt)
        == match s
           case Abort(d) => Gathered(true, [], d)
           case Skip(_) => rest
           case Keep(c, _) => rest.(charts := [c] + rest.charts)
  {
  }

  /** One turn of the asset loop of `job`, written with the steps and the
      driver of the capture: it does what `ProcessAsset` says. */
  method VisitAsset(asset: AssetSpec, world: AssetWorld, disk: Disk, fmt: Price -> string) returns (step: Step)
    ensures step == ProcessAsset(asset, world, disk, fmt)
  {
    var price := GetPriceFromApi(world.api);
    var shot, next;
    ghost var driver;
    shot, next, driver := GetChartScreenshot(asset, disk, world.browser);
    assert driver != Running;
    if shot.Raised? {
      return Abort(next);
    }
    if shot.path.Some? && shot.path.value != "" && shot.path.value in next.files {
      var caption := Caption(asset, price, fmt, world.clock);
      step := Keep(Chart(shot.path.value, caption), next);
    } else {
      step := Skip(next);
    }
  }

  /** The asset loop of `job`: it computes exactly what `Collect` says. */
  method GatherCharts(assets: seq<AssetSpec>, worlds: seq<AssetWorld>, disk: Disk, fmt: Price -> string)
    returns (aborted: bool, charts: seq<Chart>, current: Disk)
    requires |worlds| == |assets|
    ensures Gathered(aborted, charts, current) == Collect(assets, worlds, disk, fmt)
    ensures current.undeletable == disk.undeletable
    ensures forall j :: 0 <= j < |charts| ==> charts[j].path in current.files
  {
    charts, current, aborted := [], disk, false;
    var i := 0;
    while i < |assets|
      invariant 0 <= i <= |assets|
      invariant var rest := Collect(assets[i..], worlds[i..], current, fmt);
        Collect(assets, worlds, disk, fmt) == rest.(charts := charts + rest.charts)
    {
      assert assets[i..][0] == assets[i] && worlds[i..][0] == worlds[i];
      assert assets[i..][1..] == assets[i + 1..] && worlds[i..][1..] == worlds[i + 1..];
      CollectStep(assets[i..], worlds[i..], current, fmt);
      var step := VisitAsset(assets[i], worlds[i], current, fmt);
      current := step.disk;
      match step {
        case Abort(_) =>
          aborted := true;
          return;
        case Skip(_) =>
        case Keep(c, _) =>
          assert charts + ([c] + Collect(assets[i + 1..], worlds[i + 1..], current, fmt).charts)
              == (charts + [c]) + Collect(assets[i + 1..], worlds[i + 1..], current, fmt).charts;
          charts := charts + [c];
      }
      i := i + 1;
    }
    assert assets[i..] == [];
  }

  /** `job`. `fmt` renders a price, `post` is what the one media-group post does.
      An exception that escapes a capture ends the asset loop and skips sending and
      cleanup; otherwise the collected charts are sent if there are any, and every
      collected path is then removed whatever the send returned. */
  method Job(assets: seq<AssetSpec>, worlds: seq<AssetWorld>, disk: Disk, fmt: Price -> string, post: PostOutcome)
    returns (report: CycleReport)
    requires |worlds| == |assets|
    ensures var g := Collect(assets, worlds, disk, fmt);
      && report.aborted == g.aborted
      && report.charts == g.charts
      && (report.delivery.Some? <==> !g.aborted && g.charts != [])
      && (report.delivery.None? ==> report.request.None?)
      && (g.aborted ==> report.disk == g.disk)
      && (!g.aborted ==> report.disk == Cleaned(g.disk, g.charts))
      && (!g.aborted ==> forall i :: 0 <= i < |g.charts| && g.charts[i].path !in disk.undeletable ==>
                           g.charts[i].path !in report.disk.files)
      && (report.delivery.Some? ==>
            (report.request.Some? <==> forall i :: 0 <= i < |g.charts| ==> g.charts[i].path !in g.disk.unreadable))
      && (report.request.Some? ==> Describes(report.request.value, g.charts))
      && (report.delivery.Some? ==> (report.delivery.value <==> report.request.Some? && Delivered(post)))
  {
    var aborted, charts, current := GatherCharts(assets, worlds, disk, fmt);
    if aborted || charts == [] {
      report := CycleReport(aborted, charts, None, None, current);
      assert !aborted ==> PathsBefore(charts, |charts|) == {};
      return;
    }
    var ok, request, unclosed := SendMediaGroup(charts, current, post);
    var cleaned := RemoveAll(charts, current);
    report := CycleReport(false, charts, Some(ok), request, cleaned);
  }
}
