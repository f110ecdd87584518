/** The fixed asset configuration and the screenshot file naming. */
module Assets {

  type Path = string

  /** One entry of the configuration list: immutable, shared by every cycle. */
  datatype AssetSpec = AssetSpec(
    name: string,
    symbol: string,
    chartUrl: string,
    apiUrl: string,
    priceRange: (int, int))   // configured but never consulted by the bot

  /** The four configured assets, in the order every cycle visits them. */
  const Tracked: seq<AssetSpec> := [
    AssetSpec("Silver", "XAG/USD",
      "https://www.tradingview.com/chart/?symbol=TVC:SILVER&interval=240",
      "https://query1.finance.yahoo.com/v8/finance/chart/SI=F?interval=1m&range=1d",
      (20, 100)),
    AssetSpec("Gold", "XAU/USD",
      "https://www.tradingview.com/chart/?symbol=OANDA:XAUUSD&interval=240",
      "https://query1.finance.yahoo.com/v8/finance/chart/GC=F?interval=1m&range=1d",
      (1500, 3000)),
    AssetSpec("Bitcoin", "BTC/USD",
      "https://www.tradingview.com/chart/?symbol=BITSTAMP:BTCUSD&interval=240",
      "https://query1.finance.yahoo.com/v8/finance/chart/BTC-USD?interval=1m&range=1d",
      (10000, 150000)),
    AssetSpec("Monero", "XMR/USD",
      "https://www.tradingview.com/chart/?symbol=KRAKEN:XMRUSD&interval=240",
      "https://query1.finance.yahoo.com/v8/finance/chart/XMR-USD?interval=1m&range=1d",
      (50, 1000))
  ]

  /** ASCII lower-casing of one character. */
  function LowerChar(c: char): (d: char)
    ensures 'A' <= c <= 'Z' ==> 'a' <= d <= 'z' && d as int - c as int == 32
    ensures !('A' <= c <= 'Z') ==> d == c
  {
    if 'A' <= c <= 'Z' then (c as int + 32) as char else c
  }

  /** `str.lower()`, restricted to ASCII letters. */
  function Lower(s: string): (t: string)
    ensures |t| == |s|
    ensures forall i :: 0 <= i < |s| ==> t[i] == LowerChar(s[i])
  {
    if s == [] then [] else [LowerChar(s[0])] + Lower(s[1..])
  }

  const TmpDir: string := "/tmp/"
  const ChartSuffix: string := "_chart.png"

  /** Where the chart of the asset with this name is saved. */
  function ScreenshotPath(name: string): (p: Path)
    ensures |p| == |TmpDir| + |name| + |ChartSuffix|
    ensures p[..|TmpDir|] == TmpDir && p[|p| - |ChartSuffix|..] == ChartSuffix
  {
    TmpDir + Lower(name) + ChartSuffix
  }

  /** Two names share a screenshot file exactly when they agree after lower-casing. */
  lemma ScreenshotPathInjective(a: string, b: string)
    ensures ScreenshotPath(a) == ScreenshotPath(b) <==> Lower(a) == Lower(b)
  {
    if ScreenshotPath(a) == ScreenshotPath(b) {
      var pa, pb := ScreenshotPath(a), ScreenshotPath(b);
      assert |Lower(a)| == |Lower(b)|;
      assert Lower(a) == pa[|TmpDir|..|pa| - |ChartSuffix|];
      assert Lower(b) == pb[|TmpDir|..|pb| - |ChartSuffix|];
    }
  }

  /** No two assets of the list write to the same screenshot file. */
  ghost predicate DistinctPaths(assets: seq<AssetSpec>)
  {
    forall i, j :: 0 <= i < j < |assets| ==>
      ScreenshotPath(assets[i].name) != ScreenshotPath(assets[j].name)
  }

  /** The character right after the directory is the first letter of the name, lower-cased. */
  lemma PathInitial(name: string)
    requires |name| > 0
    ensures ScreenshotPath(name)[|TmpDir|] == LowerChar(name[0])
  {
    assert ScreenshotPath(name)[|TmpDir|] == Lower(name)[0];
  }

  /** Assets whose names start with pairwise different letters (after
      lower-casing) have pairwise different screenshot files. */
  lemma DistinctByInitials(assets: seq<AssetSpec>, initials: string)
    requires |initials| == |assets|
    requires forall k :: 0 <= k < |assets| ==> |assets[k].name| > 0 && LowerChar(assets[k].name[0]) == initials[k]
    requires forall i, j :: 0 <= i < j < |initials| ==> initials[i] != initials[j]
    ensures DistinctPaths(assets)
  {
    forall i, j | 0 <= i < j < |assets|
      ensures ScreenshotPath(assets[i].name) != ScreenshotPath(assets[j].name)
    {
      PathInitial(assets[i].name);
      PathInitial(assets[j].name);
    }
  }

  /** The configured assets have pairwise different screenshot files. */
  lemma TrackedPathsDistinct()
    ensures DistinctPaths(Tracked)
  {
    var initials := "sgbm";
    assert Tracked[0].name == "Silver" && Tracked[1].name == "Gold";
    assert Tracked[2].name == "Bitcoin" && Tracked[3].name == "Monero";
    DistinctByInitials(Tracked, initials);
  }
}
