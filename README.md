# Multi-asset chart bot: a Dafny model of its update cycle

The bot (`silver_chart_bot.py`) runs one update cycle every three minutes. For each
configured asset (Silver, Gold, Bitcoin, Monero) it asks Yahoo Finance for the latest
close price and has a headless Chrome capture the TradingView chart to
`/tmp/<lower-cased name>_chart.png`. It then posts every chart it got, with an HTML caption, as one
Telegram media group, and deletes the screenshot files.

This project models that cycle. Every external effect is an input value:

- the HTTP answer of the price API (`PriceApi.ApiResponse`);
- what the browser does: start, load, save, quit (`Screenshot.Browser`);
- the filesystem (`Storage.Disk`): the set of existing paths, plus the paths that
  cannot be opened or deleted;
- the outcome of the Telegram post (`Telegram.PostOutcome`);
- the wall-clock text in the caption (`Cycle.AssetWorld.clock`);
- the float rendering `:,.2f`, passed in as a function `fmt`.

Modules:

- `Assets`: the configuration list `Tracked` and the screenshot file naming.
- `PriceApi`: `get_price_from_api`, i.e. picking the last non-`None` close price.
- `Screenshot`: `get_chart_screenshot` with its driver lifecycle. A ghost
  `DriverState` shows that `quit()` is called on every exit once the driver was created.
- `Captions`: the caption text and its price branch.
- `Decimal`, `Telegram`: `send_media_group` (the `photo<i>` attachments) and
  `send_photo_to_telegram`.
- `Cycle`: `job`. The asset loop (the method `GatherCharts`, one `VisitAsset` per
  asset) is specified by the function `Collect`, which threads the disk from asset to asset. It is compared with the per-asset selection
  `Kept` and followed by the cleanup loop.

Behaviour of the code worth knowing:

- There is one price source per asset, so there is no fallback cascade.
- The configured `price_range` is never checked.
- No price is read from the chart page.
- No text-only message is sent when charts are missing; the bot only logs.
- All charts of a cycle go out as one media group per cycle.
- Per-asset isolation fails in one case. `driver.quit()` is called inside a
  `finally` block, so an exception it raises leaves `get_chart_screenshot` and ends
  the whole cycle in `job`'s outer handler. Nothing is sent and nothing is cleaned
  up (`Cycle.CollectAborts`; `Job` reports `aborted`).
- `send_media_group` does not close the files it opened when an `open` or the post
  raises; they are left to Python's finalizer. It reports the paths of those files as
  `unclosed` (a set of paths, so two charts sharing one path show up once).

## Model

| member | source | states |
|---|---|---|
| `Assets.Lower` | silver_chart_bot.py:84 | lower-casing keeps the length and lower-cases each character on its own |
| `Assets.ScreenshotPath` | silver_chart_bot.py:84 | the path is `/tmp/`, then the name, then `_chart.png`: it starts with the directory, ends with the suffix and is as long as the three together |
| `Assets.ScreenshotPathInjective` | silver_chart_bot.py:84 | the path `/tmp/<lower(name)>_chart.png` depends on the name only: two names share a file exactly when they are equal after lower-casing |
| `Assets.PathInitial` | silver_chart_bot.py:84 | the character after `/tmp/` is the first letter of the name, lower-cased |
| `Assets.DistinctByInitials` | silver_chart_bot.py:84 | assets whose names begin with pairwise different letters after lower-casing write pairwise different files |
| `Assets.TrackedPathsDistinct` | silver_chart_bot.py:34-63 | the constant `Tracked` is the configuration list: Silver, Gold, Bitcoin and Monero in that order, each with its symbol, chart URL, API URL and price range; its four assets write four different screenshot files |
| `PriceApi.Present` | silver_chart_bot.py:110 | the filtered list holds a price exactly when some close entry holds it |
| `PriceApi.LastClose` | silver_chart_bot.py:110-112 | a selected price is one of the close entries; nothing is selected exactly when every entry is `None` |
| `PriceApi.LastCloseIsLatest` | silver_chart_bot.py:110-112 | dropping the `None` entries and taking the last element gives the same result as walking back from the end of the list to the first entry that holds a price |
| `PriceApi.LastCloseIsLastPresent` | silver_chart_bot.py:110-112 | the selected price is `p` exactly when some entry holds `p` and every later entry is `None` |
| `PriceApi.LastCloseAbsent` | silver_chart_bot.py:110-114 | nothing is selected exactly when the list is empty or holds only `None` |
| `PriceApi.GetPriceFromApi` | silver_chart_bot.py:101-118 | any price returned comes from a status-200 readable reply and is the last non-`None` close entry; an exception, a non-200 status or an unreadable body gives `None`; on a readable 200 reply the result is `None` exactly when no entry holds a price |
| `Screenshot.CaptureOutcome` | silver_chart_bot.py:77-99 | a path is returned only if it is `/tmp/<lower(name)>_chart.png` and that file exists; one is returned exactly when the session started, loaded, saved without raising, quit cleanly, and the file was written or already there; an exception escapes exactly when the driver was created and `quit()` raised; the disk gains only that file, and only when the save wrote it |
| `Screenshot.GetChartScreenshot` | silver_chart_bot.py:65-99 | the try/finally version computes what `CaptureOutcome` says; `quit()` is called on every exit once the driver was created, whether or not it raises, and only then |
| `Captions.PriceText` | silver_chart_bot.py:195-200 | the text is "See chart" exactly when the price is `None` or zero; otherwise it is `~$` followed by the formatted price |
| `Captions.PriceNote` | silver_chart_bot.py:195-200 | the note is empty exactly when the price is `None` or zero; otherwise it is " (see chart for exact)" |
| `Captions.Caption` | silver_chart_bot.py:202-204 | the caption opens with the chart emoji and the bold asset name, and ends with the clock text |
| `Captions.CaptionNamesAsset` | silver_chart_bot.py:202-204 | every caption contains the asset name, its symbol, the interval "4H" and the clock text |
| `Captions.CaptionShowsPrice` | silver_chart_bot.py:195-203 | a truthy price appears as `<b>~$<formatted></b> (see chart for exact)`; otherwise the caption shows `<b>See chart</b>` |
| `Captions.CaptionDeterminesPriceText` | silver_chart_bot.py:195-204 | for the same asset and time, two captions are equal exactly when their price texts are: the caption shows which branch was taken and which formatted price |
| `Captions.ZeroPriceIsAbsent` | silver_chart_bot.py:195 | a price of 0 gives the same caption as no price |
| `Decimal.Digits` | silver_chart_bot.py:143 | the decimal spelling of an index is non-empty and all digits, and has one digit exactly below 10 |
| `Decimal.ValueOfDigits` | silver_chart_bot.py:143 | reading the decimal spelling back gives the index again |
| `Decimal.DigitsInjective` | silver_chart_bot.py:143 | different indices are spelled differently |
| `Telegram.AttachName` | silver_chart_bot.py:143 | the attachment name is `photo` followed by digits only |
| `Telegram.AttachNameIndex` | silver_chart_bot.py:143 | reading the digits after `photo` back gives the position of the chart |
| `Telegram.AttachNameInjective` | silver_chart_bot.py:143 | `photo<i>` and `photo<j>` are equal exactly when `i == j` |
| `Telegram.EntryFor` | silver_chart_bot.py:144-149 | the entry of a chart is a photo with that chart's caption and HTML parse mode |
| `Telegram.EntryForDistinct` | silver_chart_bot.py:143-146 | entries at different positions have different `media` references, so each entry points at its own key of `files` |
| `Telegram.SendMediaGroup` | silver_chart_bot.py:134-172 | a request is posted exactly when every file opens. Entry `i` is a photo with media `attach://photo<i>`, caption `i` and HTML parse mode. `files` has exactly the keys `photo0..photo<n-1>`, with `photo<i>` bound to path `i`. The result is true exactly when the request was posted and the status is 200; it never raises. The function does not close the handles after a failed `open` (those opened before it) or a raising post (all of them); it closes them otherwise. `unclosed` reports their paths |
| `Telegram.SendPhoto` | silver_chart_bot.py:120-132 | true exactly when the file opens and the post answers 200; never raises |
| `Cycle.ProcessAsset` | silver_chart_bot.py:184-208 | one asset's step ends the loop exactly when its capture raises; it keeps a chart exactly when the capture returned a path, and that chart is the screenshot path with the caption built from the API price and the clock |
| `Cycle.VisitAsset` | silver_chart_bot.py:184-208 | one turn of the loop, written as steps with the capture's driver, does exactly what `ProcessAsset` says |
| `Cycle.Collect` | silver_chart_bot.py:184-208 | the loop keeps at most one chart per asset; it only adds files and never changes which paths are unreadable or undeletable; every collected chart's file exists when the loop ends |
| `Cycle.GatherCharts` | silver_chart_bot.py:184-208 | the asset loop, written with a `while` loop, computes exactly what `Collect` says |
| `Cycle.CollectAborts` | silver_chart_bot.py:174-229 | the asset loop is cut short exactly when some asset's `driver.quit()` raises |
| `Cycle.CollectKeepsWhatEachKeeps` | silver_chart_bot.py:184-208 | if the assets have distinct files and no capture raises, running the loop from any disk that agrees with the start on those files collects what judging each asset on its own collects |
| `Cycle.CollectIsKept` | silver_chart_bot.py:184-208 | `charts_data` holds exactly the assets whose screenshot was returned, one pair each, in configuration order; skipped assets leave no entry and do not affect later assets |
| `Cycle.CollectDisk` | silver_chart_bot.py:184-208 | when no capture raises, the loop adds exactly the screenshot files the browser wrote and changes nothing else |
| `Cycle.KeptPaths` | silver_chart_bot.py:206 | the paths in the collected pairs are exactly the paths of the assets whose capture returned one |
| `Cycle.LeftBehind` | silver_chart_bot.py:210-220 | after a completed cycle an asset's screenshot file exists exactly when it was there before and its capture returned nothing, whatever the send returned (the file must not be protected against removal) |
| `Cycle.TrackedCycle` | silver_chart_bot.py:174-229 | for the four configured assets, when no capture raises, `charts_data` is `Kept`, and an asset's file is left behind exactly as `LeftBehind` says |
| `Cycle.RemoveAll` | silver_chart_bot.py:216-220 | one removal is tried per collected path; a failure is swallowed and the loop goes on; afterwards every collected path that is not protected is gone, and no other file changed |
| `Cycle.Job` | silver_chart_bot.py:174-229 | the collected charts are `Collect`'s. A send is attempted exactly when the loop completed and collected something. After a completed cycle the disk is the cleaned one, whatever the send returned; after an aborted one nothing is removed. The posted request describes exactly the collected charts. The send result is true exactly when the request went out with status 200 |

## Left out

- Flask routes `/` and `/health` and `run_flask` (silver_chart_bot.py:16-28), with the thread that runs them: HTTP plumbing and the one concurrency boundary.
- `main` (silver_chart_bot.py:231-299): the startup message, `schedule.every(3).minutes`, the 60 s initial wait and the endless polling loop. These are scheduling and supervision with no terminating behaviour to state.
- `BOT_TOKEN`, `CHAT_ID` (silver_chart_bot.py:30-31) and `PORT` (silver_chart_bot.py:27) from the environment: process configuration. `chat_id` is not part of the modelled request.
- Real HTTP, Selenium, `time.sleep`, `print` logging and request timeouts (10 s, 30 s, 60 s). They appear only as the abstract outcomes listed above. The Chrome command-line options are not modelled.
- The float rendering `:,.2f` is the parameter `fmt`, and prices are reals. There is no NaN, -0.0 or rounding; a price counts as truthy exactly when it is non-zero.
- `datetime.now().strftime('%H:%M UTC')` is a given clock string per asset.
- PriceApi.GetPriceFromApi: collapses every way of failing to reach `chart.result[0].indicators.quote[0].close` into one `Unreadable` outcome, and treats close entries as prices or `None` only. A non-numeric entry, on which the Python code would fail while formatting, is not modelled.
- Assets.Lower: lower-cases ASCII letters only, not all of Unicode as `str.lower` does.
- The text serialisation `str(media).replace("'", '"')` of the media list: the model keeps the list of entries itself.
- `os.path.exists` versus `open`: the model's disk treats a path as openable when it exists and is not marked unreadable. It does not tell directories from files.
- Screenshot.GetChartScreenshot: the ghost `DriverState` records that `quit()` was called. Whether the browser actually stops when `quit()` raises is not modelled.
- Exceptions inside `job` other than the one from `driver.quit()`, e.g. a failing `print`, are not modelled; the outer handler only logs them.
