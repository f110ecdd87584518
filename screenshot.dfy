/** `get_chart_screenshot`: one headless-browser session per capture, torn down in
    a `finally` block. */
module Screenshot {
  import opened Wrappers
  import opened Assets
  import opened Storage

  /** What `driver.save_screenshot` does: raise, or return having written the file
      or not (Selenium reports some write failures by returning False). */
  datatype SaveOutcome = SaveRaises | Saved(written: bool)

  /** The scripted behaviour of the browser during one capture: whether
      `webdriver.Chrome(...)` starts, whether `driver.get(url)` succeeds, what the save
      does, and whether `driver.quit()` raises. */
  datatype Browser = Browser(launches: bool, loads: bool, save: SaveOutcome, quitRaises: bool)

  /** The function returned a path or `None`, or an exception escaped it. */
  datatype Capture = Raised | Returned(path: Option<Path>)

  /** The lifecycle of the one driver a capture may create. */
  datatype DriverState = NotCreated | Running | QuitCalled

  /** The session gets as far as saving, and the save writes the file. */
  predicate Writes(browser: Browser)
  {
    browser.launches && browser.loads && browser.save == Saved(true)
  }

  /** What a capture returns and how it leaves the disk. */
  function CaptureOutcome(asset: AssetSpec, disk: Disk, browser: Browser): (r: (Capture, Disk))
    ensures r.1.unreadable == disk.unreadable && r.1.undeletable == disk.undeletable
    ensures r.1.files == if Writes(browser) then disk.files + {ScreenshotPath(asset.name)} else disk.files
    ensures r.0 == Raised <==> browser.launches && browser.quitRaises
    ensures forall p :: r.0 == Returned(Some(p)) ==> p == ScreenshotPath(asset.name) && p in r.1.files
    ensures r.0.Returned? && r.0.path.Some? <==>
              browser.launches && browser.loads && browser.save.Saved? && !browser.quitRaises &&
              (browser.save.written || ScreenshotPath(asset.name) in disk.files)
  {
    var path := ScreenshotPath(asset.name);
    var saved := browser.launches && browser.loads && browser.save.Saved?;
    var after := if saved && browser.save.written then Written(disk, path) else disk;
    var body := if saved && path in after.files then Returned(Some(path)) else Returned(None);
    (if browser.launches && browser.quitRaises then Raised else body, after)
  }

  /** The capture written step by step. `driver` tracks the session: once
      created, `quit()` is called on every exit, whether or not it raises. */
  method GetChartScreenshot(asset: AssetSpec, disk: Disk, browser: Browser)
    returns (r: Capture, after: Disk, ghost driver: DriverState)
    ensures (r, after) == CaptureOutcome(asset, disk, browser)
    ensures driver != Running
    ensures driver == QuitCalled <==> browser.launches
  {
    driver := NotCreated;
    var created := false;   // the Python variable `driver` is not None
    after := disk;
    var result: Capture;
    // try:
    if !browser.launches {
      result := Returned(None);
    } else {
      created, driver := true, Running;
      if !browser.loads {
        result := Returned(None);
      } else {
        var path := ScreenshotPath(asset.name);
        match browser.save
        case SaveRaises =>
          result := Returned(None);
        case Saved(written) =>
          if written {
            after := Written(after, path);
          }
          if path in after.files {
            result := Returned(Some(path));
          } else {
            result := Returned(None);
          }
      }
    }
    // finally:
    if created {
      driver := QuitCalled;
      if browser.quitRaises {
        result := Raised;
      }
    }
    r := result;
  }
}
