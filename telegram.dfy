/** The two Bot API calls: `send_media_group` and `send_photo_to_telegram`. */
module Telegram {
  import opened Wrappers
  import opened Assets
  import opened Storage
  import Decimal

  /** A chart ready to send: the `(image_path, caption)` pair `job` collects. */
  datatype Chart = Chart(path: Path, caption: string)

  /** The outcome of `requests.post`: an exception, or a response status code. */
  datatype PostOutcome = PostRaises | Status(code: int)

  /** The bot counts a call as delivered exactly on status 200. */
  predicate Delivered(post: PostOutcome)
  {
    post == Status(200)
  }

  /** One element of the `media` list of a media group. */
  datatype MediaEntry = MediaEntry(kind: string, media: string, caption: string, parseMode: string)

  /** What is posted: the `media` list and the `files` dictionary (attachment
      name to the path of the opened file). */
  datatype MediaRequest = MediaRequest(media: seq<MediaEntry>, files: map<string, Path>)

  const AttachScheme: string := "attach://"

  /** `f"photo{i}"`: the word `photo` followed by the decimal digits of `i`. */
  function AttachName(i: nat): (n: string)
    ensures |n| > 5 && n[..5] == "photo"
    ensures forall k :: 5 <= k < |n| ==> '0' <= n[k] <= '9'
  {
    "photo" + Decimal.Digits(i)
  }

  /** The position can be read back from the attachment name. */
  lemma AttachNameIndex(i: nat)
    ensures Decimal.Value(AttachName(i)[5..]) == i
  {
    assert AttachName(i)[5..] == Decimal.Digits(i);
    Decimal.ValueOfDigits(i);
  }

  /** The media entry built for the `i`-th chart: a photo with an HTML
      caption whose `media` field refers to the `i`-th key of `files`. */
  function EntryFor(i: nat, caption: string): (e: MediaEntry)
    ensures e.kind == "photo" && e.parseMode == "HTML" && e.caption == caption
  {
    var e := MediaEntry("photo", AttachScheme + AttachName(i), caption, "HTML");
    assert e.media[|AttachScheme|..] == AttachName(i);
    e
  }

  /** Different positions get different attachment names. */
  lemma AttachNameInjective(i: nat, j: nat)
    ensures AttachName(i) == AttachName(j) <==> i == j
  {
    if AttachName(i) == AttachName(j) {
      assert Decimal.Digits(i) == AttachName(i)[5..];
      assert Decimal.Digits(j) == AttachName(j)[5..];
      Decimal.DigitsInjective(i, j);
    }
  }

  /** Entries at different positions refer to different attachments. */
  lemma EntryForDistinct(i: nat, j: nat, a: string, b: string)
    ensures EntryFor(i, a).media == EntryFor(j, b).media <==> i == j
  {
    var m, n := EntryFor(i, a).media, EntryFor(j, b).media;
    assert m[|AttachScheme|..] == AttachName(i) && n[|AttachScheme|..] == AttachName(j);
    AttachNameInjective(i, j);
  }

  ghost function AttachNames(n: nat): set<string>
  {
    set i | 0 <= i < n :: AttachName(i)
  }

  ghost function PathsBefore(charts: seq<Chart>, n: nat): set<Path>
    requires n <= |charts|
  {
    set i | 0 <= i < n :: charts[i].path
  }

  /** Entry `i` of the request refers to attachment `photo<i>` with caption `i`,
      and `photo<i>` is bound to path `i`; there are no other attachments. */
  ghost predicate Describes(request: MediaRequest, charts: seq<Chart>)
  {
    && |request.media| == |charts|
    && (forall i :: 0 <= i < |charts| ==> request.media[i] == EntryFor(i, charts[i].caption))
    && request.files.Keys == AttachNames(|charts|)
    && (forall i :: 0 <= i < |charts| ==> request.files[AttachName(i)] == charts[i].path)
  }

  /** Chart `k` is the first one whose file cannot be opened. */
  ghost predicate FirstUnopenable(charts: seq<Chart>, disk: Disk, k: int)
  {
    0 <= k < |charts| && !CanOpen(disk, charts[k].path) &&
    forall j :: 0 <= j < k ==> CanOpen(disk, charts[j].path)
  }

  lemma FilesValues(files: map<string, Path>, charts: seq<Chart>, n: nat)
    requires n <= |charts|
    requires files.Keys == AttachNames(n)
    requires forall i :: 0 <= i < n ==> files[AttachName(i)] == charts[i].path
    ensures files.Values == PathsBefore(charts, n)
  {
  }

  /** `send_media_group`. `post` is what the HTTP call does. The result says
      whether Telegram took the group; it never raises. `unclosed` holds the
      paths with a handle the function does not close (a set of paths, so a path
      opened twice appears once): the function closes its handles only after a
      post that returned a response, and otherwise leaves them to Python's finalizer. */
  method SendMediaGroup(charts: seq<Chart>, disk: Disk, post: PostOutcome)
    returns (ok: bool, request: Option<MediaRequest>, unclosed: set<Path>)
    ensures request.Some? <==> forall i :: 0 <= i < |charts| ==> CanOpen(disk, charts[i].path)
    ensures request.Some? ==> Describes(request.value, charts)
    ensures ok <==> request.Some? && Delivered(post)
    ensures request.Some? && post.Status? ==> unclosed == {}
    ensures request.Some? && post.PostRaises? ==> unclosed == PathsBefore(charts, |charts|)
    ensures request.None? ==> exists k :: FirstUnopenable(charts, disk, k) && unclosed == PathsBefore(charts, k)
  {
    var media: seq<MediaEntry> := [];
    var files: map<string, Path> := map[];
    var i := 0;
    while i < |charts|
      invariant 0 <= i <= |charts|
      invariant forall j :: 0 <= j < i ==> CanOpen(disk, charts[j].path)
      invariant |media| == i
      invariant forall j :: 0 <= j < i ==> media[j] == EntryFor(j, charts[j].caption)
      invariant files.Keys == AttachNames(i)
      invariant forall j :: 0 <= j < i ==> files[AttachName(j)] == charts[j].path
    {
      var name := AttachName(i);
      media := media + [EntryFor(i, charts[i].caption)];
      if !CanOpen(disk, charts[i].path) {
        // open() raised: the function does not close the handles opened so far
        FilesValues(files, charts, i);
        assert FirstUnopenable(charts, disk, i);
        return false, None, files.Values;
      }
      forall j | 0 <= j < i ensures AttachName(j) != name {
        AttachNameInjective(j, i);
      }
      files := files[name := charts[i].path];
      i := i + 1;
    }
    FilesValues(files, charts, i);
    request := Some(MediaRequest(media, files));
    match post
    case PostRaises =>
      ok, unclosed := false, files.Values;
    case Status(code) =>
      unclosed := {};
      ok := code == 200;
  }

  /** `send_photo_to_telegram` (unused by the cycle): the file is opened in a
      `with` block, so it is closed on every path; true exactly on status 200. */
  method SendPhoto(path: Path, caption: string, disk: Disk, post: PostOutcome) returns (ok: bool)
    ensures ok <==> CanOpen(disk, path) && Delivered(post)
  {
    if !CanOpen(disk, path) {
      return false;
    }
    match post
    case PostRaises =>
      ok := false;
    case Status(code) =>
      ok := code == 200;
  }
}
