/** The HTML caption `job` writes under each chart. */
module Captions {
  import opened Wrappers
  import opened Assets
  import opened PriceApi

  /** Python truthiness of the price: `None` and `0` both count as absent. */
  predicate Truthy(price: Option<Price>)
  {
    price.Some? && price.value != 0.0
  }

  const NoPriceText: string := "See chart"
  const ExactNote: string := " (see chart for exact)"
  const Interval: string := "4H"
  const Heading: string := "\U{1F4CA} <b>"

  /** `price_text`. `fmt` stands for the `:,.2f` rendering of a float. */
  function PriceText(price: Option<Price>, fmt: Price -> string): (t: string)
    ensures t == NoPriceText <==> !Truthy(price)
    ensures Truthy(price) ==> t == "~$" + fmt(price.value)
  {
    if Truthy(price) then
      var t := "~$" + fmt(price.value);
      assert t[0] != NoPriceText[0];
      t
    else NoPriceText
  }

  /** `price_note`. */
  function PriceNote(price: Option<Price>): (n: string)
    ensures n == "" <==> !Truthy(price)
    ensures Truthy(price) ==> n == ExactNote
  {
    if Truthy(price) then ExactNote else ""
  }

  /** Concatenation of a list of strings. */
  function Join(pieces: seq<string>): string
  {
    if pieces == [] then [] else pieces[0] + Join(pieces[1..])
  }

  /** The caption as written in `job`, piece by piece: asset line, price line,
      clock line. The clock piece stands for the `%H:%M UTC` rendering of the time. */
  function CaptionPieces(asset: AssetSpec, price: Option<Price>, fmt: Price -> string, clock: string): (ps: seq<string>)
    ensures |ps| == 13
  {
    [ Heading, asset.name, " (", asset.symbol, ") - ", Interval, "</b>\n\U{1F4B0} Price: ",
      "<b>", PriceText(price, fmt), "</b>", PriceNote(price),
      "\n\U{1F550} ", clock ]
  }

  /** The caption opens with the bold asset name and ends with the time. */
  function Caption(asset: AssetSpec, price: Option<Price>, fmt: Price -> string, clock: string): (c: string)
    ensures |c| >= |Heading| + |asset.name| + |clock|
    ensures c[..|Heading| + |asset.name|] == Heading + asset.name
    ensures c[|c| - |clock|..] == clock
  {
    var ps := CaptionPieces(asset, price, fmt, clock);
    var c := Join(ps);
    assert ps[1..][0] == ps[1] && ps[1..][1..] == ps[2..];
    assert Join(ps[1..]) == ps[1] + Join(ps[2..]);
    assert c == ps[0] + (ps[1] + Join(ps[2..]));
    assert ps == ps[..12] + [clock];
    JoinAppend(ps[..12], [clock]);
    JoinSingle(clock);
    c
  }

  /** `t` occurs in `s` starting at index `i`. */
  ghost predicate OccursAt(s: string, t: string, i: int)
  {
    0 <= i && i + |t| <= |s| && s[i..i + |t|] == t
  }

  ghost predicate Contains(s: string, t: string)
  {
    exists i :: OccursAt(s, t, i)
  }

  lemma {:induction false} JoinAppend(xs: seq<string>, ys: seq<string>)
    ensures Join(xs + ys) == Join(xs) + Join(ys)
  {
    if xs == [] {
      assert xs + ys == ys;
    } else {
      assert (xs + ys)[1..] == xs[1..] + ys;
      JoinAppend(xs[1..], ys);
    }
  }

  lemma OccursInMiddle(x: string, t: string, y: string)
    ensures OccursAt(x + t + y, t, |x|)
  {
    assert (x + t + y)[|x|..|x| + |t|] == t;
  }

  /** Any run of consecutive pieces occurs in the joined string. */
  lemma JoinContains(ps: seq<string>, a: nat, b: nat)
    requires a <= b <= |ps|
    ensures Contains(Join(ps), Join(ps[a..b]))
  {
    var x, t, y := Join(ps[..a]), Join(ps[a..b]), Join(ps[b..]);
    assert ps[..b] == ps[..a] + ps[a..b];
    JoinAppend(ps[..a], ps[a..b]);
    assert ps == ps[..b] + ps[b..];
    JoinAppend(ps[..b], ps[b..]);
    OccursInMiddle(x, t, y);
  }

  lemma JoinOne(ps: seq<string>, k: nat)
    requires k < |ps|
    ensures Contains(Join(ps), ps[k])
  {
    JoinContains(ps, k, k + 1);
    assert ps[k..k + 1] == [ps[k]];
    JoinSingle(ps[k]);
  }

  lemma JoinSingle(a: string)
    ensures Join([a]) == a
  {
  }

  lemma JoinFour(a: string, b: string, c: string, d: string)
    ensures Join([a, b, c, d]) == a + b + c + d
  {
    assert [a, b, c, d][1..] == [b, c, d];
    assert [b, c, d][1..] == [c, d];
    assert [c, d][1..] == [d];
    calc {
      Join([a, b, c, d]);
      a + Join([b, c, d]);
      a + (b + Join([c, d]));
      a + (b + (c + Join([d])));
      { JoinSingle(d); }
      a + (b + (c + d));
      a + b + c + d;
    }
  }

  /** Every caption names the asset, its symbol, the 4H interval and the time. */
  lemma CaptionNamesAsset(asset: AssetSpec, price: Option<Price>, fmt: Price -> string, clock: string)
    ensures Contains(Caption(asset, price, fmt, clock), asset.name)
    ensures Contains(Caption(asset, price, fmt, clock), asset.symbol)
    ensures Contains(Caption(asset, price, fmt, clock), Interval)
    ensures Contains(Caption(asset, price, fmt, clock), clock)
  {
    var ps := CaptionPieces(asset, price, fmt, clock);
    JoinOne(ps, 1);
    JoinOne(ps, 3);
    JoinOne(ps, 5);
    JoinOne(ps, 12);
  }

  /** A truthy price is shown in bold as `~$<formatted>` followed by the note; any
      other price shows "See chart" in bold with no note. */
  lemma CaptionShowsPrice(asset: AssetSpec, price: Option<Price>, fmt: Price -> string, clock: string)
    ensures Truthy(price) ==>
      Contains(Caption(asset, price, fmt, clock), "<b>" + ("~$" + fmt(price.value)) + "</b>" + ExactNote)
    ensures !Truthy(price) ==>
      Contains(Caption(asset, price, fmt, clock), "<b>" + NoPriceText + "</b>")
  {
    var ps := CaptionPieces(asset, price, fmt, clock);
    JoinContains(ps, 7, 11);
    assert ps[7..11] == [ps[7], ps[8], ps[9], ps[10]];
    JoinFour(ps[7], ps[8], ps[9], ps[10]);
    var bare := "<b>" + PriceText(price, fmt) + "</b>";
    assert bare + "" == bare;
  }

  /** The caption tells which branch was taken and which formatted price it showed:
      two captions for the same asset and time agree exactly when their price texts do. */
  lemma CaptionDeterminesPriceText(asset: AssetSpec, p: Option<Price>, q: Option<Price>, fmt: Price -> string, clock: string)
    ensures Caption(asset, p, fmt, clock) == Caption(asset, q, fmt, clock) <==> PriceText(p, fmt) == PriceText(q, fmt)
  {
    var ps, qs := CaptionPieces(asset, p, fmt, clock), CaptionPieces(asset, q, fmt, clock);
    assert ps == ps[..8] + ps[8..] && qs == qs[..8] + qs[8..];
    JoinAppend(ps[..8], ps[8..]);
    JoinAppend(qs[..8], qs[8..]);
    assert ps[..8] == qs[..8];
    var h := Join(ps[..8]);
    var tp, tq := PriceText(p, fmt), PriceText(q, fmt);
    assert Join(ps[8..]) == tp + Join(ps[9..]);
    assert Join(qs[8..]) == tq + Join(qs[9..]);
    if Caption(asset, p, fmt, clock) == Caption(asset, q, fmt, clock) {
      var cp := Caption(asset, p, fmt, clock);
      var rp, rq := Join(ps[9..]), Join(qs[9..]);
      assert cp[|h|..] == tp + rp == tq + rq;
      SameStart(tp, rp, tq, rq);
      if Truthy(p) == Truthy(q) {
        assert ps[9..] == qs[9..];
        SameEnd(tp, tq, rp);
      }
    }
  }

  lemma SameStart(a: string, u: string, b: string, v: string)
    requires a + u == b + v && |a| > 0 && |b| > 0
    ensures a[0] == b[0]
  {
    assert (a + u)[0] == a[0];
  }

  lemma SameEnd(a: string, b: string, u: string)
    requires a + u == b + u
    ensures a == b
  {
    assert a == (a + u)[..|a|];
  }

  /** A price of zero is captioned as if there were no price. */
  lemma ZeroPriceIsAbsent(asset: AssetSpec, fmt: Price -> string, clock: string)
    ensures Caption(asset, Some(0.0), fmt, clock) == Caption(asset, None, fmt, clock)
  {
  }
}
