/** Close-price selection from the Yahoo Finance chart response. */
module PriceApi {
  import opened Wrappers

  /** Prices are modelled as reals; see README for what float rendering leaves out. */
  type Price = real

  /** What the bot reads from a 200 response body: the `close` list at
      chart.result[0].indicators.quote[0], or a failure to get there (invalid JSON,
      a missing key, an empty list on the way). */
  datatype Payload = Unreadable | ChartData(close: seq<Option<Price>>)

  /** The outcome of the HTTP GET to the asset's API URL. */
  datatype ApiResponse = RequestRaised | Reply(status: int, payload: Payload)

  /** The list comprehension that drops the `None` entries, order kept. */
  function Present(closes: seq<Option<Price>>): (r: seq<Price>)
    ensures forall x :: x in r <==> Some(x) in closes
  {
    if closes == [] then []
    else (if closes[0].Some? then [closes[0].value] else []) + Present(closes[1..])
  }

  /** `close_prices[-1]` when the filtered list is not empty. */
  function LastClose(closes: seq<Option<Price>>): (r: Option<Price>)
    ensures r.Some? ==> Some(r.value) in closes
    ensures r.None? <==> forall i :: 0 <= i < |closes| ==> closes[i].None?
  {
    var ps := Present(closes);
    if |ps| > 0 then Some(ps[|ps| - 1]) else None
  }

  /** Reference definition: walk back from the end to the first entry that is present. */
  function LatestClose(closes: seq<Option<Price>>): Option<Price>
  {
    if closes == [] then None
    else if closes[|closes| - 1].Some? then closes[|closes| - 1]
    else LatestClose(closes[..|closes| - 1])
  }

  /** Entry `i` holds a price and every later entry is `None`. */
  ghost predicate LastPresentAt(closes: seq<Option<Price>>, i: int)
  {
    0 <= i < |closes| && closes[i].Some? && forall j :: i < j < |closes| ==> closes[j] == None
  }

  lemma {:induction false} PresentAppend(closes: seq<Option<Price>>, x: Option<Price>)
    ensures Present(closes + [x]) == Present(closes) + (if x.Some? then [x.value] else [])
  {
    if closes == [] {
      assert closes + [x] == [x];
      assert [x][1..] == [];
    } else {
      var head := if closes[0].Some? then [closes[0].value] else [];
      var tail := if x.Some? then [x.value] else [];
      assert (closes + [x])[0] == closes[0];
      assert (closes + [x])[1..] == closes[1..] + [x];
      calc {
        Present(closes + [x]);
        head + Present(closes[1..] + [x]);
        { PresentAppend(closes[1..], x); }
        head + (Present(closes[1..]) + tail);
        (head + Present(closes[1..])) + tail;
      }
    }
  }

  /** Filtering then taking the last element is the same as the backward walk. */
  lemma {:induction false} LastCloseIsLatest(closes: seq<Option<Price>>)
    ensures LastClose(closes) == LatestClose(closes)
  {
    if closes != [] {
      var init, last := closes[..|closes| - 1], closes[|closes| - 1];
      assert closes == init + [last];
      PresentAppend(init, last);
      LastCloseIsLatest(init);
    }
  }

  lemma {:induction false} LatestCloseAt(closes: seq<Option<Price>>, p: Price)
    ensures LatestClose(closes) == Some(p) <==> exists i :: LastPresentAt(closes, i) && closes[i] == Some(p)
  {
    if closes != [] {
      var n := |closes|;
      var init := closes[..n - 1];
      LatestCloseAt(init, p);
      if closes[n - 1].Some? {
        if LatestClose(closes) == Some(p) {
          assert LastPresentAt(closes, n - 1);
        }
        forall i | LastPresentAt(closes, i) ensures i == n - 1 { }
      } else {
        forall i | LastPresentAt(closes, i) ensures LastPresentAt(init, i) { }
        forall i | LastPresentAt(init, i) ensures LastPresentAt(closes, i) { }
      }
    }
  }

  lemma {:induction false} LatestCloseNone(closes: seq<Option<Price>>)
    ensures LatestClose(closes) == None <==> forall i :: 0 <= i < |closes| ==> closes[i] == None
  {
    if closes != [] {
      LatestCloseNone(closes[..|closes| - 1]);
    }
  }

  /** The selected price is the last entry of the list that is not `None`. */
  lemma LastCloseIsLastPresent(closes: seq<Option<Price>>, p: Price)
    ensures LastClose(closes) == Some(p) <==> exists i :: LastPresentAt(closes, i) && closes[i] == Some(p)
  {
    LastCloseIsLatest(closes);
    LatestCloseAt(closes, p);
  }

  /** Nothing is selected exactly when the list is empty or holds only `None`. */
  lemma LastCloseAbsent(closes: seq<Option<Price>>)
    ensures LastClose(closes) == None <==> forall i :: 0 <= i < |closes| ==> closes[i] == None
  {
    LastCloseIsLatest(closes);
    LatestCloseNone(closes);
  }

  /** `get_price_from_api`: every failure (exception, non-200 status, unreadable
      body, no close price) becomes `None`; it never raises. */
  function GetPriceFromApi(response: ApiResponse): (r: Option<Price>)
    ensures r.Some? ==> response.Reply? && response.status == 200 && response.payload.ChartData?
    ensures r.Some? ==> exists i :: LastPresentAt(response.payload.close, i) && response.payload.close[i] == r
    ensures response.Reply? && response.status == 200 && response.payload.ChartData? ==>
              (r == None <==> forall i :: 0 <= i < |response.payload.close| ==> response.payload.close[i] == None)
  {
    match response
    case RequestRaised => None
    case Reply(status, payload) =>
      if status != 200 then None
      else match payload
        case Unreadable => None
        case ChartData(close) =>
          var r := LastClose(close);
          LastCloseAbsent(close);
          if r.Some? then LastCloseIsLastPresent(close, r.value); r
          else r
  }
}
