/**
 * The text handling inside the exchange client: rounding a quantity down to
 * the exchange's step size, turning a klines response into a candle,
 * reading an asset's free balance out of an account response, reading the
 * server time, and the layout of the signed order query.
 *
 * `Long.parseLong` and `Double.parseDouble` are parameters: a function that
 * returns `None` where the Java call throws.
 */
module BinanceService {
  import opened Models
  import opened Text
  import Series

  /** The BTCUSDT quantity step the client rounds to. */
  const StepSize: real := 0.00001

  // ---------------------------------------------------------------
  // roundToStepSize
  // ---------------------------------------------------------------

  /** `Math.floor(quantity / stepSize) * stepSize`. */
  function RoundToStepSize(quantity: real, stepSize: real): real
    requires stepSize > 0.0
  {
    (quantity / stepSize).Floor as real * stepSize
  }

  /**
   * The result is the largest multiple of the step not above the quantity:
   * it is at most the quantity and less than one step below it, it is a
   * whole number of steps (non-negative for a non-negative quantity), and
   * rounding it again changes nothing.
   */
  lemma RoundToStepRule(quantity: real, stepSize: real)
    requires stepSize > 0.0
    ensures var r := RoundToStepSize(quantity, stepSize);
      && r <= quantity < r + stepSize
      && r / stepSize == (r / stepSize).Floor as real
      && (quantity >= 0.0 ==> r >= 0.0)
      && RoundToStepSize(r, stepSize) == r
  {
    var x := quantity / stepSize;
    var n := x.Floor as real;
    var r := n * stepSize;
    assert r == RoundToStepSize(quantity, stepSize);
    assert n <= x < n + 1.0;
    assert x * stepSize == quantity;
    MulMonotone(n, x, stepSize);
    assert r <= quantity;
    MulMonotone(x, n + 1.0, stepSize);
    assert (n + 1.0) * stepSize == r + stepSize;
    assert quantity < r + stepSize;
    assert r / stepSize == n;
    assert n.Floor as real == n;
    assert (r / stepSize).Floor as real == r / stepSize;
    if quantity >= 0.0 {
      assert x >= 0.0;
      assert n >= 0.0;
      assert r >= 0.0 by {
        Series.MulNonneg(n, stepSize);
      }
    }
  }

  lemma MulMonotone(a: real, b: real, c: real)
    requires a <= b && c > 0.0
    ensures a * c <= b * c
    ensures a < b ==> a * c < b * c
  {
    assert b * c - a * c == (b - a) * c;
    Series.MulNonneg(b - a, c);
    if a < b {
      assert (b - a) * c > 0.0;
    }
  }

  // ---------------------------------------------------------------
  // parseCandleFromJson
  // ---------------------------------------------------------------

  /** A text that starts with "[[" and ends with "]]" has at least four characters. */
  lemma BracketsLength(s: string)
    requires StartsWith(s, "[[") && EndsWith(s, "]]")
    ensures |s| >= 4
  {
    assert s[..2] == "[[";
    assert s[|s| - 2..] == "]]";
    assert s[0] == '[' && s[1] == '[';
    assert s[|s| - 2] == ']' && s[|s| - 1] == ']';
  }

  /** The outer "[[" and "]]" are removed only when both are there. */
  function StripBrackets(s: string): string
  {
    if StartsWith(s, "[[") && EndsWith(s, "]]") then
      BracketsLength(s);
      s[2..|s| - 2]
    else s
  }

  /** Field `i` of the comma-separated values with its quotes removed. */
  function Unquoted(raw: seq<string>, i: nat): string
    requires i < |raw|
  {
    RemoveChar(raw[i], '"')
  }

  /** The first seven fields, in order, as openTime, open, high, low, close, volume and closeTime. */
  function CandleOfFields(raw: seq<string>, parseLong: string -> Option<int>, parseDouble: string -> Option<real>): Option<Candle>
    requires |raw| >= 7
  {
    var openTime := parseLong(Unquoted(raw, 0));
    var open := parseDouble(Unquoted(raw, 1));
    var high := parseDouble(Unquoted(raw, 2));
    var low := parseDouble(Unquoted(raw, 3));
    var close := parseDouble(Unquoted(raw, 4));
    var volume := parseDouble(Unquoted(raw, 5));
    var closeTime := parseLong(Unquoted(raw, 6));
    if openTime.Some? && open.Some? && high.Some? && low.Some? && close.Some? && volume.Some? && closeTime.Some?
    then Some(Candle(openTime.value, open.value, high.value, low.value, close.value, volume.value, closeTime.value))
    else None
  }

  /**
   * `parseCandleFromJson`: trim, strip the outer brackets, split on commas;
   * fewer than six fields return null at once, exactly six fail on reading
   * field 6, and a field that does not parse fails too.
   */
  function ParseCandleFromJson(json: string, parseLong: string -> Option<int>, parseDouble: string -> Option<real>): Option<Candle>
  {
    var body := StripBrackets(Trim(json));
    var rawValues := JavaSplit(body, ',');
    if |rawValues| < 6 then None
    else if |rawValues| < 7 then None
    else CandleOfFields(rawValues, parseLong, parseDouble)
  }

  /** Fewer than seven fields never give a candle. */
  lemma TooFewFields(json: string, parseLong: string -> Option<int>, parseDouble: string -> Option<real>)
    requires |JavaSplit(StripBrackets(Trim(json)), ',')| < 7
    ensures ParseCandleFromJson(json, parseLong, parseDouble) == None
  {
  }

  /**
   * A one-kline response, "[[" + the fields joined by commas + "]]", gives
   * back exactly the candle of its fields, whenever no field holds a comma and
   * the last one is not empty.
   */
  lemma ParseKline(fields: seq<string>, parseLong: string -> Option<int>, parseDouble: string -> Option<real>)
    requires |fields| >= 7
    requires forall j :: 0 <= j < |fields| ==> ',' !in fields[j]
    requires fields[|fields| - 1] != []
    ensures ParseCandleFromJson("[[" + Join(fields, ',') + "]]", parseLong, parseDouble)
      == CandleOfFields(fields, parseLong, parseDouble)
  {
    var joined := Join(fields, ',');
    BracketedBody(joined);
    JavaSplitJoin(fields, ',');
  }

  /** A bracketed text is left alone by trimming and loses exactly its brackets. */
  lemma BracketedBody(body: string)
    ensures StripBrackets(Trim("[[" + body + "]]")) == body
  {
    var text := "[[" + body + "]]";
    assert text[0] == '[' && text[|text| - 1] == ']';
    assert TrimStart(text) == text;
    assert TrimEnd(text) == text;
    assert text[..2] == "[[";
    assert text[|text| - 2..] == "]]";
    assert StartsWith(text, "[[") && EndsWith(text, "]]");
    assert text[2..|text| - 2] == body;
  }

  // ---------------------------------------------------------------
  // parseAssetBalance
  // ---------------------------------------------------------------

  function AssetMarker(asset: string): string
  {
    "\"asset\":\"" + asset + "\""
  }

  const FreeMarker: string := "\"free\":\""

  /**
   * The text `parseAssetBalance` hands to `parseDouble`: from after the first
   * `"free":"` at or after the first `"asset":"<asset>"` to the next quote.
   */
  function BalanceText(json: string, asset: string): Option<string>
  {
    var assetIndex := IndexOf(json, AssetMarker(asset), 0);
    if assetIndex == -1 then None
    else
      var freeIndex := IndexOf(json, FreeMarker, assetIndex);
      if freeIndex == -1 then None
      else
        var start := freeIndex + |FreeMarker|;
        var endIndex := IndexOf(json, "\"", start);
        if endIndex == -1 then None
        else Some(json[start..endIndex])
  }

  /** `parseAssetBalance`: the parsed free amount, or 0.0 when a marker is missing or the text does not parse. */
  function ParseAssetBalance(json: string, asset: string, parseDouble: string -> Option<real>): real
  {
    match BalanceText(json, asset)
    case None => 0.0
    case Some(text) => if parseDouble(text).Some? then parseDouble(text).value else 0.0
  }

  /** Without the asset marker the balance is 0.0; a located text holds no quote. */
  lemma BalanceRule(json: string, asset: string, parseDouble: string -> Option<real>)
    ensures (forall i :: !OccursAt(json, AssetMarker(asset), i)) ==> ParseAssetBalance(json, asset, parseDouble) == 0.0
    ensures BalanceText(json, asset).Some? ==> '"' !in BalanceText(json, asset).value
    ensures BalanceText(json, asset).None? ==> ParseAssetBalance(json, asset, parseDouble) == 0.0
  {
    match BalanceText(json, asset)
    case None =>
    case Some(text) =>
      var assetIndex := IndexOf(json, AssetMarker(asset), 0);
      var start := IndexOf(json, FreeMarker, assetIndex) + |FreeMarker|;
      var endIndex := IndexOf(json, "\"", start);
      forall k | 0 <= k < |text|
        ensures text[k] != '"'
      {
        assert text[k] == json[start + k];
        assert !OccursAt(json, "\"", start + k);
        assert json[start + k..start + k + 1] == [json[start + k]];
      }
  }

  /**
   * An account response with the asset's marker, then anything, then the
   * free marker, the amount and a quote gives back the amount, when neither
   * marker occurs earlier and the amount holds no quote.
   */
  lemma BalanceRoundTrip(prefix: string, asset: string, mid: string, amount: string, rest: string)
    requires
      var json := prefix + AssetMarker(asset) + mid + FreeMarker + amount + "\"" + rest;
      && (forall i :: 0 <= i < |prefix| ==> !OccursAt(json, AssetMarker(asset), i))
      && (forall i :: |prefix| <= i < |prefix| + |AssetMarker(asset)| + |mid| ==> !OccursAt(json, FreeMarker, i))
    requires '"' !in amount
    ensures BalanceText(prefix + AssetMarker(asset) + mid + FreeMarker + amount + "\"" + rest, asset) == Some(amount)
  {
    var m := AssetMarker(asset);
    var x0 := prefix + m;
    var x1 := x0 + mid;
    var x2 := x1 + FreeMarker;
    var x3 := x2 + amount;
    var x4 := x3 + "\"";
    var json := x4 + rest;
    OccursAtEnd(prefix, m);
    OccursExtend(x0, mid, m, |prefix|);
    OccursExtend(x1, FreeMarker, m, |prefix|);
    OccursExtend(x2, amount, m, |prefix|);
    OccursExtend(x3, "\"", m, |prefix|);
    OccursExtend(x4, rest, m, |prefix|);
    OccursAtEnd(x1, FreeMarker);
    OccursExtend(x2, amount, FreeMarker, |x1|);
    OccursExtend(x3, "\"", FreeMarker, |x1|);
    OccursExtend(x4, rest, FreeMarker, |x1|);
    OccursAtEnd(x3, "\"");
    OccursExtend(x4, rest, "\"", |x3|);
    assert json[|x2|..|x3|] == x3[|x2|..] == amount;
    BalanceAt(json, asset, |prefix|, |x1|, amount);
  }

  /**
   * The asset marker first at `a`, the free marker first at `f` from there on,
   * then a quote-free amount and a quote: the balance text is that amount.
   */
  lemma BalanceAt(json: string, asset: string, a: nat, f: nat, amount: string)
    requires OccursAt(json, AssetMarker(asset), a)
    requires forall i :: 0 <= i < a ==> !OccursAt(json, AssetMarker(asset), i)
    requires a <= f && OccursAt(json, FreeMarker, f)
    requires forall i :: a <= i < f ==> !OccursAt(json, FreeMarker, i)
    requires f + |FreeMarker| + |amount| <= |json|
    requires json[f + |FreeMarker|..f + |FreeMarker| + |amount|] == amount
    requires OccursAt(json, "\"", f + |FreeMarker| + |amount|)
    requires '"' !in amount
    ensures BalanceText(json, asset) == Some(amount)
  {
    var start := f + |FreeMarker|;
    var e := start + |amount|;
    IndexOfFirst(json, AssetMarker(asset), 0, a);
    IndexOfFirst(json, FreeMarker, a, f);
    NextQuote(json, start, amount);
    BalanceTextAt(json, asset, a, f, e);
  }

  /** Where the three searches of `BalanceText` land determines its result. */
  lemma BalanceTextAt(json: string, asset: string, a: nat, f: nat, e: nat)
    requires IndexOf(json, AssetMarker(asset), 0) == a
    requires IndexOf(json, FreeMarker, a) == f
    requires IndexOf(json, "\"", f + |FreeMarker|) == e
    ensures f + |FreeMarker| <= e <= |json|
    ensures BalanceText(json, asset) == Some(json[f + |FreeMarker|..e])
  {
  }

  /** A quote-free text followed by a quote: the next quote is right after it. */
  lemma NextQuote(json: string, start: nat, amount: string)
    requires start + |amount| <= |json|
    requires json[start..start + |amount|] == amount
    requires OccursAt(json, "\"", start + |amount|)
    requires '"' !in amount
    ensures IndexOf(json, "\"", start) == start + |amount|
  {
    var e := start + |amount|;
    forall j | start <= j < e
      ensures !OccursAt(json, "\"", j)
    {
      assert json[j] == amount[j - start];
      assert json[j..j + 1] == [json[j]];
    }
    IndexOfFirst(json, "\"", start, e);
  }

  // ---------------------------------------------------------------
  // The server time of syncTime
  // ---------------------------------------------------------------

  const ServerTimeMarker: string := "\"serverTime\":"

  /** The text between `"serverTime":` and the next `}`. */
  function ServerTimeText(json: string): Option<string>
  {
    var idx := IndexOf(json, ServerTimeMarker, 0);
    if idx == -1 then None
    else
      var start := idx + |ServerTimeMarker|;
      var end := IndexOf(json, "}", start);
      if end == -1 then None else Some(json[start..end])
  }

  /**
   * The offset `syncTime` stores: server time minus the local clock, or
   * nothing (no sync) when the text is missing or does not parse.
   */
  function ServerTimeOffset(json: string, localTime: int, parseLong: string -> Option<int>): Option<int>
  {
    match ServerTimeText(json)
    case None => None
    case Some(text) => if parseLong(text).Some? then Some(parseLong(text).value - localTime) else None
  }

  /**
   * The response `{"serverTime":<digits>}` yields its digits, and the local
   * clock plus the stored offset is the server time.
   */
  lemma ServerTimeRoundTrip(digits: string, localTime: int, parseLong: string -> Option<int>)
    requires '}' !in digits
    ensures ServerTimeText("{" + ServerTimeMarker + digits + "}") == Some(digits)
    ensures parseLong(digits).Some? ==>
      && ServerTimeOffset("{" + ServerTimeMarker + digits + "}", localTime, parseLong).Some?
      && localTime + ServerTimeOffset("{" + ServerTimeMarker + digits + "}", localTime, parseLong).value == parseLong(digits).value
  {
    var json := "{" + ServerTimeMarker + digits + "}";
    var start := 1 + |ServerTimeMarker|;
    var e := start + |digits|;
    assert json[1..1 + |ServerTimeMarker|] == ServerTimeMarker;
    assert json[0] == '{';
    assert !OccursAt(json, ServerTimeMarker, 0) by {
      assert json[0..|ServerTimeMarker|][0] == '{';
    }
    IndexOfFirst(json, ServerTimeMarker, 0, 1);
    assert json[e..e + 1] == "}";
    forall j | start <= j < e
      ensures !OccursAt(json, "}", j)
    {
      assert json[j] == digits[j - start];
      assert json[j..j + 1] == [json[j]];
    }
    IndexOfFirst(json, "}", start, e);
    assert json[start..e] == digits;
  }

  // ---------------------------------------------------------------
  // The order query of placeOrder
  // ---------------------------------------------------------------

  /** `symbol=S&side=D&type=MARKET&quantity=Q&timestamp=T`. */
  function OrderQuery(symbol: string, side: string, quantityText: string, timestamp: int): string
  {
    "symbol=" + symbol + "&side=" + side + "&type=MARKET&quantity=" + quantityText + "&timestamp=" + IntToString(timestamp)
  }

  /** The signed query: the query followed by `&signature=` and the signature. */
  function SignedQuery(query: string, signature: string): string
  {
    query + "&signature=" + signature
  }

  /**
   * When no part contains `&`, the signed query splits back on `&` into
   * exactly its six `key=value` parameters, in order.
   */
  lemma QueryParameters(symbol: string, side: string, quantityText: string, timestamp: int, signature: string)
    requires '&' !in symbol && '&' !in side && '&' !in quantityText && '&' !in signature
    ensures SplitAll(SignedQuery(OrderQuery(symbol, side, quantityText, timestamp), signature), '&') ==
      ["symbol=" + symbol, "side=" + side, "type=MARKET", "quantity=" + quantityText,
       "timestamp=" + IntToString(timestamp), "signature=" + signature]
  {
    var ts := IntToString(timestamp);
    var f0, f1, f2, f3, f4, f5 := "symbol=" + symbol, "side=" + side, "type=MARKET",
      "quantity=" + quantityText, "timestamp=" + ts, "signature=" + signature;
    var fields := [f0, f1, f2, f3, f4, f5];
    assert SignedQuery(OrderQuery(symbol, side, quantityText, timestamp), signature) == Join(fields, '&') by {
      QueryText(symbol, side, quantityText, ts, signature);
      JoinSix(f0, f1, f2, f3, f4, f5, '&');
    }
    assert forall j :: 0 <= j < |fields| ==> '&' !in fields[j] by {
      assert '&' !in ts;
    }
    SplitAllJoin(fields, '&');
  }

  /** The signed query is its six parameters with `&` between them. */
  lemma QueryText(symbol: string, side: string, quantityText: string, ts: string, signature: string)
    ensures "symbol=" + symbol + "&side=" + side + "&type=MARKET&quantity=" + quantityText + "&timestamp=" + ts + "&signature=" + signature
      == ("symbol=" + symbol) + "&" + ("side=" + side) + "&" + "type=MARKET" + "&" + ("quantity=" + quantityText)
         + "&" + ("timestamp=" + ts) + "&" + ("signature=" + signature)
  {
    var q1 := "symbol=" + symbol;
    Glue(q1, "&side=", "side=", side);
    var q2 := q1 + "&" + ("side=" + side);
    assert "&type=MARKET&quantity=" == "&" + "type=MARKET" + "&" + "quantity=";
    Glue2(q2, "&type=MARKET&quantity=", "type=MARKET", "quantity=", quantityText);
    var q3 := q2 + "&" + "type=MARKET" + "&" + ("quantity=" + quantityText);
    Glue(q3, "&timestamp=", "timestamp=", ts);
    var q4 := q3 + "&" + ("timestamp=" + ts);
    Glue(q4, "&signature=", "signature=", signature);
  }

  /** A separator glued to the key before a value is the separator before the pair. */
  lemma Glue(q: string, lit: string, key: string, v: string)
    requires lit == "&" + key
    ensures q + lit + v == q + "&" + (key + v)
  {
  }

  lemma Glue2(q: string, lit: string, mid: string, key: string, v: string)
    requires lit == "&" + mid + "&" + key
    ensures q + lit + v == q + "&" + mid + "&" + (key + v)
  {
  }

  lemma JoinSix(f0: string, f1: string, f2: string, f3: string, f4: string, f5: string, c: char)
    ensures Join([f0, f1, f2, f3, f4, f5], c) == f0 + [c] + f1 + [c] + f2 + [c] + f3 + [c] + f4 + [c] + f5
  {
    var xs := [f0, f1, f2, f3, f4, f5];
    assert Join(xs[5..], c) == f5;
    assert Join(xs[4..], c) == f4 + [c] + f5;
    assert Join(xs[3..], c) == f3 + [c] + f4 + [c] + f5;
    assert Join(xs[2..], c) == f2 + [c] + f3 + [c] + f4 + [c] + f5;
    assert Join(xs[1..], c) == f1 + [c] + f2 + [c] + f3 + [c] + f4 + [c] + f5;
  }
}
