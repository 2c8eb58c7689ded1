/**
 * The two rules of the HTTP API that carry logic: turning the lines of the
 * trades CSV into a JSON array, and turning a POST body into the strategy
 * the bot uses from then on.
 */
module ApiService {
  import opened Models
  import opened Text
  import opened StrategyDecorator
  import Bot

  // ---------------------------------------------------------------
  // getTradesAsJson
  // ---------------------------------------------------------------

  /** A line is kept when it is not blank after trimming and has at least four comma fields. */
  predicate IsTradeLine(line: string)
  {
    Trim(line) != [] && |JavaSplit(line, ',')| >= 4
  }

  /** Field `i` trimmed, or "0" when the line has no such field. */
  function FieldOr(parts: seq<string>, i: nat): string
  {
    if |parts| > i then Trim(parts[i]) else "0"
  }

  /** The pieces of the object format around its seven values. */
  const OpenTimestamp: string := "{\"timestamp\":\""
  const ThenSymbol: string := "\",\"symbol\":\""
  const ThenSide: string := "\",\"side\":\""
  const ThenQuantity: string := "\",\"quantity\":\""
  const ThenPrice: string := "\",\"price\":"
  const ThenUsdt: string := ",\"usdt\":"
  const ThenBtc: string := ",\"btc\":"
  const CloseObject: string := "}"

  /** The JSON object of seven field values, the first four quoted. */
  function ObjectText(timestamp: string, symbol: string, side: string, quantity: string,
                      price: string, usdt: string, btc: string): string
  {
    OpenTimestamp + timestamp + ThenSymbol + symbol + ThenSide + side + ThenQuantity + quantity
      + ThenPrice + price + ThenUsdt + usdt + ThenBtc + btc + CloseObject
  }

  /** The JSON object of the comma fields of one kept line. */
  function TradeObject(parts: seq<string>): string
    requires |parts| >= 4
  {
    ObjectText(Trim(parts[0]), Trim(parts[1]), Trim(parts[2]), Trim(parts[3]),
      FieldOr(parts, 4), FieldOr(parts, 5), FieldOr(parts, 6))
  }

  /** What one line adds to the array: its object when it is kept, nothing when it is skipped. */
  function Contribution(line: string): (r: seq<string>)
    ensures |r| <= 1 && (r == [] <==> !IsTradeLine(line))
  {
    if IsTradeLine(line) then [TradeObject(JavaSplit(line, ','))] else []
  }

  /** The items `f` gives for each line, in line order. */
  function FlatMap(lines: seq<string>, f: string -> seq<string>): seq<string>
  {
    if lines == [] then []
    else FlatMap(lines[..|lines| - 1], f) + f(lines[|lines| - 1])
  }

  lemma {:induction false} FlatMapAppend(a: seq<string>, b: seq<string>, f: string -> seq<string>)
    ensures FlatMap(a + b, f) == FlatMap(a, f) + FlatMap(b, f)
    decreases |b|
  {
    if b == [] {
      assert a + b == a;
    } else {
      var c := a + b;
      var init := b[..|b| - 1];
      var last := b[|b| - 1];
      assert c[..|c| - 1] == a + init;
      assert c[|c| - 1] == last;
      assert FlatMap(c, f) == FlatMap(a + init, f) + f(last);
      assert FlatMap(b, f) == FlatMap(init, f) + f(last);
      FlatMapAppend(a, init, f);
    }
  }

  /** One more line adds what `f` gives for it. */
  lemma FlatMapStep(lines: seq<string>, i: nat, f: string -> seq<string>)
    requires i < |lines|
    ensures FlatMap(lines[..i + 1], f) == FlatMap(lines[..i], f) + f(lines[i])
  {
    assert lines[..i + 1][..i] == lines[..i];
    assert lines[..i + 1][i] == lines[i];
  }

  lemma FlatMapInsert(a: seq<string>, x: string, b: seq<string>, f: string -> seq<string>)
    ensures FlatMap(a + [x] + b, f) == FlatMap(a, f) + f(x) + FlatMap(b, f)
  {
    FlatMapAppend(a + [x], b, f);
    FlatMapAppend(a, [x], f);
    assert [x][..0] == [];
  }

  /** The objects of the kept lines, in file order. */
  function TradeObjects(lines: seq<string>): seq<string>
  {
    FlatMap(lines, Contribution)
  }

  /** The objects of two files one after the other are the objects of each. */
  lemma TradeObjectsAppend(a: seq<string>, b: seq<string>)
    ensures TradeObjects(a + b) == TradeObjects(a) + TradeObjects(b)
  {
    FlatMapAppend(a, b, Contribution);
  }

  /** Each line adds its own contribution at its own place. */
  lemma LineContribution(a: seq<string>, line: string, b: seq<string>)
    ensures TradeObjects(a + [line] + b) == TradeObjects(a) + Contribution(line) + TradeObjects(b)
  {
    FlatMapInsert(a, line, b, Contribution);
  }


  /**
   * `getTradesAsJson` on the file's lines, or on `None` when the file cannot
   * be read: "[]" on a read error, else "[" + the objects joined by single
   * commas + "]".
   */
  function TradesJson(file: Option<seq<string>>): (r: string)
    ensures |r| >= 2 && r[0] == '[' && r[|r| - 1] == ']'
    ensures file.None? ==> r == "[]"
  {
    match file
    case None => "[]"
    case Some(lines) => "[" + Join(TradeObjects(lines), ',') + "]"
  }

  /**
   * A non-blank line that splits on commas into four or seven fields, each
   * already trimmed, is kept and gives the object of exactly those fields;
   * with only four, price, usdt and btc read "0".
   */
  lemma TradeLineFields(line: string, fields: seq<string>)
    requires Trim(line) != [] && JavaSplit(line, ',') == fields
    requires |fields| == 4 || |fields| == 7
    requires forall j :: 0 <= j < |fields| ==> Untrimmed(fields[j])
    ensures Contribution(line) == [
      ObjectText(fields[0], fields[1], fields[2], fields[3],
        if |fields| == 7 then fields[4] else "0",
        if |fields| == 7 then fields[5] else "0",
        if |fields| == 7 then fields[6] else "0")]
  {
    ObjectOfTrimmed(fields);
    KeptFields(line, fields);
  }

  /** A non-blank line that splits into at least four fields contributes the object of those fields. */
  lemma KeptFields(line: string, fields: seq<string>)
    requires Trim(line) != [] && JavaSplit(line, ',') == fields && |fields| >= 4
    ensures Contribution(line) == [TradeObject(fields)]
  {
  }

  /** Fields that are already trimmed enter the object as they are. */
  lemma ObjectOfTrimmed(fields: seq<string>)
    requires |fields| == 4 || |fields| == 7
    requires forall j :: 0 <= j < |fields| ==> Untrimmed(fields[j])
    ensures TradeObject(fields) ==
      ObjectText(fields[0], fields[1], fields[2], fields[3],
        if |fields| == 7 then fields[4] else "0",
        if |fields| == 7 then fields[5] else "0",
        if |fields| == 7 then fields[6] else "0")
  {
    forall j | 0 <= j < |fields|
      ensures Trim(fields[j]) == fields[j]
    {
      TrimUntrimmed(fields[j]);
    }
  }

  /**
   * Comma-free, trimmed fields, the first and last not empty, joined by
   * commas make a non-blank line that splits back into those fields.
   */
  lemma LineOfFields(fields: seq<string>)
    requires |fields| >= 2
    requires forall j :: 0 <= j < |fields| ==> Untrimmed(fields[j]) && ',' !in fields[j]
    requires fields[0] != [] && fields[|fields| - 1] != []
    ensures JavaSplit(Join(fields, ','), ',') == fields
    ensures Trim(Join(fields, ',')) != []
  {
    var line := Join(fields, ',');
    JavaSplitJoin(fields, ',');
    assert line == fields[0] + [','] + Join(fields[1..], ',');
    assert line[0] == fields[0][0];
    assert !IsTrimmable(fields[0][0]);
    TrimKeeps(line);
  }

  /** Trimming keeps a text whose first character is not trimmable non-empty. */
  lemma TrimKeeps(s: string)
    requires s != [] && !IsTrimmable(s[0])
    ensures Trim(s) != []
  {
    assert TrimStart(s) == s;
    TrimRule(s);
    var k :| TrimmedAt(s, Trim(s), k);
  }

  /** The loop of `getTradesAsJson`, with its `first` flag deciding whether a comma goes before an object. */
  method GetTradesAsJson(file: Option<seq<string>>) returns (json: string)
    ensures json == TradesJson(file)
  {
    if file.None? {
      return "[]";
    }
    var lines := file.value;
    var built := "[";
    var first := true;
    var i := 0;
    while i < |lines|
      invariant 0 <= i <= |lines|
      invariant first <==> TradeObjects(lines[..i]) == []
      invariant built == "[" + Join(TradeObjects(lines[..i]), ',')
    {
      var line := lines[i];
      if !IsTradeLine(line) {
        // a blank line or one with fewer than four fields: `continue`
        SkipLine(lines, i);
      } else {
        var parts := JavaSplit(line, ',');
        var obj := TradeObject(parts);
        KeepLine(lines, i);
        AppendObject(built, TradeObjects(lines[..i]), obj, first);
        if !first {
          built := built + ",";
        }
        built := built + obj;
        first := false;
      }
      i := i + 1;
    }
    assert lines[..|lines|] == lines;
    json := built + "]";
  }

  /** One more object after the text so far, with a comma unless it is the first. */
  lemma AppendObject(built: string, before: seq<string>, obj: string, first: bool)
    requires built == "[" + Join(before, ',')
    requires first <==> before == []
    ensures (if first then built else built + ",") + obj == "[" + Join(before + [obj], ',')
  {
    JoinAppend(before, obj, ',');
  }

  /** The contribution of a kept line is its object. */
  lemma KeptLine(line: string)
    requires IsTradeLine(line)
    ensures Contribution(line) == [TradeObject(JavaSplit(line, ','))]
  {
  }

  /** A skipped line adds nothing to the objects so far. */
  lemma SkipLine(lines: seq<string>, i: nat)
    requires i < |lines| && !IsTradeLine(lines[i])
    ensures TradeObjects(lines[..i + 1]) == TradeObjects(lines[..i])
  {
    FlatMapStep(lines, i, Contribution);
    assert TradeObjects(lines[..i]) + [] == TradeObjects(lines[..i]);
  }

  /** A kept line adds its object after the objects so far. */
  lemma KeepLine(lines: seq<string>, i: nat)
    requires i < |lines| && IsTradeLine(lines[i])
    ensures TradeObjects(lines[..i + 1]) == TradeObjects(lines[..i]) + [TradeObject(JavaSplit(lines[i], ','))]
  {
    FlatMapStep(lines, i, Contribution);
    KeptLine(lines[i]);
  }

  // ---------------------------------------------------------------
  // The POST rule of the strategy handler
  // ---------------------------------------------------------------

  /** `Character.isWhitespace` on the ASCII range: tab to carriage return, the four separators, and space. */
  predicate IsJavaWhitespace(c: char)
  {
    (9 <= c as int <= 13) || (28 <= c as int <= 32)
  }

  /** The request body as the scanner's tokens concatenated: every whitespace character dropped. */
  function StripWhitespace(raw: string): (r: string)
    ensures |r| <= |raw|
  {
    if raw == [] then []
    else if IsJavaWhitespace(raw[0]) then StripWhitespace(raw[1..])
    else [raw[0]] + StripWhitespace(raw[1..])
  }

  /** No whitespace is left, and every other character is kept. */
  lemma {:induction false} StripWhitespaceRule(raw: string)
    ensures forall j :: 0 <= j < |StripWhitespace(raw)| ==> !IsJavaWhitespace(StripWhitespace(raw)[j])
    ensures forall c :: c in raw && !IsJavaWhitespace(c) ==> c in StripWhitespace(raw)
  {
    if raw != [] {
      StripWhitespaceRule(raw[1..]);
      forall c | c in raw && !IsJavaWhitespace(c)
        ensures c in StripWhitespace(raw)
      {
        if c != raw[0] {
          assert c in raw[1..];
        }
      }
    }
  }

  /** The concatenation of two texts loses their whitespace separately; a text without any is kept. */
  lemma {:induction false} StripWhitespaceAppend(a: string, b: string)
    ensures StripWhitespace(a + b) == StripWhitespace(a) + StripWhitespace(b)
  {
    if a == [] {
      assert a + b == b;
    } else {
      assert (a + b)[0] == a[0];
      assert (a + b)[1..] == a[1..] + b;
      StripWhitespaceAppend(a[1..], b);
    }
  }

  lemma {:induction false} StripWhitespaceKeeps(s: string)
    requires forall j :: 0 <= j < |s| ==> !IsJavaWhitespace(s[j])
    ensures StripWhitespace(s) == s
  {
    if s != [] {
      StripWhitespaceKeeps(s[1..]);
      assert [s[0]] + s[1..] == s;
    }
  }

  /**
   * The strategy a POST body configures: TrendFollowing when the body
   * mentions it and SmaCrossover(5, 10) otherwise, wrapped in crash
   * protection at 2% when mentioned, else in HighRisk, else in LowRisk.
   */
  function StrategyFromBody(body: string): Strategy
  {
    var baseStrategy := if Contains(body, "TrendFollowing") then Trend else Sma(5, 10);
    if Contains(body, "CrashProtection") then Crash(baseStrategy, 0.02)
    else if Contains(body, "HighRisk") then HighRisk(baseStrategy)
    else if Contains(body, "LowRisk") then LowRisk(baseStrategy)
    else baseStrategy
  }

  /**
   * At most one decorator, chosen by precedence CrashProtection, HighRisk,
   * LowRisk; the base is TrendFollowing exactly when the body holds that
   * word, whatever else it holds.
   */
  lemma StrategyRule(body: string)
    ensures var s := StrategyFromBody(body);
      && (s.Crash? <==> Contains(body, "CrashProtection"))
      && (s.Crash? ==> s.dropThreshold == 0.02)
      && (s.HighRisk? <==> !Contains(body, "CrashProtection") && Contains(body, "HighRisk"))
      && (s.LowRisk? <==> !Contains(body, "CrashProtection") && !Contains(body, "HighRisk") && Contains(body, "LowRisk"))
      && (Innermost(s) == Trend <==> Contains(body, "TrendFollowing"))
      && (!Contains(body, "TrendFollowing") ==> Innermost(s) == Sma(5, 10))
      && (s.Crash? || s.HighRisk? || s.LowRisk? ==> s.wrapped == Innermost(s))
  {
  }

  /** A word inside a text is contained in it. */
  lemma ContainsInside(a: string, word: string, b: string)
    requires |word| > 0
    ensures Contains(a + word + b, word)
  {
    var s := a + word + b;
    assert s[|a|..|a| + |word|] == word;
    assert OccursAt(s, word, |a|);
    ContainsIff(s, word);
  }

  /** A whitespace-free word appended to a text survives stripping unchanged. */
  lemma StripWord(a: string, x: string)
    requires forall j :: 0 <= j < |x| ==> !IsJavaWhitespace(x[j])
    ensures StripWhitespace(a + x) == StripWhitespace(a) + x
  {
    StripWhitespaceAppend(a, x);
    StripWhitespaceKeeps(x);
  }

  /** An appended space is dropped. */
  lemma StripSpace(a: string)
    ensures StripWhitespace(a + [' ']) == StripWhitespace(a)
  {
    StripWhitespaceAppend(a, [' ']);
    assert StripWhitespace([' ']) == [];
  }

  /** Two whitespace-free words around a space, inside any text, lose just the space. */
  lemma SpacedWords(a: string, x: string, y: string, b: string)
    requires forall j :: 0 <= j < |x| ==> !IsJavaWhitespace(x[j])
    requires forall j :: 0 <= j < |y| ==> !IsJavaWhitespace(y[j])
    ensures StripWhitespace(a + x + [' '] + y + b) == StripWhitespace(a) + (x + y) + StripWhitespace(b)
  {
    StripWord(a, x);
    StripSpace(a + x);
    StripWord(a + x + [' '], y);
    StripWhitespaceAppend(a + x + [' '] + y, b);
  }

  /**
   * Whitespace in the body is gone before the words are looked for, so
   * "Trend Following" written with a space still selects TrendFollowing.
   */
  lemma SpacedNameSelectsTrend(a: string, b: string)
    ensures Innermost(StrategyFromBody(StripWhitespace(a + "Trend Following" + b))) == Trend
  {
    assert a + "Trend Following" + b == a + "Trend" + [' '] + "Following" + b;
    SpacedWords(a, "Trend", "Following", b);
    var sa, sb := StripWhitespace(a), StripWhitespace(b);
    assert "Trend" + "Following" == "TrendFollowing";
    ContainsInside(sa, "TrendFollowing", sb);
    StrategyRule(sa + "TrendFollowing" + sb);
  }

  /**
   * The POST branch of the strategy handler: read the body, choose the
   * strategy and install it in the shared configuration.
   */
  method HandlePost(config: Bot.BotConfig, raw: string) returns (installed: Strategy)
    modifies config
    ensures installed == StrategyFromBody(StripWhitespace(raw))
    ensures config.strategy == Some(installed)
  {
    var body := StripWhitespace(raw);
    installed := StrategyFromBody(body);
    config.strategy := Some(installed);
  }
}
