/**
 * The exchange credentials: two keys that start as placeholders, a `.env`
 * file read line by line where a `BINANCE_API_KEY=` or
 * `BINANCE_SECRET_KEY=` line sets the key to its trimmed remainder, and the
 * test whether both keys have been replaced.
 */
module BinanceConfig {
  import opened Models
  import opened Text

  const PlaceholderApiKey: string := "YOUR_API_KEY_HERE"
  const PlaceholderSecretKey: string := "YOUR_SECRET_KEY_HERE"
  const ApiKeyPrefix: string := "BINANCE_API_KEY="
  const SecretKeyPrefix: string := "BINANCE_SECRET_KEY="

  datatype Keys = Keys(apiKey: string, secretKey: string)

  const InitialKeys: Keys := Keys(PlaceholderApiKey, PlaceholderSecretKey)

  /** The effect of one `.env` line; the API-key test comes first. */
  function ApplyLine(k: Keys, line: string): Keys
  {
    if StartsWith(line, ApiKeyPrefix) then k.(apiKey := Trim(line[|ApiKeyPrefix|..]))
    else if StartsWith(line, SecretKeyPrefix) then k.(secretKey := Trim(line[|SecretKeyPrefix|..]))
    else k
  }

  /** The state after applying `f` to each line in order, starting from `k`. */
  function Fold(k: Keys, lines: seq<string>, f: (Keys, string) -> Keys): Keys
  {
    if lines == [] then k
    else f(Fold(k, lines[..|lines| - 1], f), lines[|lines| - 1])
  }

  lemma {:induction false} FoldAppend(k: Keys, a: seq<string>, b: seq<string>, f: (Keys, string) -> Keys)
    ensures Fold(k, a + b, f) == Fold(Fold(k, a, f), b, f)
    decreases |b|
  {
    if b == [] {
      assert a + b == a;
    } else {
      var c := a + b;
      var init := b[..|b| - 1];
      var last := b[|b| - 1];
      assert c[..|c| - 1] == a + init;
      assert c[|c| - 1] == last;
      assert Fold(k, c, f) == f(Fold(k, a + init, f), last);
      assert Fold(Fold(k, a, f), b, f) == f(Fold(Fold(k, a, f), init, f), last);
      FoldAppend(k, a, init, f);
    }
  }

  lemma FoldStep(k: Keys, lines: seq<string>, i: nat, f: (Keys, string) -> Keys)
    requires i < |lines|
    ensures Fold(k, lines[..i + 1], f) == f(Fold(k, lines[..i], f), lines[i])
  {
    assert lines[..i + 1][..i] == lines[..i];
    assert lines[..i + 1][i] == lines[i];
  }

  /** The keys after reading the lines in order, starting from `k`. */
  function Loaded(k: Keys, lines: seq<string>): Keys
  {
    Fold(k, lines, ApplyLine)
  }

  /** `loadEnv` from `k`: a missing file leaves the keys as they are. */
  function LoadedFrom(k: Keys, file: Option<seq<string>>): Keys
  {
    match file
    case None => k
    case Some(lines) => Loaded(k, lines)
  }

  /** `isConfigured`: both keys differ from their placeholders. */
  predicate Configured(k: Keys)
  {
    k.apiKey != PlaceholderApiKey && k.secretKey != PlaceholderSecretKey
  }

  /** Reading two files one after the other is reading the second from the keys the first left. */
  lemma LoadedAppend(k: Keys, a: seq<string>, b: seq<string>)
    ensures Loaded(k, a + b) == Loaded(Loaded(k, a), b)
  {
    FoldAppend(k, a, b, ApplyLine);
  }

  /** One more line applies its effect to the keys read so far. */
  lemma LoadedStep(k: Keys, lines: seq<string>, i: nat)
    requires i < |lines|
    ensures Loaded(k, lines[..i + 1]) == ApplyLine(Loaded(k, lines[..i]), lines[i])
  {
    FoldStep(k, lines, i, ApplyLine);
  }

  /** Reading no line changes nothing; reading every line is reading the file. */
  lemma LoadedEnds(k: Keys, lines: seq<string>)
    ensures Loaded(k, lines[..0]) == k
    ensures Loaded(k, lines[..|lines|]) == Loaded(k, lines)
  {
    assert lines[..0] == [];
    assert lines[..|lines|] == lines;
  }

  /** No line of `lines` sets the API key (or, for the second predicate, the secret key). */
  predicate NoApiLine(lines: seq<string>)
  {
    forall j :: 0 <= j < |lines| ==> !StartsWith(lines[j], ApiKeyPrefix)
  }

  predicate NoSecretLine(lines: seq<string>)
  {
    forall j :: 0 <= j < |lines| ==> !StartsWith(lines[j], SecretKeyPrefix)
  }

  /** Lines that do not set the API key leave it alone, and lines that do not set the secret key leave that one alone. */
  lemma {:induction false} KeysUntouched(k: Keys, lines: seq<string>)
    ensures NoApiLine(lines) ==> Loaded(k, lines).apiKey == k.apiKey
    ensures NoSecretLine(lines) ==> Loaded(k, lines).secretKey == k.secretKey
    decreases |lines|
  {
    if lines != [] {
      var init := lines[..|lines| - 1];
      KeysUntouched(k, init);
      LoadedStep(k, lines, |lines| - 1);
      assert lines[..|lines|] == lines;
      if NoApiLine(lines) {
        assert NoApiLine(init) by {
          forall j | 0 <= j < |init|
            ensures !StartsWith(init[j], ApiKeyPrefix)
          {
            assert init[j] == lines[j];
          }
        }
        assert !StartsWith(lines[|lines| - 1], ApiKeyPrefix);
      }
      if NoSecretLine(lines) {
        assert NoSecretLine(init) by {
          forall j | 0 <= j < |init|
            ensures !StartsWith(init[j], SecretKeyPrefix)
          {
            assert init[j] == lines[j];
          }
        }
      }
    }
  }

  /**
   * A later setting overrides an earlier one: after a `BINANCE_API_KEY=`
   * line followed only by lines that do not set the API key, the API key is
   * that line's trimmed value, whatever came before.
   */
  lemma LastApiLineWins(k: Keys, a: seq<string>, value: string, b: seq<string>)
    requires NoApiLine(b)
    ensures Loaded(k, a + [ApiKeyPrefix + value] + b).apiKey == Trim(value)
  {
    var line := ApiKeyPrefix + value;
    assert StartsWith(line, ApiKeyPrefix) by {
      assert line[..|ApiKeyPrefix|] == ApiKeyPrefix;
    }
    assert line[|ApiKeyPrefix|..] == value;
    LoadedAppend(k, a + [line], b);
    LoadedAppend(k, a, [line]);
    LoadedStep(k, [line], 0);
    KeysUntouched(Loaded(k, a + [line]), b);
  }

  /** The same for the secret key: later API-key lines do not touch it. */
  lemma LastSecretLineWins(k: Keys, a: seq<string>, value: string, b: seq<string>)
    requires NoSecretLine(b)
    ensures Loaded(k, a + [SecretKeyPrefix + value] + b).secretKey == Trim(value)
  {
    var line := SecretKeyPrefix + value;
    assert StartsWith(line, SecretKeyPrefix) by {
      assert line[..|SecretKeyPrefix|] == SecretKeyPrefix;
    }
    PrefixesExclusive(line);
    assert line[|SecretKeyPrefix|..] == value;
    LoadedAppend(k, a + [line], b);
    LoadedAppend(k, a, [line]);
    LoadedStep(k, [line], 0);
    KeysUntouched(Loaded(k, a + [line]), b);
  }

  /** The two key lines may come in either order: a secret-key line before an API-key line keeps its value. */
  lemma SecretLineBeforeApiLine(k: Keys, secret: string, api: string)
    ensures Loaded(k, [SecretKeyPrefix + secret, ApiKeyPrefix + api]).secretKey == Trim(secret)
    ensures Loaded(k, [SecretKeyPrefix + secret, ApiKeyPrefix + api]).apiKey == Trim(api)
  {
    var apiLine := ApiKeyPrefix + api;
    assert StartsWith(apiLine, ApiKeyPrefix) by {
      assert apiLine[..|ApiKeyPrefix|] == ApiKeyPrefix;
    }
    if StartsWith(apiLine, SecretKeyPrefix) {
      PrefixesExclusive(apiLine);
      assert false;
    }
    assert NoSecretLine([apiLine]);
    LastSecretLineWins(k, [], secret, [apiLine]);
    LastApiLineWins(k, [SecretKeyPrefix + secret], api, []);
    assert [] + [SecretKeyPrefix + secret] + [apiLine] == [SecretKeyPrefix + secret, apiLine];
    assert [SecretKeyPrefix + secret] + [apiLine] + [] == [SecretKeyPrefix + secret, apiLine];
  }

  /** A line that sets neither key changes nothing, wherever it stands. */
  lemma UnrelatedLineIgnored(k: Keys, a: seq<string>, line: string, b: seq<string>)
    requires !StartsWith(line, ApiKeyPrefix) && !StartsWith(line, SecretKeyPrefix)
    ensures Loaded(k, a + [line] + b) == Loaded(k, a + b)
  {
    LoadedAppend(k, a + [line], b);
    LoadedAppend(k, a, [line]);
    LoadedAppend(k, a, b);
    LoadedStep(k, [line], 0);
  }

  /** Without a file both placeholders stay, so the client is not configured. */
  lemma MissingFileNotConfigured()
    ensures LoadedFrom(InitialKeys, None) == InitialKeys
    ensures !Configured(LoadedFrom(InitialKeys, None))
  {
  }

  /** The two prefixes differ at index 8, so no line starts with both. */
  lemma PrefixesExclusive(line: string)
    requires StartsWith(line, SecretKeyPrefix)
    ensures !StartsWith(line, ApiKeyPrefix)
  {
    assert line[8] == SecretKeyPrefix[8] == 'S';
    assert ApiKeyPrefix[8] == 'A';
  }

  /**
   * Only the placeholder text itself counts as unset: key lines with empty
   * values, read last, make the client configured.
   */
  lemma EmptyKeysCountAsConfigured(a: seq<string>)
    ensures Configured(Loaded(InitialKeys, a + [ApiKeyPrefix, SecretKeyPrefix]))
  {
    var k0 := Loaded(InitialKeys, a);
    var k1 := ApplyLine(k0, ApiKeyPrefix);
    BareApiLine(k0);
    BareSecretLine(k1);
    assert Loaded(InitialKeys, a + [ApiKeyPrefix]) == k1 by {
      LoadedAppend(InitialKeys, a, [ApiKeyPrefix]);
      LoadedOne(k0, ApiKeyPrefix);
    }
    assert a + [ApiKeyPrefix, SecretKeyPrefix] == (a + [ApiKeyPrefix]) + [SecretKeyPrefix];
    LoadedAppend(InitialKeys, a + [ApiKeyPrefix], [SecretKeyPrefix]);
    LoadedOne(k1, SecretKeyPrefix);
  }

  /** Loading a single line applies the line rule once. */
  lemma LoadedOne(k: Keys, line: string)
    ensures Loaded(k, [line]) == ApplyLine(k, line)
  {
    LoadedStep(k, [line], 0);
    assert [line][..1] == [line];
    assert [line][..0] == [];
  }

  /** A line holding just a prefix sets that key to the empty text. */
  lemma BareApiLine(k: Keys)
    ensures ApplyLine(k, ApiKeyPrefix) == k.(apiKey := [])
  {
    assert StartsWith(ApiKeyPrefix, ApiKeyPrefix);
    assert ApiKeyPrefix[|ApiKeyPrefix|..] == [];
  }

  lemma BareSecretLine(k: Keys)
    ensures ApplyLine(k, SecretKeyPrefix) == k.(secretKey := [])
  {
    assert StartsWith(SecretKeyPrefix, SecretKeyPrefix);
    PrefixesExclusive(SecretKeyPrefix);
    assert SecretKeyPrefix[|SecretKeyPrefix|..] == [];
  }

  /** The two key fields of the configuration class. */
  class BinanceConfig {
    var apiKey: string
    var secretKey: string

    function Current(): Keys
      reads this
    {
      Keys(apiKey, secretKey)
    }

    /** The static initialiser: the placeholders, then `loadEnv` on the file if there is one. */
    constructor(file: Option<seq<string>>)
      ensures Current() == LoadedFrom(InitialKeys, file)
    {
      apiKey := PlaceholderApiKey;
      secretKey := PlaceholderSecretKey;
      new;
      LoadEnv(file);
    }

    /** `loadEnv`: each line that starts with a key prefix overwrites that key. */
    method LoadEnv(file: Option<seq<string>>)
      modifies this
      ensures Current() == LoadedFrom(old(Current()), file)
    {
      if file.None? {
        return;
      }
      var lines := file.value;
      ghost var start := Current();
      LoadedEnds(start, lines);
      var i := 0;
      while i < |lines|
        invariant 0 <= i <= |lines|
        invariant Keys(apiKey, secretKey) == Loaded(start, lines[..i])
      {
        LoadedStep(start, lines, i);
        ReadLine(lines[i]);
        i := i + 1;
      }
    }

    /** The body of the loop in `loadEnv`: the API-key test comes first. */
    method ReadLine(line: string)
      modifies this
      ensures Keys(apiKey, secretKey) == ApplyLine(old(Keys(apiKey, secretKey)), line)
    {
      if StartsWith(line, ApiKeyPrefix) {
        apiKey := Trim(line[|ApiKeyPrefix|..]);
      } else if StartsWith(line, SecretKeyPrefix) {
        secretKey := Trim(line[|SecretKeyPrefix|..]);
      }
    }
  }
}
