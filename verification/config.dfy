/**
  Start-up configuration (src/main.rs): the user and admin key lists read
  from comma-separated environment variables, the provider chosen from which
  backend variables are set, and the rate limiter's budget. The environment
  is the `env` parameter; a variable may be set to a value that is not
  valid Unicode, which `env::var` reports as an error like an unset one.
 */
module Config {
  import opened Prelude
  import opened ProviderTree
  import RateLimit

  const API_KEYS_VAR: string := "GATEWAY_API_KEYS"
  const ADMIN_KEYS_VAR: string := "ADMIN_API_KEYS"
  const OLLAMA_URL_VAR: string := "OLLAMA_BASE_URL"
  const OPENAI_KEY_VAR: string := "OPENAI_API_KEY"
  const OPENAI_URL_VAR: string := "OPENAI_BASE_URL"

  const DEFAULT_API_KEYS: string := "secret-key"
  const DEFAULT_OLLAMA_URL: string := "http://localhost:11434"
  const REQUESTS_PER_MINUTE: nat := 60

  /** Each piece trimmed, in order. */
  function TrimEach(pieces: seq<string>): (out: seq<string>)
    ensures |out| == |pieces|
    ensures forall i :: 0 <= i < |out| ==> out[i] == Trim(pieces[i])
  {
    seq(|pieces|, i requires 0 <= i < |pieces| => Trim(pieces[i]))
  }

  /** The non-empty strings of `s`, in their original order. */
  function NonEmpty(s: seq<string>): (r: seq<string>)
    ensures |r| <= |s|
    decreases |s|
  {
    if |s| == 0 then []
    else if |s[0]| > 0 then [s[0]] + NonEmpty(s[1..])
    else NonEmpty(s[1..])
  }

  /** `NonEmpty` keeps exactly the non-empty strings. */
  lemma {:induction false} NonEmptyMembers(s: seq<string>)
    ensures forall k :: k in NonEmpty(s) <==> k in s && |k| > 0
    decreases |s|
  {
    if |s| > 0 {
      NonEmptyMembers(s[1..]);
      assert s == [s[0]] + s[1..];
    }
  }

  /** Trimming keeps the text between its ends, so it adds no character. */
  lemma TrimAddsNoChar(s: string, c: char)
    requires c !in s
    ensures c !in Trim(s)
  {
  }

  /** The key-list parsing of start-up: split on ',', trim each piece, drop the empty ones. */
  function ParseKeyList(raw: string): (keys: seq<string>)
    ensures |keys| <= |Split(raw, ',')|
  {
    NonEmpty(TrimEach(Split(raw, ',')))
  }

  /**
    Every parsed key is non-empty, has no surrounding whitespace and no
    comma; the keys are exactly the pieces between commas that trim to
    something non-empty.
   */
  lemma ParseKeyListMembers(raw: string)
    ensures forall k :: k in ParseKeyList(raw) ==> |k| > 0 && Trimmed(k) && ',' !in k
    ensures forall k :: k in ParseKeyList(raw) <==> |k| > 0 && k in TrimEach(Split(raw, ','))
  {
    var parts := Split(raw, ',');
    var pieces := TrimEach(parts);
    NonEmptyMembers(pieces);
    SplitPiecesLackSep(raw, ',');
    forall i | 0 <= i < |pieces|
      ensures ',' !in pieces[i]
    {
      TrimAddsNoChar(parts[i], ',');
    }
  }

  /** Filtering distributes over concatenation. */
  lemma {:induction false} NonEmptyAppend(a: seq<string>, b: seq<string>)
    ensures NonEmpty(a + b) == NonEmpty(a) + NonEmpty(b)
    decreases |a|
  {
    if |a| > 0 {
      assert (a + b)[1..] == a[1..] + b;
      NonEmptyAppend(a[1..], b);
    } else {
      assert a + b == b;
    }
  }

  /** Trimming piecewise distributes over concatenation. */
  lemma TrimEachAppend(a: seq<string>, b: seq<string>)
    ensures TrimEach(a + b) == TrimEach(a) + TrimEach(b)
  {
  }

  /** Parsed keys keep the order of their pieces: the keys before a comma come first, then those after it. */
  lemma ParseKeyListAppend(a: string, b: string)
    ensures ParseKeyList(a + [','] + b) == ParseKeyList(a) + ParseKeyList(b)
  {
    var pa, pb := Split(a, ','), Split(b, ',');
    SplitAppend(a, b, ',');
    TrimEachAppend(pa, pb);
    NonEmptyAppend(TrimEach(pa), TrimEach(pb));
  }

  /** A single well-formed key parses to itself. */
  lemma ParseSingleKey(key: string)
    requires |key| > 0 && Trimmed(key) && ',' !in key
    ensures ParseKeyList(key) == [key]
  {
    SplitJoin([key], ',');
    TrimOfTrimmed(key);
  }

  /** The default user key list is the single key "secret-key"; an empty variable gives no keys. */
  lemma DefaultKeyLists()
    ensures ParseKeyList(DEFAULT_API_KEYS) == [DEFAULT_API_KEYS]
    ensures ParseKeyList("") == []
  {
    assert ParseKeyList(DEFAULT_API_KEYS) == [DEFAULT_API_KEYS] by {
      assert ',' !in DEFAULT_API_KEYS && Trimmed(DEFAULT_API_KEYS);
      ParseSingleKey(DEFAULT_API_KEYS);
    }
    assert ParseKeyList("") == [];
  }

  /** The value of a set environment variable: text, or bytes that are not valid Unicode. */
  datatype EnvValue = Unicode(text: string) | NotUnicode

  /** The process environment. */
  type Environment = map<string, EnvValue>

  /**
    `env::var(name).ok()`: the text of a set variable; `None` both for an
    unset variable and for one whose value is not valid Unicode.
   */
  function EnvVar(env: Environment, name: string): (v: Option<string>)
    ensures v.Some? <==> name in env && env[name].Unicode?
    ensures v.Some? ==> env[name] == Unicode(v.value)
  {
    if name in env && env[name].Unicode? then Some(env[name].text) else None
  }

  /** Everything `main` derives from the environment before serving. */
  datatype GatewayConfig = GatewayConfig(
    apiKeys: seq<string>,
    adminKeys: seq<string>,
    provider: LLMProvider,
    limiter: RateLimit.RateLimiter)

  /**
    `main`'s start-up: the key lists parsed from their variables, or from
    "secret-key" and the empty list when unset, Ollama's URL defaulting to
    the local daemon; the provider is Ollama with the
    OpenAI-compatible backend as fallback when both of its variables are
    set, and Ollama alone otherwise; the limiter allows 60 requests a minute.
   */
  function LoadConfig(env: Environment): (c: GatewayConfig)
    ensures c.apiKeys == ParseKeyList(EnvVar(env, API_KEYS_VAR).GetOr(DEFAULT_API_KEYS))
    ensures c.adminKeys == ParseKeyList(EnvVar(env, ADMIN_KEYS_VAR).GetOr(""))
    ensures c.provider.FallbackBackend? <==>
              && OPENAI_KEY_VAR in env && env[OPENAI_KEY_VAR].Unicode?
              && OPENAI_URL_VAR in env && env[OPENAI_URL_VAR].Unicode?
    ensures var ollama := OllamaBackend(EnvVar(env, OLLAMA_URL_VAR).GetOr(DEFAULT_OLLAMA_URL));
            if c.provider.FallbackBackend? then
              c.provider == FallbackBackend(ollama, OpenAIBackend(env[OPENAI_URL_VAR].text, env[OPENAI_KEY_VAR].text), None)
            else c.provider == ollama
    ensures c.limiter == RateLimit.NewRateLimiter(REQUESTS_PER_MINUTE)
  {
    var apiKeys := ParseKeyList(EnvVar(env, API_KEYS_VAR).GetOr(DEFAULT_API_KEYS));
    var adminKeys := ParseKeyList(EnvVar(env, ADMIN_KEYS_VAR).GetOr(""));
    var ollama := OllamaBackend(EnvVar(env, OLLAMA_URL_VAR).GetOr(DEFAULT_OLLAMA_URL));
    var provider :=
      match (EnvVar(env, OPENAI_KEY_VAR), EnvVar(env, OPENAI_URL_VAR))
      case (Some(key), Some(url)) => FallbackBackend(ollama, OpenAIBackend(url, key), None)
      case _ => ollama;
    GatewayConfig(apiKeys, adminKeys, provider, RateLimit.NewRateLimiter(REQUESTS_PER_MINUTE))
  }

  /**
    Key variables that are unset, or set to a value that is not valid
    Unicode, give the single user key "secret-key" and no admin key.
   */
  lemma LoadConfigDefaults(env: Environment)
    ensures API_KEYS_VAR !in env || env[API_KEYS_VAR].NotUnicode? ==> LoadConfig(env).apiKeys == [DEFAULT_API_KEYS]
    ensures ADMIN_KEYS_VAR !in env || env[ADMIN_KEYS_VAR].NotUnicode? ==> LoadConfig(env).adminKeys == []
  {
    var c := LoadConfig(env);
    if API_KEYS_VAR !in env || env[API_KEYS_VAR].NotUnicode? {
      assert c.apiKeys == ParseKeyList(DEFAULT_API_KEYS);
      DefaultKeyLists();
    }
    if ADMIN_KEYS_VAR !in env || env[ADMIN_KEYS_VAR].NotUnicode? {
      assert c.adminKeys == ParseKeyList("");
      DefaultKeyLists();
    }
  }

  /**
    With both OpenAI variables set, a request Ollama cannot serve goes to
    the OpenAI-compatible backend unchanged (no model override is configured)
    and its answer is the gateway's; a request Ollama serves never reaches it.
   */
  lemma ConfiguredFallbackChat(env: Environment, req: Models.ChatCompletionRequest, up: Upstream)
    requires OPENAI_KEY_VAR in env && env[OPENAI_KEY_VAR].Unicode?
    requires OPENAI_URL_VAR in env && env[OPENAI_URL_VAR].Unicode?
    ensures var ollamaUrl := EnvVar(env, OLLAMA_URL_VAR).GetOr(DEFAULT_OLLAMA_URL);
            var ollamaAnswer := Ollama.Chat(ollamaUrl, req, up.ollama, up.ctx);
            Chat(LoadConfig(env).provider, req, up) ==
              if ollamaAnswer.Ok? then ollamaAnswer
              else up.openai(env[OPENAI_URL_VAR].text, env[OPENAI_KEY_VAR].text, req)
  {
    var ollama := OllamaBackend(EnvVar(env, OLLAMA_URL_VAR).GetOr(DEFAULT_OLLAMA_URL));
    var openai := OpenAIBackend(env[OPENAI_URL_VAR].text, env[OPENAI_KEY_VAR].text);
    var p := LoadConfig(env).provider;
    assert p == FallbackBackend(ollama, openai, None);
    FallbackNodeChat(ollama, openai, None, req, up);
  }
}
