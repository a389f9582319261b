/** Validation of the Gemini API key. app.py and backend/main.py read the
    key from the environment in `initialize_system`; rag_qa.py takes an
    optional explicit key in `answer_question` and falls back to the
    environment. */
module Credentials {
  import opened Wrappers
  import opened Strings
  import opened Pipeline

  /** The prefix every Google API key carries. */
  const KeyPrefix := "AIza"

  const KeyNotFound := Exc("ValueError", "GEMINI_API_KEY not found in environment variables")
  const KeyFormatInvalid := Exc("ValueError", "Invalid API key format")

  /** The key checks of `initialize_system` in app.py and backend/main.py,
      given `os.getenv('GEMINI_API_KEY')`; the result is the stripped key
      handed to `genai.configure`. */
  function CheckEnvKey(env: Option<string>): Result<string, Exc> {
    if env.None? || env.value == "" then Failure(KeyNotFound)
    else
      var key := Strip(Python, env.value);
      if StartsWith(key, KeyPrefix) then Success(key) else Failure(KeyFormatInvalid)
  }

  /** A missing or empty key is "not found"; a whitespace-only key passes that
      check and fails the format check. */
  lemma CheckEnvKeyRejects(env: Option<string>)
    ensures env.None? || env.value == "" ==> CheckEnvKey(env) == Failure(KeyNotFound)
    ensures env.Some? && env.value != "" && AllSpace(Python, env.value) ==> CheckEnvKey(env) == Failure(KeyFormatInvalid)
  {
    if env.Some? && env.value != "" && AllSpace(Python, env.value) {
      StripEmptyIffAllSpace(Python, env.value);
      assert Strip(Python, env.value) == [];
    }
  }

  /** An accepted key starts with `AIza` and is the original value without
      the whitespace around it. */
  lemma CheckEnvKeyAccepted(env: Option<string>)
    requires CheckEnvKey(env).Success?
    ensures var key := CheckEnvKey(env).value;
      StartsWith(key, KeyPrefix) && !IsSpace(Python, key[|key| - 1]) &&
      exists a :: 0 <= a <= |env.value| - |key| && key == env.value[a..a + |key|]
        && AllSpace(Python, env.value[..a]) && AllSpace(Python, env.value[a + |key|..])
  {
    var s := env.value;
    var l := LStrip(Python, s);
    var key := RStrip(Python, l);
    LStripDrops(Python, s);
    RStripDrops(Python, l);
    var a := |s| - |l|;
    assert key == s[a..a + |key|];
    assert s[a + |key|..] == l[|key|..];
    assert 0 <= a <= |s| - |key| && key == s[a..a + |key|] && AllSpace(Python, s[..a]) && AllSpace(Python, s[a + |key|..]);
  }

  const RagQaKeyNotFound := Exc("ValueError", "GEMINI_API_KEY not found. Please set it in .env file")

  const FormatErrorLead := "Invalid API key format. Key should start with 'AIza', got: '"

  /** rag_qa.py's format error quotes the first ten characters of the key. */
  function RagQaKeyFormatInvalid(key: string): Exc {
    Exc("ValueError", FormatErrorLead + Take(key, 10) + "...'")
  }

  /** The key selection and checks of rag_qa.py's `answer_question`: an
      explicit `api_key` argument (even an empty one) is used as given; only
      when it is `None` is the environment consulted. */
  function SelectKey(apiKey: Option<string>, env: Option<string>): Result<string, Exc> {
    if apiKey.None? && (env.None? || env.value == "") then Failure(RagQaKeyNotFound)
    else
      var key := Strip(Python, if apiKey.Some? then apiKey.value else env.value);
      if StartsWith(key, KeyPrefix) then Success(key) else Failure(RagQaKeyFormatInvalid(key))
  }

  /** An explicit key takes precedence over the environment; a missing
      environment key raises "not found"; otherwise the checks agree with
      those of `initialize_system`. */
  lemma SelectKeyOutcomes(apiKey: Option<string>, env: Option<string>, env': Option<string>)
    ensures apiKey.Some? ==> SelectKey(apiKey, env) == SelectKey(apiKey, env')
    ensures apiKey.None? && (env.None? || env.value == "") ==> SelectKey(apiKey, env) == Failure(RagQaKeyNotFound)
    ensures apiKey.None? ==> (SelectKey(apiKey, env).Success? <==> CheckEnvKey(env).Success?)
    ensures apiKey.None? && SelectKey(apiKey, env).Success? ==> SelectKey(apiKey, env).value == CheckEnvKey(env).value
    ensures SelectKey(apiKey, env).Success? ==> StartsWith(SelectKey(apiKey, env).value, KeyPrefix)
  {
  }

  /** Once a key is present, it is accepted exactly when it starts with
      `AIza` after stripping, and otherwise the error quotes its first ten
      characters right after the fixed lead. */
  lemma SelectKeyQuotesKey(apiKey: Option<string>, env: Option<string>)
    requires apiKey.Some? || (env.Some? && env.value != "")
    ensures var key := Strip(Python, if apiKey.Some? then apiKey.value else env.value);
      && (SelectKey(apiKey, env).Success? <==> StartsWith(key, KeyPrefix))
      && (SelectKey(apiKey, env).Failure? ==>
            OccursAt(SelectKey(apiKey, env).error.message, Take(key, 10), |FormatErrorLead|))
  {
    var key := Strip(Python, if apiKey.Some? then apiKey.value else env.value);
    var shown := Take(key, 10);
    var m := FormatErrorLead + shown + "...'";
    assert m[|FormatErrorLead|..|FormatErrorLead| + |shown|] == shown;
  }
}
