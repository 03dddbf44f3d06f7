/** The provider request client of `src/services/openaiService.ts`: it picks the active
    LLM provider and its credential from browser storage, refuses a missing or
    malformed credential, builds the provider's chat-completion request, turns a
    failed HTTP status into an error, and cleans the completion text into SQL.

    Browser storage is given as a snapshot map, read once at the start of a call; the
    HTTP exchange is given as the `Response` the endpoint would return. */
module ProviderClient {
  import opened Wrappers
  import opened Strings

  type Storage = map<string, string>

  // Storage key names, exactly as the service spells them.
  const ActiveProviderKey := "active_api_provider"
  const DeepSeekKeyName := "deepseek_api_key"
  const OpenRouterKeyName := "openrouter_api_key"

  const DeepSeek := "deepseek"

  const DeepSeekEndpoint := "https://api.deepseek.com/v1/chat/completions"
  const OpenRouterEndpoint := "https://openrouter.ai/api/v1/chat/completions"
  const DeepSeekModel := "Text To SQL"
  const OpenRouterModel := "gpt-4-turbo"
  const SystemInstruction := "You are an expert SQL developer. Your task is to convert a natural language query into valid SQL based on the provided database schema. Only return the SQL query without any explanations or markdown."
  const Temperature: real := 0.1
  const MaxTokens: nat := 500
  const KeyPrefix := "sk-"

  /** `localStorage.getItem(key)`: `null` (`None`) exactly for a key never set, and
      otherwise the value stored under it. */
  function GetItem(storage: Storage, key: string): (v: Option<string>)
    ensures v.None? <==> key !in storage
    ensures v.Some? ==> v.value == storage[key]
  {
    if key in storage then Some(storage[key]) else None
  }

  datatype ApiConfig = ApiConfig(apiKey: Option<string>, provider: string)

  /** `getApiConfig`: the active provider, defaulting when the stored name is absent or
      empty (`||` treats both as false), and the key stored for it. Any name other
      than "deepseek", recognised or not, reads the OpenRouter key. */
  function GetApiConfig(storage: Storage): (c: ApiConfig)
    ensures c.provider != ""
    ensures c.provider == DeepSeek <==> GetItem(storage, ActiveProviderKey) in {None, Some(""), Some(DeepSeek)}
    ensures c.provider != DeepSeek ==> GetItem(storage, ActiveProviderKey) == Some(c.provider)
    ensures c.apiKey == GetItem(storage, if c.provider == DeepSeek then DeepSeekKeyName else OpenRouterKeyName)
  {
    var stored := GetItem(storage, ActiveProviderKey);
    var provider := if stored.Some? && stored.value != "" then stored.value else DeepSeek;
    var apiKey := GetItem(storage, if provider == DeepSeek then DeepSeekKeyName else OpenRouterKeyName);
    ApiConfig(apiKey, provider)
  }

  /** Selecting a provider and then generating reads that provider's own key: the key
      stored for the newly selected provider, never the one of the provider before. */
  lemma SwitchProviderUsesItsKey(storage: Storage, provider: string)
    requires provider != ""
    ensures GetApiConfig(storage[ActiveProviderKey := provider]).provider == provider
    ensures GetApiConfig(storage[ActiveProviderKey := provider]).apiKey
         == GetItem(storage, if provider == DeepSeek then DeepSeekKeyName else OpenRouterKeyName)
  {
    assert DeepSeekKeyName != ActiveProviderKey && OpenRouterKeyName != ActiveProviderKey;
  }

  /** Saving a key under the active provider's key name makes it the key the next
      request reads back, verbatim, whatever its format. */
  lemma SavedKeyIsRead(storage: Storage, key: string)
    ensures var name := if GetApiConfig(storage).provider == DeepSeek then DeepSeekKeyName else OpenRouterKeyName;
            GetApiConfig(storage[name := key]) == GetApiConfig(storage).(apiKey := Some(key))
  {
    assert DeepSeekKeyName != ActiveProviderKey && OpenRouterKeyName != ActiveProviderKey;
  }

  /** The name shown in error messages. */
  function DisplayName(provider: string): string {
    if provider == DeepSeek then "DeepSeek" else "OpenRouter"
  }

  /** Every way a generation can fail; each thrown `Error` of the service is one case. */
  datatype GenError =
    | ApiKeyNotFound(provider: string)
    | InvalidKeyFormat(provider: string)
    | AuthenticationFailed(provider: string)
    | ModelNotFound
    | PaymentRequired
    | ProviderMessage(message: string)
    | GenerationFailed(provider: string)
    | NoResponse(provider: string)

  const ModelNotFoundText := "Model 'Text To SQL' not found. Please verify the model name or check your DeepSeek account for available models."
  const PaymentRequiredText := "Payment required. Your account may need credits or has exceeded token limits."

  /** The errors whose text names the provider the call was made for. */
  predicate NamesProvider(e: GenError) {
    e.ApiKeyNotFound? || e.InvalidKeyFormat? || e.AuthenticationFailed? || e.GenerationFailed? || e.NoResponse?
  }

  /** The text of the thrown error, which the service also shows in its error toast. A
      provider's own message is passed on verbatim; every other error has a text of
      its own, and one about the key, the authentication or the answer names the
      provider. */
  function ErrorMessage(e: GenError): (m: string)
    ensures e.ProviderMessage? ==> m == e.message
    ensures !e.ProviderMessage? ==> |m| > 0
  {
    match e
    case ApiKeyNotFound(p) =>
      Naming("API key not found. Please enter your ", p, " API key in the form above.")
    case InvalidKeyFormat(p) =>
      Naming("The API key format appears invalid. ", p, " API keys typically start with 'sk-'.")
    case AuthenticationFailed(p) =>
      Naming("Authentication failed. Please check that your ", p, " API key is valid.")
    case ModelNotFound => ModelNotFoundText
    case PaymentRequired => PaymentRequiredText
    case ProviderMessage(msg) => msg
    case GenerationFailed(p) => Naming("Failed to generate SQL using ", p, "")
    case NoResponse(p) => Naming("No response received from ", p, ". Please try again.")
  }

  /** An error about the key, the authentication or the answer names its provider. */
  lemma ErrorNamesProvider(e: GenError)
    requires NamesProvider(e)
    ensures Contains(ErrorMessage(e), DisplayName(e.provider))
  {
    var name := DisplayName(e.provider);
    match e
    case ApiKeyNotFound(p) =>
      ContainsInfix("API key not found. Please enter your ", name, " API key in the form above.");
    case InvalidKeyFormat(p) =>
      ContainsInfix("The API key format appears invalid. ", name, " API keys typically start with 'sk-'.");
    case AuthenticationFailed(p) =>
      ContainsInfix("Authentication failed. Please check that your ", name, " API key is valid.");
    case GenerationFailed(p) =>
      ContainsInfix("Failed to generate SQL using ", name, "");
    case NoResponse(p) =>
      ContainsInfix("No response received from ", name, ". Please try again.");
  }

  /** A message text with the provider's display name between two fixed pieces. */
  function Naming(before: string, provider: string, after: string): (m: string)
    requires before != []
    ensures |m| >= |before|
  {
    before + DisplayName(provider) + after
  }

  datatype ChatMessage = ChatMessage(role: string, content: string)

  /** The POST request the service sends: its URL, its `Authorization` header and the
      fields of its JSON body (the body is kept as a record, not serialised). */
  datatype Request = Request(
    endpoint: string,
    authorization: string,
    model: string,
    messages: seq<ChatMessage>,
    temperature: real,
    maxTokens: nat)

  /** The user turn of the conversation: it carries the schema text and the question
      text, both verbatim. */
  function UserMessage(schema: string, query: string): (m: string)
    ensures Contains(m, schema)
    ensures Contains(m, query)
  {
    var head := "Database Schema:\n";
    var middle := "\n\nNatural Language Query: ";
    var tail := "\n\nGenerate a SQL query for this request.";
    ContainsInfix(head, schema, middle + query + tail);
    ContainsInfix(head + schema + middle, query, tail);
    assert head + schema + (middle + query + tail) == head + schema + middle + query + tail;
    head + schema + middle + query + tail
  }

  /** What the endpoint answered: its HTTP status, the `error.message` of a failure body
      (if any), and the `message.content` of each element of `choices` (`None` when the
      body has no `choices`). */
  datatype Response = Response(status: int, errorMessage: Option<string>, choices: Option<seq<string>>)

  /** `response.ok`. */
  predicate IsOk(status: int) {
    200 <= status <= 299
  }

  /** The error for a response that is not OK, tried in the service's order: 401 for every
      provider, 404 only for DeepSeek, 402, and otherwise the provider's own non-empty
      message or a generic failure. */
  function ClassifyStatus(provider: string, status: int, errorMessage: Option<string>): (e: GenError)
    ensures status == 401 ==> e == AuthenticationFailed(provider)
    ensures status == 404 && provider == DeepSeek ==> e == ModelNotFound
    ensures e == ModelNotFound ==> status == 404 && provider == DeepSeek
    ensures e == PaymentRequired <==> status == 402
    ensures status !in {401, 402} && !(status == 404 && provider == DeepSeek) ==>
      e == if errorMessage.Some? && errorMessage.value != "" then ProviderMessage(errorMessage.value)
           else GenerationFailed(provider)
  {
    if status == 401 then AuthenticationFailed(provider)
    else if status == 404 && provider == DeepSeek then ModelNotFound
    else if status == 402 then PaymentRequired
    else if errorMessage.Some? && errorMessage.value != "" then ProviderMessage(errorMessage.value)
    else GenerationFailed(provider)
  }

  /** A 404 from any provider other than DeepSeek is not a missing model: it reports the
      provider's message or the generic failure. */
  lemma OpenRouterNotFoundIsGeneric(provider: string, errorMessage: Option<string>)
    requires provider != DeepSeek
    ensures ClassifyStatus(provider, 404, errorMessage).ProviderMessage?
         || ClassifyStatus(provider, 404, errorMessage) == GenerationFailed(provider)
  {
  }

  const Fence := "```"
  const SqlFence := "```sql"

  /** `s.replace(/```sql|```/g, '')`: scanning left to right, delete "```sql" where it
      starts, else "```" where it starts, else keep the character. The match is case
      sensitive, so "```SQL" loses only its backticks. */
  function RemoveFences(s: string): (r: string)
    ensures |r| <= |s|
  {
    if s == [] then []
    else if StartsWith(s, SqlFence) then RemoveFences(s[|SqlFence|..])
    else if StartsWith(s, Fence) then RemoveFences(s[|Fence|..])
    else [s[0]] + RemoveFences(s[1..])
  }

  predicate TripleTickAt(s: string, i: int)
    requires 0 <= i && i + 3 <= |s|
  {
    s[i] == '`' && s[i + 1] == '`' && s[i + 2] == '`'
  }

  /** No three backticks in a row anywhere in `s`. */
  predicate FenceFree(s: string) {
    forall i :: 0 <= i && i + 3 <= |s| ==> !TripleTickAt(s, i)
  }

  lemma FenceFreeNotContains(s: string)
    requires FenceFree(s)
    ensures !Contains(s, Fence)
  {
    if Contains(s, Fence) {
      var i: nat :| i <= |s| && OccursAt(s, Fence, i);
      assert s[i..i + 3] == Fence;
      assert TripleTickAt(s, i);
    }
  }

  lemma FenceFreeSlice(s: string, i: nat, j: nat)
    requires i <= j <= |s| && FenceFree(s)
    ensures FenceFree(s[i..j])
  {
    forall k | 0 <= k && k + 3 <= j - i ensures !TripleTickAt(s[i..j], k) {
      assert !TripleTickAt(s, i + k);
    }
  }

  /** Text that does not start with two backticks does not gain two leading backticks
      from fence removal. */
  lemma {:induction false} NoDoubleTickAfterRemoval(s: string)
    requires !StartsWith(s, "``")
    ensures |RemoveFences(s)| < 2 || RemoveFences(s)[0] != '`' || RemoveFences(s)[1] != '`'
  {
    if s != [] && s[0] == '`' {
      assert !StartsWith(s, SqlFence) && !StartsWith(s, Fence);
      assert RemoveFences(s) == [s[0]] + RemoveFences(s[1..]);
      if |s| > 1 {
        var t := s[1..];
        assert t[0] != '`';
        assert !StartsWith(t, SqlFence) && !StartsWith(t, Fence);
        assert RemoveFences(t) == [t[0]] + RemoveFences(t[1..]);
      }
    } else if s != [] {
      assert !StartsWith(s, SqlFence) && !StartsWith(s, Fence);
      assert RemoveFences(s) == [s[0]] + RemoveFences(s[1..]);
    }
  }

  /** After fence removal no "```" is left anywhere: the scan consumes each run of
      backticks three at a time and keeps at most two of its backticks, which are then
      followed by a character that is not a backtick. */
  lemma {:induction false} RemoveFencesIsFenceFree(s: string)
    ensures FenceFree(RemoveFences(s))
    decreases |s|
  {
    if s == [] {
    } else if StartsWith(s, SqlFence) {
      RemoveFencesIsFenceFree(s[|SqlFence|..]);
    } else if StartsWith(s, Fence) {
      RemoveFencesIsFenceFree(s[|Fence|..]);
    } else {
      var t := s[1..];
      var rt := RemoveFences(t);
      var r := [s[0]] + rt;
      assert RemoveFences(s) == r;
      RemoveFencesIsFenceFree(t);
      if s[0] == '`' {
        assert !StartsWith(t, "``");
        NoDoubleTickAfterRemoval(t);
      }
      forall i | 0 <= i && i + 3 <= |r| ensures !TripleTickAt(r, i) {
        if i > 0 {
          assert !TripleTickAt(rt, i - 1);
        }
      }
    }
  }

  /** Text without a backtick passes fence removal unchanged. */
  lemma {:induction false} RemoveFencesKeepsTickFree(s: string)
    requires forall i :: 0 <= i < |s| ==> s[i] != '`'
    ensures RemoveFences(s) == s
  {
    RemoveFencesSkipsTickFree(s, []);
    assert s + [] == s;
  }

  /** A backtick-free stretch is copied through, and the scan goes on after it. */
  lemma {:induction false} RemoveFencesSkipsTickFree(plain: string, rest: string)
    requires forall i :: 0 <= i < |plain| ==> plain[i] != '`'
    ensures RemoveFences(plain + rest) == plain + RemoveFences(rest)
  {
    if plain == [] {
      assert plain + rest == rest;
    } else {
      var tail := plain[1..];
      assert forall i :: 0 <= i < |tail| ==> tail[i] == plain[i + 1];
      SkipOnePlainChar(plain, rest);
      RemoveFencesSkipsTickFree(tail, rest);
      PrependChar(plain, RemoveFences(rest));
    }
  }

  lemma PrependChar(plain: string, more: string)
    requires plain != []
    ensures [plain[0]] + (plain[1..] + more) == plain + more
  {
    assert [plain[0]] + plain[1..] == plain;
  }

  lemma SkipOnePlainChar(plain: string, rest: string)
    requires plain != [] && plain[0] != '`'
    ensures RemoveFences(plain + rest) == [plain[0]] + RemoveFences(plain[1..] + rest)
  {
    var s := plain + rest;
    assert s[0] == plain[0];
    assert s[1..] == plain[1..] + rest;
    NoFenceWithin(s, 0);
  }

  /** The SQL returned to the caller: trim, remove fences, trim again. It is never
      longer than the completion, and is already trimmed. */
  function CleanSql(content: string): (sql: string)
    ensures |sql| <= |content|
    ensures Trim(sql) == sql
  {
    TrimIdempotent(RemoveFences(Trim(content)));
    Trim(RemoveFences(Trim(content)))
  }

  /** The returned SQL has no surrounding whitespace and no "```" left in it. */
  lemma CleanSqlIsTrimmedAndFenceFree(content: string)
    ensures var sql := CleanSql(content);
      sql == [] || (!IsWhitespace(sql[0]) && !IsWhitespace(sql[|sql| - 1]))
    ensures !Contains(CleanSql(content), Fence)
  {
    var removed := RemoveFences(Trim(content));
    assert CleanSql(content) == Trim(removed);
    RemoveFencesIsFenceFree(Trim(content));
    TrimKeepsFenceFree(removed);
    FenceFreeNotContains(Trim(removed));
  }

  lemma TrimKeepsFenceFree(s: string)
    requires FenceFree(s)
    ensures FenceFree(Trim(s))
  {
    var i, j := TrimShape(s);
    FenceFreeSlice(s, i, j);
  }

  /** A completion wrapped in fences, tagged "sql" or untagged, with only whitespace
      around it, yields what stands between the fences, trimmed. The body may hold
      single or double backticks (quoted identifiers); it only has no "```" of its own. */
  lemma CleanFencedBlock(pre: string, body: string, post: string)
    requires AllWhitespace(pre) && AllWhitespace(post) && FenceFree(body)
    ensures CleanSql(pre + SqlFence + body + Fence + post) == Trim(body)
    ensures !StartsWith(body, "sql") ==> CleanSql(pre + Fence + body + Fence + post) == Trim(body)
  {
    CleanWrappedBlock(pre, SqlFence, body, post);
    if !StartsWith(body, "sql") {
      CleanWrappedBlock(pre, Fence, body, post);
    }
  }

  lemma CleanWrappedBlock(pre: string, open: string, body: string, post: string)
    requires AllWhitespace(pre) && AllWhitespace(post) && FenceFree(body)
    requires open == SqlFence || (open == Fence && !StartsWith(body, "sql"))
    ensures CleanSql(pre + open + body + Fence + post) == Trim(body)
  {
    var block := open + body + Fence;
    assert pre + open + body + Fence + post == pre + block + post;
    assert block[0] == '`' && block[|block| - 1] == '`';
    TrimAround(pre, block, post);
    FenceThenBody(open, body);
  }

  /** The scan drops the opening fence and then the closing one, and keeps the body. */
  lemma FenceThenBody(open: string, body: string)
    requires FenceFree(body)
    requires open == SqlFence || (open == Fence && !StartsWith(body, "sql"))
    ensures RemoveFences(open + body + Fence) == body
  {
    var s := open + body + Fence;
    assert StartsWith(s, open) by {
      assert s[..|open|] == open;
    }
    if open == Fence && StartsWith(s, SqlFence) {
      SqlTagInsideFence(body);
    }
    assert s[|open|..] == body + Fence;
    BodyThenFence(body);
  }

  /** A body without "```", followed by the closing fence, comes out as the body. Ticks
      at the end of the body join the fence's run; the scan removes the first three of
      that run, so exactly as many ticks as the body had are left. */
  lemma {:induction false} BodyThenFence(b: string)
    requires FenceFree(b)
    ensures RemoveFences(b + Fence) == b
    decreases |b|
  {
    var s := b + Fence;
    if b == [] {
      assert s == Fence;
      assert RemoveFences(Fence) == [];
    } else if b[0] != '`' {
      CopyFirstOfBody(b, 0);
    } else if |b| == 1 {
      assert b == "`";
      assert s == "````";
      assert RemoveFences(s) == RemoveFences("`");
      assert RemoveFences("`") == "`" + RemoveFences([]);
    } else if b[1] != '`' {
      CopyFirstOfBody(b, 1);
    } else if |b| == 2 {
      assert b == "``";
      assert s == "`````";
      assert RemoveFences(s) == RemoveFences("``");
      assert RemoveFences("``") == "`" + RemoveFences("`");
      assert RemoveFences("`") == "`" + RemoveFences([]);
    } else {
      assert !TripleTickAt(b, 0);
      CopyFirstOfBody(b, 2);
    }
  }

  /** When one of the body's first three characters is not a backtick, no fence starts
      at its head: its first character is kept and the scan goes on with the rest. */
  lemma {:induction false} CopyFirstOfBody(b: string, k: nat)
    requires FenceFree(b) && k < 3 && k < |b| && b[k] != '`'
    ensures RemoveFences(b + Fence) == b
    decreases |b|, 0
  {
    var s := b + Fence;
    NoFenceWithin(s, k);
    assert s[1..] == b[1..] + Fence;
    FenceFreeSlice(b, 1, |b|);
    assert b[1..|b|] == b[1..];
    BodyThenFence(b[1..]);
    assert [b[0]] + b[1..] == b;
  }

  lemma NoFenceWithin(s: string, k: nat)
    requires k < 3 && k < |s| && s[k] != '`'
    ensures !StartsWith(s, SqlFence) && !StartsWith(s, Fence)
    ensures RemoveFences(s) == [s[0]] + RemoveFences(s[1..])
  {
    if |s| >= |Fence| {
      assert s[..|Fence|][k] == s[k];
    }
    if |s| >= |SqlFence| {
      assert s[..|SqlFence|][k] == s[k];
    }
  }

  lemma SqlTagInsideFence(body: string)
    requires StartsWith(Fence + body + Fence, SqlFence)
    ensures StartsWith(body, "sql")
  {
    var p := Fence + body + Fence;
    assert p[..6] == SqlFence;
    assert p[3] == 's' && p[4] == 'q' && p[5] == 'l';
    assert |body| >= 3;
    assert body[..3] == p[3..6];
  }

  /** Text without any backtick has no "```" in it. */
  lemma TickFreeIsFenceFree(s: string)
    requires forall i :: 0 <= i < |s| ==> s[i] != '`'
    ensures FenceFree(s)
  {
  }

  /** The tagged example: the statement comes back without fences or newlines. */
  lemma CleanTaggedFence(content: string)
    requires content == "```sql\nSELECT 1;\n```"
    ensures CleanSql(content) == "SELECT 1;"
  {
    var body := "\nSELECT 1;\n";
    assert content == "" + SqlFence + body + Fence + "";
    TickFreeIsFenceFree(body);
    CleanFencedBlock("", body, "");
    TrimExample(body);
  }

  lemma TrimExample(body: string)
    requires body == "\nSELECT 1;\n"
    ensures Trim(body) == "SELECT 1;"
  {
    var core := "SELECT 1;";
    assert body == "\n" + core + "\n";
    assert !IsWhitespace(core[0]) && !IsWhitespace(core[|core| - 1]);
    TrimAround("\n", core, "\n");
  }

  /** Fence matching is case sensitive: an upper-case tag stays in the result. */
  lemma CleanUpperCaseTag(content: string)
    requires content == "```SQL\nSELECT 1;\n```"
    ensures CleanSql(content) == "SQL\nSELECT 1;"
  {
    var body := "SQL\nSELECT 1;\n";
    assert content == Fence + body + Fence;
    assert body[..3] != "sql" by {
      assert body[..3][0] == 'S';
    }
    assert content == "" + Fence + body + Fence + "";
    TickFreeIsFenceFree(body);
    CleanFencedBlock("", body, "");
    TrimUpperExample(body);
  }

  lemma TrimUpperExample(body: string)
    requires body == "SQL\nSELECT 1;\n"
    ensures Trim(body) == "SQL\nSELECT 1;"
  {
    var core := "SQL\nSELECT 1;";
    assert body == "" + core + "\n";
    assert !IsWhitespace(core[0]) && !IsWhitespace(core[|core| - 1]);
    TrimAround("", core, "\n");
  }

  /** Backtick-quoted identifiers survive, and so do the newlines around the block. */
  lemma CleanQuotedIdentifier(content: string)
    requires content == "\n```sql\nSELECT `id` FROM t;\n```\n"
    ensures CleanSql(content) == "SELECT `id` FROM t;"
  {
    var body := "\nSELECT `id` FROM t;\n";
    QuotedContentShape(content, body);
    QuotedBodyFenceFree(body);
    CleanFencedBlock("\n", body, "\n");
    QuotedBodyTrim(body);
  }

  lemma QuotedContentShape(content: string, body: string)
    requires content == "\n```sql\nSELECT `id` FROM t;\n```\n"
    requires body == "\nSELECT `id` FROM t;\n"
    ensures content == "\n" + SqlFence + body + Fence + "\n"
  {
  }

  lemma QuotedBodyTrim(body: string)
    requires body == "\nSELECT `id` FROM t;\n"
    ensures Trim(body) == "SELECT `id` FROM t;"
  {
    var core := "SELECT `id` FROM t;";
    assert body == "\n" + core + "\n";
    assert !IsWhitespace(core[0]) && !IsWhitespace(core[|core| - 1]);
    TrimAround("\n", core, "\n");
  }

  lemma QuotedBodyFenceFree(body: string)
    requires body == "\nSELECT `id` FROM t;\n"
    ensures FenceFree(body)
  {
    forall i | 0 <= i && i + 3 <= |body| ensures !TripleTickAt(body, i) {
      assert body[i] != '`' || body[i + 1] != '`';
    }
  }

  /** `generateSql`, from the storage snapshot, the user's question and schema, and the
      endpoint's answer. `sent` is the request that goes out, if any; `result` is the
      cleaned SQL or the error the service throws (after showing it in a toast). */
  method GenerateSql(storage: Storage, query: string, schema: string, response: Response)
    returns (sent: Option<Request>, result: Result<string, GenError>)
    ensures var c := GetApiConfig(storage);
      c.apiKey in {None, Some("")} ==> sent == None && result == Failure(ApiKeyNotFound(c.provider))
    ensures var c := GetApiConfig(storage);
      c.apiKey.Some? && c.apiKey.value != "" && !StartsWith(c.apiKey.value, KeyPrefix) ==>
        sent == None && result == Failure(InvalidKeyFormat(c.provider))
    ensures sent.Some? <==> var c := GetApiConfig(storage); c.apiKey.Some? && StartsWith(c.apiKey.value, KeyPrefix)
    ensures sent.Some? ==> var c := GetApiConfig(storage);
      && sent.value.endpoint == (if c.provider == DeepSeek then DeepSeekEndpoint else OpenRouterEndpoint)
      && sent.value.model == (if c.provider == DeepSeek then DeepSeekModel else OpenRouterModel)
      && sent.value.authorization == "Bearer " + c.apiKey.value
      && sent.value.messages == [ChatMessage("system", SystemInstruction), ChatMessage("user", UserMessage(schema, query))]
      && sent.value.temperature == 0.1 && sent.value.maxTokens == 500
    ensures sent.Some? && !IsOk(response.status) ==>
      result == Failure(ClassifyStatus(GetApiConfig(storage).provider, response.status, response.errorMessage))
    ensures sent.Some? && IsOk(response.status) && response.choices in {None, Some([])} ==>
      result == Failure(NoResponse(GetApiConfig(storage).provider))
    ensures sent.Some? && IsOk(response.status) && response.choices.Some? && response.choices.value != [] ==>
      result == Success(CleanSql(response.choices.value[0]))
  {
    var config := GetApiConfig(storage);
    var provider := config.provider;
    if config.apiKey.None? || config.apiKey.value == "" {
      return None, Failure(ApiKeyNotFound(provider));
    }
    var apiKey := config.apiKey.value;
    if !StartsWith(apiKey, KeyPrefix) {
      return None, Failure(InvalidKeyFormat(provider));
    }

    var endpoint, model;
    if provider == DeepSeek {
      endpoint := DeepSeekEndpoint;
      model := DeepSeekModel;
    } else {
      endpoint := OpenRouterEndpoint;
      model := OpenRouterModel;
    }
    var messages := [ChatMessage("system", SystemInstruction), ChatMessage("user", UserMessage(schema, query))];
    sent := Some(Request(endpoint, "Bearer " + apiKey, model, messages, Temperature, MaxTokens));

    if !IsOk(response.status) {
      return sent, Failure(ClassifyStatus(provider, response.status, response.errorMessage));
    }
    if response.choices.None? || |response.choices.value| == 0 {
      return sent, Failure(NoResponse(provider));
    }
    result := Success(CleanSql(response.choices.value[0]));
  }
}
