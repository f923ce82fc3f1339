/**
 * The `serve` handler of the generation function: the request gate (preflight, authorization,
 * signed-in user, body, API key, model table), the per-mode choice of system and user prompt with
 * the continue-mode context, and the call of the upstream model whose reply is passed through or,
 * for Claude, translated. The signed-in check, the database rows and the upstream response are
 * inputs; JSON parsing of the upstream events is the `parse` parameter.
 */
module Gateway {
  import opened Wrappers
  import opened Text
  import opened PromptBuilder
  import opened ClaudeTransform

  /** An entry of `LLM_CONFIGS`; `bearer` tells the two header builders apart. */
  datatype LlmConfig = LlmConfig(url: string, modelName: string, bearer: bool)

  /** The keys of `LLM_CONFIGS`. */
  const Models: seq<string> := ["deepseek", "claude", "grok", "qwen"]

  const AnthropicUrl := "https://api.anthropic.com/v1/messages"

  /** The model table, looked up by its own keys only. */
  function LookupConfig(key: string): (r: Option<LlmConfig>)
    ensures r.Some? <==> key in Models
    ensures key == "claude" ==> r == Some(LlmConfig(AnthropicUrl, "claude-3-5-sonnet-20241022", false))
    ensures r.Some? && key != "claude" ==> r.value.bearer
  {
    if key == "deepseek" then Some(LlmConfig("https://api.deepseek.com/v1/chat/completions", "deepseek-chat", true))
    else if key == "claude" then Some(LlmConfig(AnthropicUrl, "claude-3-5-sonnet-20241022", false))
    else if key == "grok" then Some(LlmConfig("https://api.x.ai/v1/chat/completions", "grok-3", true))
    else if key == "qwen" then Some(LlmConfig("https://dashscope.aliyuncs.com/compatible-mode/v1/chat/completions", "qwen-plus", true))
    else None
  }

  /** The headers `headerBuilder(key)` produces. */
  function Headers(c: LlmConfig, key: string): (r: seq<(string, string)>)
    ensures ("Content-Type", "application/json") in r
    ensures c.bearer ==> ("Authorization", "Bearer " + key) in r
    ensures !c.bearer ==> ("x-api-key", key) in r && ("anthropic-version", "2023-06-01") in r
  {
    if c.bearer then [("Authorization", "Bearer " + key), ("Content-Type", "application/json")]
    else [("x-api-key", key), ("Content-Type", "application/json"), ("anthropic-version", "2023-06-01")]
  }

  /** The destructured request body; an absent text is "", an absent number `Missing`. */
  datatype Body = Body(
    mode: string, settings: Option<RequestSettings>, model: string, apiKey: string,
    temperature: Option<real>, novelId: string, chapterNumber: Scalar, rewriteContent: Scalar)

  /** What `req.json()` gives: a body, or the message of the error it throws. */
  datatype BodyText = Unparsable(message: string) | Json(body: Body)

  /** A request: its HTTP method (`verb`), its `Authorization` header ("" when absent) and its body. */
  datatype Request = Request(verb: string, authorization: string, body: BodyText)

  /** The three reads of continue mode: the novel's outline, its chapters, its characters; `None`
      where a read gave no data. */
  datatype Db = Db(outline: Option<string>, chapters: Option<seq<ChapterRow>>, characters: Option<seq<CharacterRow>>)

  /** What the upstream `fetch` gives: a response, or the message of the error it throws. */
  datatype Upstream = Responded(ok: bool, status: int, errorText: string, chunks: seq<string>) | FetchFailed(message: string)

  /** The upstream request: target, headers, model and messages, the system message being
      `SystemText(system)`. Claude gets it as a field of its own (`separateSystem`), the others as
      the first message; both ask for a stream of at most 16000 tokens. */
  datatype UpstreamCall = UpstreamCall(
    url: string, headers: seq<(string, string)>, model: string, system: SystemKind, user: string,
    temperature: real, separateSystem: bool)

  datatype Stream = Passthrough(chunks: seq<string>) | Translated(events: seq<OutChunk>)

  /** A reply: the CORS preflight, a JSON error with its status, or an event stream. */
  datatype Reply = Preflight | JsonError(status: int, error: string) | EventStream(stream: Stream)

  /** The modes that read the settings. */
  const KnownModes: seq<string> := ["generate", "continue", "outline", "characters", "rewrite"]

  /** The message of the `TypeError` thrown when `buildUserPrompt` reads an absent settings object. */
  const SettingsTypeError := "Cannot read properties of undefined (reading 'genres')"

  /** `model || "deepseek"`. */
  function LlmModel(b: Body): (r: string)
    ensures r != ""
    ensures b.model != "" ==> r == b.model
  {
    if b.model != "" then b.model else "deepseek"
  }

  /** The continue-mode context: the outline cut to its last 4000 characters, the character rows,
      the summary of the last three chapters cut to 8000, and the next chapter's number. */
  function ContinueContext(db: Db): (ctx: Context)
    ensures ctx.outline == TruncateContext(db.outline.GetOr(""), 4000)
    ensures ctx.previousSummary == TruncateContext(BuildPreviousSummary(db.chapters.GetOr([])), 8000)
    ensures |ctx.outline| <= 4000 && EndsWith(db.outline.GetOr(""), ctx.outline)
    ensures |ctx.previousSummary| <= 8000
    ensures EndsWith(BuildPreviousSummary(db.chapters.GetOr([])), ctx.previousSummary)
    ensures ctx.characters == db.characters.GetOr([])
    ensures ctx.chapterNumber == Num(|db.chapters.GetOr([])| + 1)
  {
    var chapters := db.chapters.GetOr([]);
    Context(
      TruncateContext(db.outline.GetOr(""), 4000),
      db.characters.GetOr([]),
      TruncateContext(BuildPreviousSummary(chapters), 8000),
      Num(|chapters| + 1))
  }

  function OutlineRequest(totalWords: Scalar): string {
    "\n\n请生成一个详细的长篇小说大纲，包含章节规划。预计总字数：" + (if Truthy(totalWords) then Show(totalWords) else "100000") + "字。"
  }

  const CharacterRequest := "\n\n请为这部小说生成3-5个主要角色的详细人物卡，以JSON数组格式输出。"

  function RewriteHead(content: Scalar): string {
    "以下是需要重写的章节内容：\n\n" + Show(content) + "\n\n设定信息：\n"
  }

  /** The settings every known mode reads; for other modes they are not looked at. */
  function SettingsOf(b: Body): RequestSettings {
    b.settings.GetOr(RequestSettings([], None, "", "", "", "", "", Missing, Missing, false, false, false))
  }

  /** `chapterNumber || 1`: the chapter generate mode asks for. */
  function ChapterAsked(b: Body): (r: Scalar)
    ensures Truthy(r)
    ensures Truthy(b.chapterNumber) ==> r == b.chapterNumber
    ensures !Truthy(b.chapterNumber) ==> Show(r) == "1"
  {
    if Truthy(b.chapterNumber) then b.chapterNumber else Num(1)
  }

  /** The context each mode hands to `buildUserPrompt`: generate asks for `chapterNumber || 1`,
      continue for a novel uses the continue-mode context, and every other call passes none. */
  function ModeContext(b: Body, db: Db): (ctx: Context)
    ensures b.mode == "generate" ==> ctx == Context("", [], "", ChapterAsked(b))
    ensures b.mode == "continue" && b.novelId != "" ==> ctx == ContinueContext(db)
    ensures b.mode != "generate" && !(b.mode == "continue" && b.novelId != "") ==> ctx == NoContext
  {
    if b.mode == "generate" then Context("", [], "", ChapterAsked(b))
    else if b.mode == "continue" && b.novelId != "" then ContinueContext(db)
    else NoContext
  }

  /** The system and user prompt chosen for the request's mode, around the one `buildUserPrompt`
      result `u` the mode asks for. */
  function Prompts(b: Body, db: Db, stringify: seq<CharacterRow> -> string): (p: (SystemKind, string))
    ensures b.mode !in KnownModes ==> p == (ChapterWriter, "")
    ensures b.mode == "generate" || b.mode == "continue" ==> p.0 == ChapterWriter
    ensures b.mode == "outline" ==> p.0 == OutlineWriter
    ensures b.mode == "characters" ==> p.0 == CharacterWriter
    ensures b.mode == "rewrite" ==> p.0 == Rewriter
  {
    var u := BuildUserPrompt(SettingsOf(b), ModeContext(b, db), stringify);
    if b.mode == "generate" || b.mode == "continue" then (ChapterWriter, u)
    else if b.mode == "outline" then (OutlineWriter, u + OutlineRequest(SettingsOf(b).totalWords))
    else if b.mode == "characters" then (CharacterWriter, u + CharacterRequest)
    else if b.mode == "rewrite" then (Rewriter, RewriteHead(b.rewriteContent) + u)
    else (ChapterWriter, "")
  }

  /** The mode dispatch of the handler: the defaults are reassigned step by step, the context first
      for continue mode, then the prompts. */
  method ChoosePrompts(b: Body, db: Db, stringify: seq<CharacterRow> -> string)
    returns (systemPrompt: SystemKind, userPrompt: string)
    ensures (systemPrompt, userPrompt) == Prompts(b, db, stringify)
  {
    systemPrompt := ChapterWriter;
    userPrompt := "";
    var context := NoContext;
    var s := SettingsOf(b);
    if b.mode == "continue" && b.novelId != "" {
      context := ContinueContext(db);
    }
    if b.mode == "generate" {
      context := context.(chapterNumber := ChapterAsked(b));
      userPrompt := BuildUserPrompt(s, context, stringify);
    } else if b.mode == "continue" {
      userPrompt := BuildUserPrompt(s, context, stringify);
    } else if b.mode == "outline" {
      systemPrompt := OutlineWriter;
      userPrompt := BuildUserPrompt(s, NoContext, stringify) + OutlineRequest(s.totalWords);
    } else if b.mode == "characters" {
      systemPrompt := CharacterWriter;
      userPrompt := BuildUserPrompt(s, NoContext, stringify) + CharacterRequest;
    } else if b.mode == "rewrite" {
      systemPrompt := Rewriter;
      userPrompt := RewriteHead(b.rewriteContent) + BuildUserPrompt(s, NoContext, stringify);
    }
  }

  /** The reply once the upstream was called: a thrown `fetch` error becomes a 500 carrying the
      thrown message; a non-ok status becomes a 500 naming the provider family, status and body;
      otherwise Claude's stream is translated and the others' is passed on. */
  function Outcome(llmModel: string, up: Upstream, parse: string -> ClaudeEvent): (r: Reply)
    ensures r.JsonError? ==> r.status == 500
    ensures up.FetchFailed? ==> r == JsonError(500, up.message)
    ensures up.Responded? && up.ok ==> r.EventStream?
    ensures up.Responded? && up.ok && llmModel == "claude" ==>
              r == EventStream(Translated(ClaudeRef(Concat(up.chunks), parse)))
    ensures up.Responded? && up.ok && llmModel != "claude" ==> r == EventStream(Passthrough(up.chunks))
    ensures up.Responded? && !up.ok && llmModel == "claude" ==>
              r.JsonError? && r.error == "Claude API error [" + IntToString(up.status) + "]: " + up.errorText
    ensures up.Responded? && !up.ok && llmModel != "claude" ==>
              r.JsonError? && r.error == "LLM API error [" + IntToString(up.status) + "]: " + up.errorText
  {
    match up
    case FetchFailed(m) => JsonError(500, m)
    case Responded(ok, status, errorText, chunks) =>
      if !ok then
        JsonError(500, (if llmModel == "claude" then "Claude API error [" else "LLM API error [") + IntToString(status) + "]: " + errorText)
      else if llmModel == "claude" then EventStream(Translated(ClaudeRef(Concat(chunks), parse)))
      else EventStream(Passthrough(chunks))
  }

  /** A request that is not a preflight, carries an authorization header and comes from a user. */
  predicate Admitted(req: Request, signedIn: bool) {
    req.verb != "OPTIONS" && req.authorization != "" && signedIn
  }

  /** An admitted request with a parsable body, a key and a supported model. */
  predicate Dispatched(req: Request, signedIn: bool) {
    Admitted(req, signedIn) && req.body.Json? && req.body.body.apiKey != "" && LlmModel(req.body.body) in Models
  }

  /** The handler. Each gate answers in the source's order, a thrown error becomes a 500 carrying its
      message, and a dispatched request makes exactly one upstream call with the mode's prompts. */
  method Serve(req: Request, signedIn: bool, db: Db, up: Upstream,
               stringify: seq<CharacterRow> -> string, parse: string -> ClaudeEvent)
    returns (reply: Reply, call: Option<UpstreamCall>)
    ensures req.verb == "OPTIONS" ==> reply == Preflight && call == None
    ensures req.verb != "OPTIONS" && req.authorization == "" ==> reply == JsonError(401, "未授权") && call == None
    ensures req.verb != "OPTIONS" && req.authorization != "" && !signedIn ==>
              reply == JsonError(401, "用户未登录") && call == None
    ensures Admitted(req, signedIn) && req.body.Unparsable? ==> reply == JsonError(500, req.body.message) && call == None
    ensures Admitted(req, signedIn) && req.body.Json? && req.body.body.apiKey == "" ==>
              reply == JsonError(400, "请先在设置页面配置API密钥") && call == None
    ensures Admitted(req, signedIn) && req.body.Json? && req.body.body.apiKey != "" && LlmModel(req.body.body) !in Models ==>
              reply == JsonError(400, "不支持的模型: " + LlmModel(req.body.body)) && call == None
    ensures Dispatched(req, signedIn) && req.body.body.mode in KnownModes && req.body.body.settings.None? ==>
              reply == JsonError(500, SettingsTypeError) && call == None
    ensures Dispatched(req, signedIn) && !(req.body.body.mode in KnownModes && req.body.body.settings.None?) ==>
              var b := req.body.body;
              var config := LookupConfig(LlmModel(b)).value;
              var p := Prompts(b, db, stringify);
              call == Some(UpstreamCall(config.url, Headers(config, b.apiKey), config.modelName, p.0, p.1,
                                        b.temperature.GetOr(0.7), LlmModel(b) == "claude"))
              && reply == Outcome(LlmModel(b), up, parse)
  {
    call := None;
    if req.verb == "OPTIONS" {
      return Preflight, None;
    }
    if req.authorization == "" {
      return JsonError(401, "未授权"), None;
    }
    if !signedIn {
      return JsonError(401, "用户未登录"), None;
    }
    if req.body.Unparsable? {
      return JsonError(500, req.body.message), None;
    }
    var b := req.body.body;
    if b.apiKey == "" {
      return JsonError(400, "请先在设置页面配置API密钥"), None;
    }
    var llmModel := LlmModel(b);
    var config := LookupConfig(llmModel);
    if config.None? {
      return JsonError(400, "不支持的模型: " + llmModel), None;
    }
    if b.mode in KnownModes && b.settings.None? {
      return JsonError(500, SettingsTypeError), None;
    }

    var systemPrompt, userPrompt := ChoosePrompts(b, db, stringify);
    var c := config.value;
    call := Some(UpstreamCall(c.url, Headers(c, b.apiKey), c.modelName, systemPrompt, userPrompt,
                              b.temperature.GetOr(0.7), llmModel == "claude"));
    match up {
      case FetchFailed(m) =>
        reply := JsonError(500, m);
      case Responded(ok, status, errorText, chunks) =>
        if !ok {
          var family := if llmModel == "claude" then "Claude API error [" else "LLM API error [";
          reply := JsonError(500, family + IntToString(status) + "]: " + errorText);
        } else if llmModel == "claude" {
          var events := Transform(chunks, parse);
          reply := EventStream(Translated(events));
        } else {
          reply := EventStream(Passthrough(chunks));
        }
    }
  }

  /** Generate mode asks for chapter `chapterNumber || 1`, as the last line of the user prompt. */
  lemma GenerateAsksForChapter(b: Body, db: Db, stringify: seq<CharacterRow> -> string)
    requires b.mode == "generate"
    ensures EndsWith(Prompts(b, db, stringify).1, "\n请生成第" + Show(ChapterAsked(b)) + "章")
  {
    ChapterRequestLast(SettingsOf(b), ModeContext(b, db), stringify);
  }

  /** Continue mode for a novel asks for the chapter after the existing ones. */
  lemma ContinueAsksForNext(b: Body, db: Db, stringify: seq<CharacterRow> -> string)
    requires b.mode == "continue" && b.novelId != ""
    ensures EndsWith(Prompts(b, db, stringify).1, "\n请生成第" + NatToString(|db.chapters.GetOr([])| + 1) + "章")
  {
    ChapterRequestLast(SettingsOf(b), ModeContext(b, db), stringify);
  }

  /** Continue mode without a novel id has no context lines at all. */
  lemma ContinueWithoutNovel(b: Body, db: Db, stringify: seq<CharacterRow> -> string)
    requires b.mode == "continue" && b.novelId == ""
    ensures Prompts(b, db, stringify).1 == Join(Present(Slots(SettingsOf(b), NoContext, stringify)[..11]), "\n")
  {
    NoContextPrompt(SettingsOf(b), stringify);
  }

  /** The outline request names the total length, 100000 when none is set. */
  lemma OutlineRequestTotal(totalWords: Scalar)
    ensures EndsWith(OutlineRequest(totalWords),
                     "预计总字数：" + (if Truthy(totalWords) then Show(totalWords) else "100000") + "字。")
  {
    var e := "预计总字数：" + (if Truthy(totalWords) then Show(totalWords) else "100000") + "字。";
    var h := "\n\n请生成一个详细的长篇小说大纲，包含章节规划。";
    assert OutlineRequest(totalWords) == h + e;
    assert (h + e)[|h + e| - |e|..] == e;
  }

  /** In outline mode that request follows the settings block. */
  lemma OutlineAfterSettings(b: Body, db: Db, stringify: seq<CharacterRow> -> string)
    requires b.mode == "outline"
    ensures StartsWith(Prompts(b, db, stringify).1, BuildUserPrompt(SettingsOf(b), NoContext, stringify))
    ensures EndsWith(Prompts(b, db, stringify).1,
                     "预计总字数：" + (if Truthy(SettingsOf(b).totalWords) then Show(SettingsOf(b).totalWords) else "100000") + "字。")
  {
    var u := BuildUserPrompt(SettingsOf(b), NoContext, stringify);
    var r := OutlineRequest(SettingsOf(b).totalWords);
    StartsWithConcat(u, r);
    OutlineRequestTotal(SettingsOf(b).totalWords);
    EndsWithConcat(u, r, "预计总字数：" + (if Truthy(SettingsOf(b).totalWords) then Show(SettingsOf(b).totalWords) else "100000") + "字。");
  }

  /** In characters mode the character request follows the settings block. */
  lemma CharactersAfterSettings(b: Body, db: Db, stringify: seq<CharacterRow> -> string)
    requires b.mode == "characters"
    ensures Prompts(b, db, stringify).0 == CharacterWriter
    ensures StartsWith(Prompts(b, db, stringify).1, BuildUserPrompt(SettingsOf(b), NoContext, stringify))
    ensures EndsWith(Prompts(b, db, stringify).1, CharacterRequest)
  {
    var u := BuildUserPrompt(SettingsOf(b), NoContext, stringify);
    StartsWithConcat(u, CharacterRequest);
    EndsWithConcat(u, CharacterRequest, CharacterRequest);
  }

  /** Rewrite mode puts the chapter to rewrite ahead of the settings block. */
  lemma RewriteContentFirst(b: Body, db: Db, stringify: seq<CharacterRow> -> string)
    requires b.mode == "rewrite"
    ensures StartsWith(Prompts(b, db, stringify).1, "以下是需要重写的章节内容：\n\n" + Show(b.rewriteContent))
    ensures EndsWith(Prompts(b, db, stringify).1, BuildUserPrompt(SettingsOf(b), NoContext, stringify))
  {
    var h := "以下是需要重写的章节内容：\n\n" + Show(b.rewriteContent);
    var head := RewriteHead(b.rewriteContent);
    var u := BuildUserPrompt(SettingsOf(b), NoContext, stringify);
    assert head == h + "\n\n设定信息：\n";
    assert (head + u)[..|h|] == h;
    assert (head + u)[|head + u| - |u|..] == u;
  }

  /** The outcome's error statuses are those of a thrown error. */
  lemma UpstreamFailureIs500(llmModel: string, status: int, errorText: string, parse: string -> ClaudeEvent)
    ensures Outcome(llmModel, Responded(false, status, errorText, []), parse).JsonError?
    ensures Outcome(llmModel, Responded(false, status, errorText, []), parse).status == 500
    ensures StartsWith(Outcome(llmModel, Responded(false, status, errorText, []), parse).error,
                       if llmModel == "claude" then "Claude API error [" else "LLM API error [")
  {
    var family := if llmModel == "claude" then "Claude API error [" else "LLM API error [";
    var e := family + IntToString(status) + "]: " + errorText;
    assert e[..|family|] == family;
  }

  /** Claude's stream always ends with exactly one `[DONE]`. */
  lemma ClaudeStreamEnds(chunks: seq<string>, parse: string -> ClaudeEvent)
    ensures Outcome("claude", Responded(true, 200, "", chunks), parse).stream.Translated?
    ensures var ev := Outcome("claude", Responded(true, 200, "", chunks), parse).stream.events;
            |ev| > 0 && ev[|ev| - 1] == OutDone
  {
    DoneLast(CompleteLines(Concat(chunks)), parse);
  }

  /** `LLM_CONFIGS[key]` as written: a plain object literal also answers for the members it inherits
      from `Object.prototype`. */
  const ObjectPrototypeMembers: seq<string> := [
    "constructor", "hasOwnProperty", "isPrototypeOf", "propertyIsEnumerable", "toLocaleString",
    "toString", "valueOf", "__proto__", "__defineGetter__", "__defineSetter__",
    "__lookupGetter__", "__lookupSetter__"]

  datatype Lookup = OwnEntry(config: LlmConfig) | InheritedMember(name: string) | NoEntry

  function LookupAsWritten(key: string): (r: Lookup)
    ensures r.NoEntry? <==> key !in Models && key !in ObjectPrototypeMembers
    ensures r.OwnEntry? <==> key in Models
  {
    var own := LookupConfig(key);
    if own.Some? then OwnEntry(own.value)
    else if key in ObjectPrototypeMembers then InheritedMember(key)
    else NoEntry
  }

  /** The model gate as written: only a missing entry is refused with 400; an inherited member passes
      `!config`, and the later `config.headerBuilder(apiKey)` throws, giving a 500 (when the settings
      are present; missing settings throw earlier, in `buildUserPrompt`). */
  function ModelGateAsWritten(llmModel: string): (r: Option<Reply>)
    ensures r.None? <==> llmModel in Models
  {
    match LookupAsWritten(llmModel)
    case OwnEntry(_) => None
    case InheritedMember(_) => Some(JsonError(500, "config.headerBuilder is not a function"))
    case NoEntry => Some(JsonError(400, "不支持的模型: " + llmModel))
  }

  /** The model gate `Serve` applies: every name outside the table is refused with 400. */
  function ModelGate(llmModel: string): (r: Option<Reply>)
    ensures r.None? <==> llmModel in Models
    ensures r.Some? ==> r.value == JsonError(400, "不支持的模型: " + llmModel)
  {
    if LookupConfig(llmModel).Some? then None else Some(JsonError(400, "不支持的模型: " + llmModel))
  }

  /** The model name "toString" is not supported, yet as written it is not refused as unsupported:
      it gets a 500, where the gate answers 400. */
  lemma InheritedNameSlipsThrough()
    ensures "toString" !in Models
    ensures ModelGateAsWritten("toString") == Some(JsonError(500, "config.headerBuilder is not a function"))
    ensures ModelGate("toString") == Some(JsonError(400, "不支持的模型: toString"))
  {
    assert ObjectPrototypeMembers[5] == "toString";
    assert "不支持的模型: " + "toString" == "不支持的模型: toString";
  }

  /** Both gates agree on every name that is neither a table key nor an inherited member. */
  lemma GatesAgreeElsewhere(llmModel: string)
    requires llmModel !in ObjectPrototypeMembers
    ensures ModelGateAsWritten(llmModel) == ModelGate(llmModel)
  {
  }
}
