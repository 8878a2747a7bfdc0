/**
  * The HTTP endpoint of the remote MCP server: it takes the GitHub token
  * from the `Authorization` header (or the environment), authenticates it
  * through a per-token client cache, and answers a JSON-RPC 2.0 request
  * with `tools/list` or `tools/call`.  The error codes are those of
  * section 5.1 of the JSON-RPC 2.0 specification, plus -32002 from the
  * range it reserves for server errors.
  */
module Rpc {
  import opened Common
  import opened Text

  /** A parsed JSON value (numbers are integers here). */
  datatype Json =
    | JNull
    | JBool(b: bool)
    | JInt(i: int)
    | JStr(s: string)
    | JArr(items: seq<Json>)
    | JObj(fields: map<string, Json>)

  /** Python truthiness of the value once parsed. */
  predicate Truthy(v: Json) {
    match v
    case JNull => false
    case JBool(b) => b
    case JInt(i) => i != 0
    case JStr(s) => s != ""
    case JArr(items) => items != []
    case JObj(fields) => fields != map[]
  }

  /** `d.get(key)` on a JSON object. */
  function Get(fields: map<string, Json>, key: string): Json {
    if key in fields then fields[key] else JNull
  }

  /** `d.get(key, default)` on a JSON object. */
  function GetOr(fields: map<string, Json>, key: string, default: Json): Json {
    if key in fields then fields[key] else default
  }

  /** Python's `str(n)` for any integer. */
  function IntText(i: int): (s: string)
    ensures i < 0 <==> StartsWith(s, "-")
  {
    if i < 0 then "-" + Decimal(-i)
    else
      var s := Decimal(i);
      assert s[0] != '-';
      s
  }

  /**
    * Python's `str(v)` in an f-string, for the scalars; a list or an object
    * is rendered by a placeholder.
    */
  function Show(v: Json): string {
    match v
    case JNull => "None"
    case JBool(b) => if b then "True" else "False"
    case JInt(i) => IntText(i)
    case JStr(s) => s
    case JArr(_) => "[...]"
    case JObj(_) => "{...}"
  }

  /**
    * `MCPResponse.to_dict`: always `jsonrpc` and `id`, and exactly one of
    * `error` (when the error is truthy) and `result`.
    */
  function ToDict(result: Json, error: Json, id: Json): (d: map<string, Json>)
    ensures d.Keys == {"jsonrpc", "id", if Truthy(error) then "error" else "result"}
    ensures |d| == 3
    ensures d["jsonrpc"] == JStr("2.0") && d["id"] == id
    ensures "error" in d <==> Truthy(error)
    ensures "result" in d <==> !Truthy(error)
    ensures "error" in d ==> d["error"] == error
    ensures "result" in d ==> d["result"] == result
  {
    var base := map["jsonrpc" := JStr("2.0"), "id" := id];
    if Truthy(error) then base["error" := error] else base["result" := result]
  }

  /** A falsy error (`None`, `False`, `0`, `""`, `[]`, `{}`) is dropped and the result is sent instead. */
  lemma {:induction false} FalsyErrorSendsResult(result: Json, id: Json)
    ensures forall e | e in [JNull, JBool(false), JInt(0), JStr(""), JArr([]), JObj(map[])] ::
      ToDict(result, e, id) == map["jsonrpc" := JStr("2.0"), "id" := id, "result" := result]
  {
    forall e | e in [JNull, JBool(false), JInt(0), JStr(""), JArr([]), JObj(map[])]
      ensures ToDict(result, e, id) == map["jsonrpc" := JStr("2.0"), "id" := id, "result" := result]
    {
      assert !Truthy(e);
    }
  }

  /**
    * The token the handler uses: the header minus `"Bearer "`, or a header
    * starting with `"github_pat_"` as it is, or else the `GITHUB_TOKEN`
    * environment value; an empty string counts as no token at every step.
    * An absent header is the empty string.
    */
  function TokenFrom(header: string, env: Option<string>): (t: Option<string>)
    ensures t.Some? ==> t.value != ""
    ensures StartsWith(header, "Bearer ") && |header| > 7 ==> t == Some(header[7..])
    ensures !StartsWith(header, "Bearer ") && StartsWith(header, "github_pat_") ==> t == Some(header)
    ensures !StartsWith(header, "github_pat_") && !(StartsWith(header, "Bearer ") && |header| > 7) ==>
      t == (if env.Some? && env.value != "" then env else None)
  {
    var fromHeader :=
      if StartsWith(header, "Bearer ") then header[7..]
      else if StartsWith(header, "github_pat_") then header
      else "";
    if fromHeader != "" then Some(fromHeader)
    else if env.Some? && env.value != "" then env
    else None
  }

  /** A bearer header yields exactly the token it carries, whatever the environment holds. */
  lemma BearerRoundTrip(token: string, env: Option<string>)
    requires token != ""
    ensures TokenFrom("Bearer " + token, env) == Some(token)
  {
    assert ("Bearer " + token)[7..] == token;
  }

  /** A bare token that is not a fine-grained `github_pat_` token is ignored in favour of the environment. */
  lemma BareTokenIgnored(token: string, env: Option<string>)
    requires !StartsWith(token, "Bearer ") && !StartsWith(token, "github_pat_")
    ensures TokenFrom(token, env) == TokenFrom("", env)
  {
  }

  /** The GitHub client the cache holds for a token. */
  datatype Client = Client(token: string)

  /** `github_clients`: one authenticated client per token. */
  class ClientCache {
    var clients: map<string, Client>

    ghost predicate Valid()
      reads this
    {
      forall t | t in clients :: clients[t] == Client(t)
    }

    constructor ()
      ensures Valid() && clients == map[]
    {
      clients := map[];
    }

    /**
      * `get_github_client(token)`: a cached client is returned without
      * asking GitHub again; otherwise the client is cached only when GitHub
      * accepts the token (`accepted` is its answer to `get_user()`), and a
      * rejected token leaves the cache as it was and raises the 401.
      */
    method Get(token: string, accepted: bool) returns (c: Option<Client>)
      requires Valid()
      modifies this
      ensures Valid()
      ensures token in old(clients) ==> c == Some(old(clients)[token]) && clients == old(clients)
      ensures token !in old(clients) && accepted ==>
        c == Some(Client(token)) && clients == old(clients)[token := Client(token)]
      ensures token !in old(clients) && !accepted ==> c == None && clients == old(clients)
      ensures c.Some? ==> c.value == Client(token) && token in clients
    {
      if token !in clients {
        if !accepted {
          return None;
        }
        clients := clients[token := Client(token)];
      }
      c := Some(clients[token]);
    }
  }

  /** A registered tool: its name and its docstring, if any. */
  datatype Tool = Tool(name: string, doc: Option<string>)

  /** One entry of the `tools/list` result (its input schema is the same constant for every tool). */
  datatype ToolEntry = ToolEntry(name: string, description: string)

  /** The keys of `MCP_TOOLS`, in registration order. */
  const MCP_TOOL_NAMES: seq<string> := [
    "list_repos", "create_repo", "delete_repo", "get_repo_structure", "read_file", "edit_file",
    "write_file", "batch_update_files", "create_branch", "search_code", "create_pull_request",
    "delete_file", "delete_files_batch", "create_folder", "delete_folder", "move_file",
    "move_files_batch", "update_repo_settings"]

  function Names(registry: seq<Tool>): (names: seq<string>)
    ensures |names| == |registry| && forall i | 0 <= i < |registry| :: names[i] == registry[i].name
  {
    seq(|registry|, i requires 0 <= i < |registry| => registry[i].name)
  }

  /**
    * `rename_file` is implemented by the tool module but not registered, so
    * the HTTP endpoint cannot reach it.
    */
  lemma RenameFileNotRegistered()
    ensures "rename_file" !in MCP_TOOL_NAMES
  {
    forall i | 0 <= i < |MCP_TOOL_NAMES| ensures MCP_TOOL_NAMES[i] != "rename_file" {
      assert |MCP_TOOL_NAMES[i]| != 11 || MCP_TOOL_NAMES[i][0] != 'r';
    }
  }

  /**
    * A tool's description: the first line of its stripped docstring, or
    * "Execute <name>" without one, with one trailing colon removed.
    */
  function Describe(t: Tool): (d: string)
    ensures var first := if t.doc.Some? && t.doc.value != "" then Split(Strip(t.doc.value), '\n')[0]
                         else "Execute " + t.name;
      && StartsWith(first, d)
      && (EndsWith(first, ":") <==> |d| + 1 == |first|)
      && (!EndsWith(first, ":") <==> d == first)
    ensures t.doc.Some? && t.doc.value != "" ==> StartsWith(Strip(t.doc.value), d) && '\n' !in d
  {
    var first := if t.doc.Some? && t.doc.value != "" then Split(Strip(t.doc.value), '\n')[0]
                 else "Execute " + t.name;
    if EndsWith(first, ":") then first[..|first| - 1] else first
  }

  /** The `tools/list` result: one entry per registered tool, in order. */
  function ToolList(registry: seq<Tool>): (tools: seq<ToolEntry>)
    ensures |tools| == |registry|
    ensures forall i | 0 <= i < |registry| :: tools[i] == ToolEntry(registry[i].name, Describe(registry[i]))
  {
    seq(|registry|, i requires 0 <= i < |registry| => ToolEntry(registry[i].name, Describe(registry[i])))
  }

  /** The `tools/list` loop. */
  method ListTools(registry: seq<Tool>) returns (tools: seq<ToolEntry>)
    ensures tools == ToolList(registry)
  {
    tools := [];
    for i := 0 to |registry|
      invariant tools == ToolList(registry[..i])
    {
      tools := tools + [ToolEntry(registry[i].name, Describe(registry[i]))];
    }
    assert registry[..|registry|] == registry;
  }

  /** What calling a tool does: it returns a value, or it raises. */
  datatype ToolOutcome = Returned(value: Json) | Raised

  /**
    * The text of a successful `tools/call`: `"Error: "` and the tool's error
    * value, or the result as `json.dumps(result, indent=2)` renders it.
    */
  datatype CallText = ErrorText(text: string) | Dumped(value: Json)

  datatype Outcome =
    | Error(code: int, message: string)
    | ToolsListed(tools: seq<ToolEntry>)
    | ToolContent(content: CallText)

  /** The dictionary the handler returns: `jsonrpc` is always "2.0". */
  datatype Response = Response(id: Json, outcome: Outcome)

  const PARSE_ERROR := -32700
  const METHOD_NOT_FOUND := -32601
  const INTERNAL_ERROR := -32603
  const UNAUTHORIZED := -32002

  const NO_TOKEN_TEXT := "Authorization required. Please provide a GitHub Personal Access Token."
  const BAD_TOKEN_TEXT := "Invalid GitHub token. Please check your Personal Access Token has 'repo' permissions."

  /**
    * Any exception other than a JSON parse failure, answered with no id.
    * The exception's own text, which follows the prefix, is not modelled.
    */
  const INTERNAL := Response(JNull, Error(INTERNAL_ERROR, "Internal error: "))

  /**
    * `tools/call` once the request is authenticated: an unhashable name
    * raises, an unregistered one is not found, and a registered tool's
    * result is sent as text, its `"error"` value included.
    */
  function Call(id: Json, params: Json, registry: seq<Tool>, run: (string, map<string, Json>) -> ToolOutcome)
    : (r: Response)
    ensures r.outcome.ToolContent? ==>
      params.JObj? && Get(params.fields, "name").JStr? && Get(params.fields, "name").s in Names(registry)
  {
    if !params.JObj? then INTERNAL
    else
      var name := Get(params.fields, "name");
      var args := GetOr(params.fields, "arguments", JObj(map[]));
      if name.JArr? || name.JObj? then INTERNAL
      else if !(name.JStr? && name.s in Names(registry)) then
        Response(id, Error(METHOD_NOT_FOUND, "Tool not found: " + Show(name)))
      else if !args.JObj? then Response(id, Error(INTERNAL_ERROR, "Tool execution failed: "))
      else match run(name.s, args.fields)
        case Raised => Response(id, Error(INTERNAL_ERROR, "Tool execution failed: "))
        case Returned(v) =>
          if v.JObj? && "error" in v.fields then Response(id, ToolContent(ErrorText("Error: " + Show(v.fields["error"]))))
          else Response(id, ToolContent(Dumped(v)))
  }

  /**
    * `mcp_http_handler`: the answer to one POST of `body` (`None` when it is
    * not valid JSON), given the `Authorization` header, the environment's
    * token, GitHub's verdict on the token and the tools.
    */
  function Respond(header: string, env: Option<string>, body: Option<Json>, accepted: bool,
                   registry: seq<Tool>, run: (string, map<string, Json>) -> ToolOutcome): (r: Response)
    ensures body.None? ==> r == Response(JNull, Error(PARSE_ERROR, "Parse error: Invalid JSON"))
    ensures body.Some? && body.value.JObj? && TokenFrom(header, env).None? ==>
      r == Response(Get(body.value.fields, "id"), Error(UNAUTHORIZED, NO_TOKEN_TEXT))
    ensures body.Some? && body.value.JObj? && TokenFrom(header, env).Some? && !accepted ==>
      r == Response(Get(body.value.fields, "id"), Error(UNAUTHORIZED, BAD_TOKEN_TEXT))
    ensures body.Some? && !body.value.JObj? ==> r == INTERNAL
    ensures r.outcome.ToolsListed? || r.outcome.ToolContent? ==>
      && body.Some? && body.value.JObj? && TokenFrom(header, env).Some? && accepted
      && r.id == Get(body.value.fields, "id")
    ensures r.outcome.ToolsListed? ==>
      Get(body.value.fields, "method") == JStr("tools/list") && r.outcome.tools == ToolList(registry)
    ensures r.outcome.ToolContent? ==> Get(body.value.fields, "method") == JStr("tools/call")
    ensures body.Some? && body.value.JObj? && TokenFrom(header, env).Some? && accepted
            && Get(body.value.fields, "method") == JStr("tools/list") ==>
      r == Response(Get(body.value.fields, "id"), ToolsListed(ToolList(registry)))
  {
    if body.None? then Response(JNull, Error(PARSE_ERROR, "Parse error: Invalid JSON"))
    else if TokenFrom(header, env).None? || !accepted then
      if body.value.JObj? then
        Response(Get(body.value.fields, "id"),
                 Error(UNAUTHORIZED, if TokenFrom(header, env).None? then NO_TOKEN_TEXT else BAD_TOKEN_TEXT))
      else INTERNAL
    else if !body.value.JObj? then INTERNAL
    else
      var fields := body.value.fields;
      var requested := Get(fields, "method");
      var id := Get(fields, "id");
      if requested == JStr("tools/list") then Response(id, ToolsListed(ToolList(registry)))
      else if requested == JStr("tools/call") then Call(id, GetOr(fields, "params", JObj(map[])), registry, run)
      else Response(id, Error(METHOD_NOT_FOUND, "Method not found: " + Show(requested)))
  }

  /** A registered tool that returns `{"error": ...}` is a successful response carrying "Error: ...". */
  lemma ToolErrorIsSuccess(header: string, env: Option<string>, fields: map<string, Json>, registry: seq<Tool>,
                           run: (string, map<string, Json>) -> ToolOutcome, name: string, args: map<string, Json>,
                           error: Json, rest: map<string, Json>)
    requires TokenFrom(header, env).Some?
    requires Get(fields, "method") == JStr("tools/call")
    requires GetOr(fields, "params", JObj(map[])) == JObj(map["name" := JStr(name), "arguments" := JObj(args)])
    requires name in Names(registry)
    requires run(name, args) == Returned(JObj(rest["error" := error]))
    ensures Respond(header, env, Some(JObj(fields)), true, registry, run)
      == Response(Get(fields, "id"), ToolContent(ErrorText("Error: " + Show(error))))
  {
  }

  /**
    * A registered tool whose result is not an object with an `"error"` key
    * is a successful response carrying that result as `json.dumps` renders it.
    */
  lemma ToolResultIsDumped(header: string, env: Option<string>, fields: map<string, Json>, registry: seq<Tool>,
                           run: (string, map<string, Json>) -> ToolOutcome, name: string, args: map<string, Json>,
                           v: Json)
    requires TokenFrom(header, env).Some?
    requires Get(fields, "method") == JStr("tools/call")
    requires GetOr(fields, "params", JObj(map[])) == JObj(map["name" := JStr(name), "arguments" := JObj(args)])
    requires name in Names(registry)
    requires run(name, args) == Returned(v)
    requires !(v.JObj? && "error" in v.fields)
    ensures Respond(header, env, Some(JObj(fields)), true, registry, run)
      == Response(Get(fields, "id"), ToolContent(Dumped(v)))
  {
  }

  /**
    * A registered tool that raises, or whose `arguments` are not an object
    * and so cannot be spread into keyword arguments, is -32603 "Tool
    * execution failed", echoing the id.
    */
  lemma ToolRaisedIsInternal(header: string, env: Option<string>, fields: map<string, Json>, registry: seq<Tool>,
                             run: (string, map<string, Json>) -> ToolOutcome, name: string,
                             params: map<string, Json>)
    requires TokenFrom(header, env).Some?
    requires Get(fields, "method") == JStr("tools/call")
    requires GetOr(fields, "params", JObj(map[])) == JObj(params)
    requires Get(params, "name") == JStr(name) && name in Names(registry)
    requires match GetOr(params, "arguments", JObj(map[]))
             case JObj(args) => run(name, args) == Raised
             case _ => true
    ensures Respond(header, env, Some(JObj(fields)), true, registry, run)
      == Response(Get(fields, "id"), Error(INTERNAL_ERROR, "Tool execution failed: "))
  {
  }

  /**
    * `params` that is not an object fails before the tool lookup and is
    * answered as an internal error with no id.
    */
  lemma NonObjectParamsInternal(header: string, env: Option<string>, fields: map<string, Json>, registry: seq<Tool>,
                                run: (string, map<string, Json>) -> ToolOutcome)
    requires TokenFrom(header, env).Some?
    requires Get(fields, "method") == JStr("tools/call")
    requires !GetOr(fields, "params", JObj(map[])).JObj?
    ensures Respond(header, env, Some(JObj(fields)), true, registry, run) == INTERNAL
  {
  }

  /** `tools/call` of a name not registered is -32601 "Tool not found", echoing the id. */
  lemma UnknownToolNotFound(header: string, env: Option<string>, fields: map<string, Json>, registry: seq<Tool>,
                            run: (string, map<string, Json>) -> ToolOutcome, name: string)
    requires TokenFrom(header, env).Some?
    requires Get(fields, "method") == JStr("tools/call")
    requires GetOr(fields, "params", JObj(map[])) == JObj(map["name" := JStr(name)])
    requires name !in Names(registry)
    ensures Respond(header, env, Some(JObj(fields)), true, registry, run)
      == Response(Get(fields, "id"), Error(METHOD_NOT_FOUND, "Tool not found: " + name))
  {
  }

  /** Through the HTTP endpoint, `rename_file` is an unknown tool. */
  lemma RenameFileUnreachable(header: string, env: Option<string>, fields: map<string, Json>, registry: seq<Tool>,
                              run: (string, map<string, Json>) -> ToolOutcome)
    requires TokenFrom(header, env).Some?
    requires Names(registry) == MCP_TOOL_NAMES
    requires Get(fields, "method") == JStr("tools/call")
    requires GetOr(fields, "params", JObj(map[])) == JObj(map["name" := JStr("rename_file")])
    ensures Respond(header, env, Some(JObj(fields)), true, registry, run)
      == Response(Get(fields, "id"), Error(METHOD_NOT_FOUND, "Tool not found: rename_file"))
  {
    assert "rename_file" !in Names(registry) by {
      RenameFileNotRegistered();
    }
    UnknownToolNotFound(header, env, fields, registry, run, "rename_file");
  }

  /** Any method other than the two tool methods is -32601 "Method not found", echoing the id. */
  lemma UnknownMethodNotFound(header: string, env: Option<string>, fields: map<string, Json>, registry: seq<Tool>,
                              run: (string, map<string, Json>) -> ToolOutcome, requested: string)
    requires TokenFrom(header, env).Some?
    requires Get(fields, "method") == JStr(requested) && requested != "tools/list" && requested != "tools/call"
    ensures Respond(header, env, Some(JObj(fields)), true, registry, run)
      == Response(Get(fields, "id"), Error(METHOD_NOT_FOUND, "Method not found: " + requested))
  {
  }

  /**
    * A method that is not a string, a missing one included, matches neither
    * tool method and is -32601 with the value as `str()` renders it.
    */
  lemma NonStringMethodNotFound(header: string, env: Option<string>, fields: map<string, Json>, registry: seq<Tool>,
                                run: (string, map<string, Json>) -> ToolOutcome)
    requires TokenFrom(header, env).Some?
    requires !Get(fields, "method").JStr?
    ensures Respond(header, env, Some(JObj(fields)), true, registry, run)
      == Response(Get(fields, "id"), Error(METHOD_NOT_FOUND, "Method not found: " + Show(Get(fields, "method"))))
    ensures "method" !in fields ==>
      Respond(header, env, Some(JObj(fields)), true, registry, run)
        == Response(Get(fields, "id"), Error(METHOD_NOT_FOUND, "Method not found: None"))
  {
  }

  /** An authenticated `tools/list` is answered with the entry of every registered tool, echoing the id. */
  lemma ToolsListIsListed(header: string, env: Option<string>, fields: map<string, Json>, registry: seq<Tool>,
                          run: (string, map<string, Json>) -> ToolOutcome)
    requires TokenFrom(header, env).Some?
    requires Get(fields, "method") == JStr("tools/list")
    ensures Respond(header, env, Some(JObj(fields)), true, registry, run)
      == Response(Get(fields, "id"), ToolsListed(ToolList(registry)))
    ensures |Respond(header, env, Some(JObj(fields)), true, registry, run).outcome.tools| == |registry|
  {
  }

  /**
    * A tool name that is a list or an object cannot be looked up in the
    * tool dictionary; the error escapes to the handler's catch-all, which
    * answers -32603 with no id.
    */
  lemma UnhashableToolNameInternal(header: string, env: Option<string>, fields: map<string, Json>,
                                   registry: seq<Tool>, run: (string, map<string, Json>) -> ToolOutcome,
                                   params: map<string, Json>)
    requires TokenFrom(header, env).Some?
    requires Get(fields, "method") == JStr("tools/call")
    requires GetOr(fields, "params", JObj(map[])) == JObj(params)
    requires Get(params, "name").JArr? || Get(params, "name").JObj?
    ensures Respond(header, env, Some(JObj(fields)), true, registry, run) == INTERNAL
  {
  }

  /**
    * The handler itself: the client cache is consulted once a token is
    * found, so a token GitHub accepts is cached even when the body then
    * turns out not to be an object; the answer is `Respond`'s, with the
    * tool list built by its loop.
    */
  method HandleHttp(cache: ClientCache, header: string, env: Option<string>, body: Option<Json>, accepted: bool,
                    registry: seq<Tool>, run: (string, map<string, Json>) -> ToolOutcome)
    returns (r: Response)
    requires cache.Valid()
    modifies cache
    ensures cache.Valid()
    ensures r == Respond(header, env, body, accepted, registry, run)
    ensures body.Some? && TokenFrom(header, env).Some? && accepted ==>
      cache.clients == old(cache.clients)[TokenFrom(header, env).value := Client(TokenFrom(header, env).value)]
    ensures !(body.Some? && TokenFrom(header, env).Some? && accepted) ==> cache.clients == old(cache.clients)
  {
    var token := TokenFrom(header, env);
    if body.Some? && token.Some? {
      var client := cache.Get(token.value, accepted);
    }
    if body.Some? && token.Some? && accepted && body.value.JObj?
       && Get(body.value.fields, "method") == JStr("tools/list")
    {
      var tools := ListTools(registry);
      r := Response(Get(body.value.fields, "id"), ToolsListed(tools));
    } else {
      r := Respond(header, env, body, accepted, registry, run);
    }
  }
}
