/** `analyze_layout_with_gemini`: read the layout file, send its text as the single history
    message of a chat, and turn the reply text into a JSON value. The remote service and the
    JSON parser are parameters: `service` answers a request with reply text or raises, and
    `parse` is `json.loads` (None standing for `JSONDecodeError`). */
module Inference {
  import opened Wrappers
  import opened Files
  import Json

  const API_KEY_VAR := "GEMINI_API_KEY"
  const FENCE_OPEN := "```json\n"
  const FENCE_CLOSE := "\n```"
  const RAW_RESPONSE_KEY := "raw_response"

  /** One entry of the chat history. */
  datatype Turn = Turn(role: string, parts: seq<string>)

  /** What reaches the service: the configured key and the chat history. */
  datatype Request = Request(apiKey: string, history: seq<Turn>)

  /** The errors that leave `analyze_layout_with_gemini`: the file cannot be read, the
      environment has no API key (`KeyError`), or `send_message` raised. */
  datatype InferenceError =
    | FileReadError(path: string)
    | MissingEnvVar(name: string)
    | ServiceError(cause: string)

  /** The layout text inside a JSON code fence. */
  function Fence(contents: string): string
  {
    FENCE_OPEN + contents + FENCE_CLOSE
  }

  /** Takes a fenced block apart again. */
  function Unfence(s: string): Option<string>
  {
    if |s| >= |FENCE_OPEN| + |FENCE_CLOSE|
       && s[..|FENCE_OPEN|] == FENCE_OPEN
       && s[|s| - |FENCE_CLOSE|..] == FENCE_CLOSE
    then Some(s[|FENCE_OPEN|..|s| - |FENCE_CLOSE|])
    else None
  }

  lemma FenceRoundTrip(contents: string)
    ensures Unfence(Fence(contents)) == Some(contents)
  {
    var s := Fence(contents);
    assert s[..|FENCE_OPEN|] == FENCE_OPEN;
    assert s[|s| - |FENCE_CLOSE|..] == FENCE_CLOSE;
    assert s[|FENCE_OPEN|..|s| - |FENCE_CLOSE|] == contents;
  }

  /** The chat history: one user message whose single part is the file text, fenced, unaltered. */
  function HistoryFor(contents: string): (h: seq<Turn>)
    ensures |h| == 1 && h[0].role == "user" && |h[0].parts| == 1
    ensures Unfence(h[0].parts[0]) == Some(contents)
  {
    FenceRoundTrip(contents);
    [Turn("user", [Fence(contents)])]
  }

  /** The fallback object `{"raw_response": text}`. */
  function RawResponse(text: string): Json.Value
  {
    Json.Obj([(RAW_RESPONSE_KEY, Json.Str(text))])
  }

  /** The text of a fallback object, if the value is one. */
  function RawText(v: Json.Value): Option<string>
  {
    if v.Obj? && |v.members| == 1 && v.members[0].0 == RAW_RESPONSE_KEY && v.members[0].1.Str?
    then Some(v.members[0].1.s)
    else None
  }

  /** The `try: json.loads(...) except JSONDecodeError` step: it never raises. */
  function HandleReply(text: string, parse: string -> Option<Json.Value>): Json.Value
  {
    match parse(text)
    case Some(v) => v
    case None => RawResponse(text)
  }

  /** A reply that parses is returned as parsed. */
  lemma ParsedReplyUnchanged(text: string, parse: string -> Option<Json.Value>)
    requires parse(text).Some?
    ensures HandleReply(text, parse) == parse(text).value
  {
  }

  /** A reply that does not parse comes back as a one-key object holding the text unmodified. */
  lemma FallbackKeepsText(text: string, parse: string -> Option<Json.Value>)
    requires parse(text).None?
    ensures Json.Keys(HandleReply(text, parse)) == [RAW_RESPONSE_KEY]
    ensures RawText(HandleReply(text, parse)) == Some(text)
  {
  }

  /** Everything after the file read: look up the key, send the request, handle the reply. */
  function AnalyzeContents(contents: string, env: map<string, string>,
                           service: Request -> Result<string, string>,
                           parse: string -> Option<Json.Value>): (r: Result<Json.Value, InferenceError>)
  {
    if API_KEY_VAR !in env then Failure(MissingEnvVar(API_KEY_VAR))
    else
      match service(Request(env[API_KEY_VAR], HistoryFor(contents)))
      case Failure(cause) => Failure(ServiceError(cause))
      case Success(text) => Success(HandleReply(text, parse))
  }

  /** `analyze_layout_with_gemini(layout_file_path)`. */
  function AnalyzeLayout(path: string, files: map<string, FileData>, env: map<string, string>,
                         service: Request -> Result<string, string>,
                         parse: string -> Option<Json.Value>): (r: Result<Json.Value, InferenceError>)
  {
    match ReadText(files, path)
    case None => Failure(FileReadError(path))
    case Some(contents) => AnalyzeContents(contents, env, service, parse)
  }

  /** The file is read before anything else: when it cannot be read, the error is the read
      error whatever the environment and the service would do. */
  lemma ReadComesFirst(path: string, files: map<string, FileData>,
                       env1: map<string, string>, env2: map<string, string>,
                       service1: Request -> Result<string, string>,
                       service2: Request -> Result<string, string>,
                       parse: string -> Option<Json.Value>)
    requires ReadText(files, path).None?
    ensures AnalyzeLayout(path, files, env1, service1, parse) == Failure(FileReadError(path))
    ensures AnalyzeLayout(path, files, env1, service1, parse)
            == AnalyzeLayout(path, files, env2, service2, parse)
  {
  }

  /** The key is looked up before the request: without it the service is never consulted. */
  lemma KeyBeforeRequest(contents: string, env: map<string, string>,
                         service1: Request -> Result<string, string>,
                         service2: Request -> Result<string, string>,
                         parse: string -> Option<Json.Value>)
    requires API_KEY_VAR !in env
    ensures AnalyzeContents(contents, env, service1, parse) == Failure(MissingEnvVar(API_KEY_VAR))
    ensures AnalyzeContents(contents, env, service1, parse) == AnalyzeContents(contents, env, service2, parse)
  {
  }

  /** Only decode errors are absorbed: the call fails exactly when the file cannot be read, the
      key is missing or the service raises, and a service error is passed on unchanged. */
  lemma FailuresPropagate(path: string, files: map<string, FileData>, env: map<string, string>,
                          service: Request -> Result<string, string>,
                          parse: string -> Option<Json.Value>)
    ensures AnalyzeLayout(path, files, env, service, parse).Failure? <==>
              || ReadText(files, path).None?
              || API_KEY_VAR !in env
              || service(Request(env[API_KEY_VAR], HistoryFor(ReadText(files, path).value))).Failure?
    ensures ReadText(files, path).Some? && API_KEY_VAR in env ==>
              var reply := service(Request(env[API_KEY_VAR], HistoryFor(ReadText(files, path).value)));
              reply.Failure? ==> AnalyzeLayout(path, files, env, service, parse) == Failure(ServiceError(reply.error))
  {
  }

  /** The service sees only the key and the file text, fenced: two services that answer that
      one request alike give the same result, and a successful result is the handled reply. */
  lemma ServiceSeesFileVerbatim(path: string, files: map<string, FileData>, env: map<string, string>,
                                service1: Request -> Result<string, string>,
                                service2: Request -> Result<string, string>,
                                parse: string -> Option<Json.Value>)
    requires ReadText(files, path).Some? && API_KEY_VAR in env
    requires var req := Request(env[API_KEY_VAR], HistoryFor(ReadText(files, path).value));
             service1(req) == service2(req)
    ensures AnalyzeLayout(path, files, env, service1, parse) == AnalyzeLayout(path, files, env, service2, parse)
    ensures var req := Request(env[API_KEY_VAR], HistoryFor(ReadText(files, path).value));
            service1(req).Success? ==>
              AnalyzeLayout(path, files, env, service1, parse) == Success(HandleReply(service1(req).value, parse))
  {
  }
}
