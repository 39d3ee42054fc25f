/**
 The window tools the agent calls: the request each tool sends to the
 windows endpoint, the reading of the reply into a tool result,
 and the ordered tool list handed to the agent.
 */
module WindowTools {
  import opened Wrappers
  import Decimal

  /**
   A tool set bound to one conversation. `baseUrl` stands for the service
   address the constructor reads from the environment.
   */
  datatype Tools = Tools(chatId: string, baseUrl: string)

  /** The path every window tool posts to. */
  const WindowsPath: string := "/api/windows"

  /** A JSON request body whose values are all strings. */
  type Body = map<string, string>

  /** A POST of `body` to `url`. */
  datatype Request = Request(url: string, body: Body)

  /** What a window tool asks the endpoint to do, with its arguments. */
  datatype WindowCommand =
    | Create(windowTag: string, srcdoc: string, title: string)
    | Close(windowTag: string)
    | Minimize(windowTag: string)
    | ReplaceSrc(windowTag: string, newSrc: string, oldSrc: string)

  /** The `action` field that tells the endpoint which command a body carries. */
  function ActionTag(c: WindowCommand): string {
    match c
    case Create(_, _, _) => "create"
    case Close(_) => "close"
    case Minimize(_) => "minimize"
    case ReplaceSrc(_, _, _) => "replace_src"
  }

  /** Distinct command kinds are told apart by their action tags alone. */
  lemma ActionTagIdentifiesKind(c: WindowCommand, d: WindowCommand)
    ensures ActionTag(c) == ActionTag(d) <==>
      (c.Create? && d.Create?) || (c.Close? && d.Close?) || (c.Minimize? && d.Minimize?) || (c.ReplaceSrc? && d.ReplaceSrc?)
  {
  }

  /** The keys a body for the given action carries. */
  function KeysFor(action: string): set<string> {
    if action == "create" then {"action", "windowTag", "srcdoc", "title", "chatId"}
    else if action == "replace_src" then {"action", "windowTag", "oldSrc", "newSrc", "chatId"}
    else {"action", "windowTag", "chatId"}
  }

  /** The JSON body sent for command `c` on behalf of conversation `chatId`. */
  function EncodeBody(chatId: string, c: WindowCommand): (b: Body)
    ensures b.Keys == KeysFor(ActionTag(c))
    ensures "action" in b && b["action"] == ActionTag(c)
    ensures "windowTag" in b && b["windowTag"] == c.windowTag
    ensures "chatId" in b && b["chatId"] == chatId
  {
    match c
    case Create(w, s, t) =>
      map["action" := "create", "windowTag" := w, "srcdoc" := s, "title" := t, "chatId" := chatId]
    case Close(w) =>
      map["action" := "close", "windowTag" := w, "chatId" := chatId]
    case Minimize(w) =>
      map["action" := "minimize", "windowTag" := w, "chatId" := chatId]
    case ReplaceSrc(w, n, o) =>
      map["action" := "replace_src", "windowTag" := w, "oldSrc" := o, "newSrc" := n, "chatId" := chatId]
  }

  /**
   The reader that inverts `EncodeBody`: the conversation and command a body
   names, or None when the body is not the encoding of any command.
   */
  function DecodeBody(b: Body): Option<(string, WindowCommand)> {
    if "action" !in b || "windowTag" !in b || "chatId" !in b || b.Keys != KeysFor(b["action"]) then None
    else
      var action, w := b["action"], b["windowTag"];
      if action == "create" then Some((b["chatId"], Create(w, b["srcdoc"], b["title"])))
      else if action == "close" then Some((b["chatId"], Close(w)))
      else if action == "minimize" then Some((b["chatId"], Minimize(w)))
      else if action == "replace_src" then Some((b["chatId"], ReplaceSrc(w, b["newSrc"], b["oldSrc"])))
      else None
  }

  /** Every body a tool sends reads back as the conversation and command it was built from. */
  lemma EncodeDecodeRoundTrip(chatId: string, c: WindowCommand)
    ensures DecodeBody(EncodeBody(chatId, c)) == Some((chatId, c))
  {
  }

  /** Every body the reader accepts is the encoding of exactly the command it reads. */
  lemma DecodeEncodeRoundTrip(b: Body)
    requires DecodeBody(b).Some?
    ensures EncodeBody(DecodeBody(b).value.0, DecodeBody(b).value.1) == b
  {
    var (chatId, c) := DecodeBody(b).value;
    var e := EncodeBody(chatId, c);
    assert e.Keys == b.Keys;
    forall k | k in b
      ensures e[k] == b[k]
    {
    }
  }

  /** The request the tool set sends for command `c`. */
  function BuildRequest(t: Tools, c: WindowCommand): (r: Request)
    ensures r.url == t.baseUrl + WindowsPath
    ensures "chatId" in r.body && r.body["chatId"] == t.chatId
    ensures "windowTag" in r.body && r.body["windowTag"] == c.windowTag
    ensures DecodeBody(r.body) == Some((t.chatId, c))
  {
    EncodeDecodeRoundTrip(t.chatId, c);
    Request(t.baseUrl + WindowsPath, EncodeBody(t.chatId, c))
  }

  /** The request of `create_window`; the title defaults to the empty string. */
  function CreateWindowRequest(t: Tools, windowTag: string, srcdoc: string, title: string := ""): (r: Request)
    ensures r.url == t.baseUrl + WindowsPath
    ensures r.body.Keys == {"action", "windowTag", "srcdoc", "title", "chatId"}
    ensures r.body["action"] == "create"
    ensures r.body["windowTag"] == windowTag && r.body["srcdoc"] == srcdoc && r.body["title"] == title
    ensures r.body["chatId"] == t.chatId
  {
    BuildRequest(t, Create(windowTag, srcdoc, title))
  }

  /** Leaving the title out of `create_window` sends an empty title. */
  lemma CreateWindowDefaultTitle(t: Tools, windowTag: string, srcdoc: string)
    ensures CreateWindowRequest(t, windowTag, srcdoc).body["title"] == ""
    ensures CreateWindowRequest(t, windowTag, srcdoc) == CreateWindowRequest(t, windowTag, srcdoc, "")
  {
  }

  /** The request of `close_window`. */
  function CloseWindowRequest(t: Tools, windowTag: string): (r: Request)
    ensures r.url == t.baseUrl + WindowsPath
    ensures r.body.Keys == {"action", "windowTag", "chatId"}
    ensures r.body["action"] == "close"
    ensures r.body["windowTag"] == windowTag
    ensures r.body["chatId"] == t.chatId
  {
    BuildRequest(t, Close(windowTag))
  }

  /** The request of `minimize_window`. */
  function MinimizeWindowRequest(t: Tools, windowTag: string): (r: Request)
    ensures r.url == t.baseUrl + WindowsPath
    ensures r.body.Keys == {"action", "windowTag", "chatId"}
    ensures r.body["action"] == "minimize"
    ensures r.body["windowTag"] == windowTag
    ensures r.body["chatId"] == t.chatId
  {
    BuildRequest(t, Minimize(windowTag))
  }

  /**
   The request of `replace_src_in_window`: the second argument is the new
   source and the third the old one.
   */
  function ReplaceSrcInWindowRequest(t: Tools, windowTag: string, newSrcdoc: string, oldSrcdoc: string): (r: Request)
    ensures r.url == t.baseUrl + WindowsPath
    ensures r.body.Keys == {"action", "windowTag", "oldSrc", "newSrc", "chatId"}
    ensures r.body["action"] == "replace_src"
    ensures r.body["windowTag"] == windowTag
    ensures r.body["newSrc"] == newSrcdoc && r.body["oldSrc"] == oldSrcdoc
    ensures r.body["chatId"] == t.chatId
  {
    BuildRequest(t, ReplaceSrc(windowTag, newSrcdoc, oldSrcdoc))
  }

  /** The part of the reply to a POST that a tool looks at. */
  datatype Response = Response(statusCode: int, text: string)

  /** What a tool returns to the agent. */
  datatype ToolOutcome = ToolOutcome(status: string, message: string)

  const SuccessStatus: string := "success"
  const FailureStatus: string := "failure"
  const SuccessMessage: string := "Tool executed successfully."
  const FailureLead: string := "Tool API returned status code "
  const FailureInfix: string := " with message: "

  /** The message of a failed call: the status code in decimal and the reply text. */
  function FailureMessage(code: nat, text: string): string {
    FailureLead + Decimal.NatToDecimal(code) + FailureInfix + text
  }

  /** Reads the status code and reply text back out of a failure message. */
  function ParseFailureMessage(msg: string): Option<(int, string)> {
    if |msg| < |FailureLead| || msg[..|FailureLead|] != FailureLead then None
    else
      var rest := msg[|FailureLead|..];
      var k := Decimal.DigitSpan(rest);
      if k == 0 || (k > 1 && rest[0] == '0') || |rest| - k < |FailureInfix| || rest[k..k + |FailureInfix|] != FailureInfix then None
      else Some((Decimal.DecimalValue(rest[..k]), rest[k + |FailureInfix|..]))
  }

  /** A failure message gives back exactly the code and text it was built from. */
  lemma FailureMessageRoundTrip(code: nat, text: string)
    ensures ParseFailureMessage(FailureMessage(code, text)) == Some((code, text))
  {
    var d := Decimal.NatToDecimal(code);
    var msg := FailureMessage(code, text);
    var rest := d + FailureInfix + text;
    assert msg == FailureLead + rest;
    assert msg[..|FailureLead|] == FailureLead;
    assert msg[|FailureLead|..] == rest;
    assert rest == d + (FailureInfix + text);
    Decimal.DigitSpanOfDigitsThen(d, FailureInfix + text);
    assert rest[..|d|] == d;
    assert rest[|d|..|d| + |FailureInfix|] == FailureInfix;
    assert rest[|d| + |FailureInfix|..] == text;
    Decimal.DecimalRoundTrip(code);
  }

  /**
   The reader accepts only messages of the exact form a failure writes: no
   padded code, no other text around the two fixed phrases.
   */
  lemma ParseFailureMessageExact(msg: string)
    requires ParseFailureMessage(msg).Some?
    ensures ParseFailureMessage(msg).value.0 >= 0
    ensures FailureMessage(ParseFailureMessage(msg).value.0, ParseFailureMessage(msg).value.1) == msg
  {
    var lead := msg[..|FailureLead|];
    var rest := msg[|FailureLead|..];
    var k := Decimal.DigitSpan(rest);
    var d, infix, text := rest[..k], rest[k..k + |FailureInfix|], rest[k + |FailureInfix|..];
    assert lead == FailureLead && infix == FailureInfix;
    assert ParseFailureMessage(msg).value == (Decimal.DecimalValue(d), text);
    assert Decimal.Canonical(d) by {
      assert d[0] == rest[0];
    }
    Decimal.DecimalCanonical(d);
    assert rest == d + infix + text;
    assert msg == lead + rest;
  }

  /** The success message is never mistaken for a failure message. */
  lemma SuccessMessageIsNotFailure()
    ensures ParseFailureMessage(SuccessMessage) == None
  {
    assert SuccessMessage[5] != FailureLead[5];
  }

  /**
   Classifies a reply: a status code above 299 is a failure reported with
   the code and the reply text, anything else is a success.
   */
  function ValidateResponse(resp: Response): (r: ToolOutcome)
    ensures r.status == FailureStatus <==> resp.statusCode > 299
    ensures r.status == SuccessStatus <==> resp.statusCode <= 299
    ensures r.status == SuccessStatus ==> r.message == SuccessMessage
    ensures r.status == FailureStatus ==> ParseFailureMessage(r.message) == Some((resp.statusCode, resp.text))
  {
    if resp.statusCode > 299 then
      FailureMessageRoundTrip(resp.statusCode, resp.text);
      ToolOutcome(FailureStatus, FailureMessage(resp.statusCode, resp.text))
    else
      ToolOutcome(SuccessStatus, SuccessMessage)
  }

  /**
   One tool call: post the command's request with `post` (the HTTP client)
   and classify the reply. The outcome depends on nothing but that reply.
   */
  function Invoke(t: Tools, c: WindowCommand, post: Request -> Response): (r: ToolOutcome)
    ensures r.status == FailureStatus <==> post(BuildRequest(t, c)).statusCode > 299
    ensures r.status == SuccessStatus <==> post(BuildRequest(t, c)).statusCode <= 299
    ensures r.status == SuccessStatus ==> r.message == SuccessMessage
    ensures r.status == FailureStatus ==>
      ParseFailureMessage(r.message) == Some((post(BuildRequest(t, c)).statusCode, post(BuildRequest(t, c)).text))
  {
    ValidateResponse(post(BuildRequest(t, c)))
  }

  /** The four tools, named as the agent sees them. */
  datatype WindowTool = CreateWindowTool | CloseWindowTool | MinimizeWindowTool | ReplaceSrcInWindowTool

  /** The name a tool goes by: the name of the method it wraps. */
  function ToolName(k: WindowTool): string {
    match k
    case CreateWindowTool => "create_window"
    case CloseWindowTool => "close_window"
    case MinimizeWindowTool => "minimize_window"
    case ReplaceSrcInWindowTool => "replace_src_in_window"
  }

  /** The tool that sends a given command. */
  function ToolFor(c: WindowCommand): WindowTool {
    match c
    case Create(_, _, _) => CreateWindowTool
    case Close(_) => CloseWindowTool
    case Minimize(_) => MinimizeWindowTool
    case ReplaceSrc(_, _, _) => ReplaceSrcInWindowTool
  }

  /** A tool wrapped for the agent, bound to the conversation of its tool set. */
  datatype BoundTool = BoundTool(tool: WindowTool, chatId: string)

  /** The names of the listed tools, in list order. */
  const ListedNames: seq<string> := ["create_window", "close_window", "minimize_window", "replace_src_in_window"]

  /** The action tags of the listed tools, in list order. */
  const ListedActions: seq<string> := ["create", "close", "minimize", "replace_src"]

  /**
   The tools handed to the agent: all four, each bound to this tool set's
   conversation, in the order create, close, minimize, replace.
   */
  function GetTools(t: Tools): (tools: seq<BoundTool>)
    ensures |tools| == |ListedActions| == 4
    ensures forall i :: 0 <= i < |tools| ==> tools[i].chatId == t.chatId
    ensures forall i, j :: 0 <= i < j < |tools| ==> tools[i].tool != tools[j].tool
    ensures forall k: WindowTool :: tools[ToolIndex(k)].tool == k
    ensures forall i, c :: 0 <= i < |tools| && ToolFor(c) == tools[i].tool ==> ActionTag(c) == ListedActions[i]
    ensures forall i :: 0 <= i < |tools| ==> ToolName(tools[i].tool) == ListedNames[i]
  {
    var tools := [
      BoundTool(CreateWindowTool, t.chatId),
      BoundTool(CloseWindowTool, t.chatId),
      BoundTool(MinimizeWindowTool, t.chatId),
      BoundTool(ReplaceSrcInWindowTool, t.chatId)
    ];
    tools
  }

  /** The position of a tool in the list. */
  function ToolIndex(k: WindowTool): (i: nat)
    ensures i < 4
  {
    match k
    case CreateWindowTool => 0
    case CloseWindowTool => 1
    case MinimizeWindowTool => 2
    case ReplaceSrcInWindowTool => 3
  }

  /** The listed tools have pairwise distinct names. */
  lemma ToolNamesDistinct(k: WindowTool, l: WindowTool)
    ensures ToolName(k) == ToolName(l) <==> k == l
  {
  }
}
