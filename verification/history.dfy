/**
 The agent-side conversation transcript: the `Message` record the worker
 receives for every stored event, the rendering of each event kind as one
 newline-terminated entry (its content may itself hold newlines),
 the fold that turns an ordered history into the text placed in the agent
 prompt, and the prompt text itself.
 */
module History {
  import opened Wrappers

  /**
   Open key-value metadata attached to an event, as pairs in the order the
   keys were inserted; that order is what a printed dictionary shows.
   */
  type Metadata = seq<(string, string)>

  /** One stored event as the worker sees it: its kind tag, its text and its metadata. */
  datatype Message = Message(eventType: string, content: string, metadata: Metadata)

  /** Renders metadata as text inside a tool-call entry; the model leaves its format open. */
  type MetadataRenderer = Metadata -> string

  const UserInputTag: string := "user_input"
  const ModelResponseTag: string := "model_response"
  const ToolCallTag: string := "tool_call"
  const ToolResultTag: string := "tool_result"

  /** The four kind tags the transcript shows. */
  const RecognisedTags: set<string> := {UserInputTag, ModelResponseTag, ToolCallTag, ToolResultTag}

  /** The kind of an event, read off its tag; any other tag is kept as it is. */
  datatype EventKind = UserInput | ModelResponse | ToolCall | ToolResult | Unrecognised(tag: string)

  function TagOf(k: EventKind): string {
    match k
    case UserInput => UserInputTag
    case ModelResponse => ModelResponseTag
    case ToolCall => ToolCallTag
    case ToolResult => ToolResultTag
    case Unrecognised(t) => t
  }

  /** Classifies a tag by exact comparison with the four recognised tags. */
  function KindOf(tag: string): (k: EventKind)
    ensures TagOf(k) == tag
    ensures k.Unrecognised? <==> tag !in RecognisedTags
  {
    if tag == UserInputTag then UserInput
    else if tag == ModelResponseTag then ModelResponse
    else if tag == ToolCallTag then ToolCall
    else if tag == ToolResultTag then ToolResult
    else Unrecognised(tag)
  }

  /** The text an entry of the given recognised kind starts with. */
  function LinePrefix(k: EventKind): string
    requires !k.Unrecognised?
  {
    match k
    case UserInput => "User: "
    case ModelResponse => "Morph: "
    case ToolCall => "Tool call: "
    case ToolResult => "Tool result: "
  }

  predicate StartsWith(s: string, p: string) {
    |p| <= |s| && s[..|p|] == p
  }

  /** The text one event contributes to the transcript. */
  function RenderEvent(e: Message, showMeta: MetadataRenderer): (r: string)
    ensures r == [] <==> e.eventType !in RecognisedTags
    ensures e.eventType == UserInputTag ==> r == "User: " + e.content + "\n"
    ensures e.eventType == ModelResponseTag ==> r == "Morph: " + e.content + "\n"
    ensures e.eventType == ToolCallTag ==> r == "Tool call: " + e.content + "(" + showMeta(e.metadata) + ")\n"
    ensures e.eventType == ToolResultTag ==> r == "Tool result: " + e.content + "\n"
  {
    match KindOf(e.eventType)
    case UserInput => LinePrefix(UserInput) + e.content + "\n"
    case ModelResponse => LinePrefix(ModelResponse) + e.content + "\n"
    case ToolCall => LinePrefix(ToolCall) + e.content + "(" + showMeta(e.metadata) + ")\n"
    case ToolResult => LinePrefix(ToolResult) + e.content + "\n"
    case Unrecognised(_) => ""
  }

  /** Only a tool-call entry depends on the metadata or on how it is rendered. */
  lemma RenderIgnoresMetadata(e: Message, m: Metadata, showMeta: MetadataRenderer, showMeta': MetadataRenderer)
    requires e.eventType != ToolCallTag
    ensures RenderEvent(e.(metadata := m), showMeta') == RenderEvent(e, showMeta)
  {
  }

  /**
   Reads the entry of a single event back: the kind named by its prefix and
   the text between that prefix and the closing newline.
   */
  function ParseLine(line: string): Option<(EventKind, string)> {
    if line == [] || line[|line| - 1] != '\n' then None
    else if StartsWith(line, LinePrefix(UserInput)) && |LinePrefix(UserInput)| < |line| then
      Some((UserInput, line[|LinePrefix(UserInput)|..|line| - 1]))
    else if StartsWith(line, LinePrefix(ModelResponse)) && |LinePrefix(ModelResponse)| < |line| then
      Some((ModelResponse, line[|LinePrefix(ModelResponse)|..|line| - 1]))
    else if StartsWith(line, LinePrefix(ToolCall)) && |LinePrefix(ToolCall)| < |line| then
      Some((ToolCall, line[|LinePrefix(ToolCall)|..|line| - 1]))
    else if StartsWith(line, LinePrefix(ToolResult)) && |LinePrefix(ToolResult)| < |line| then
      Some((ToolResult, line[|LinePrefix(ToolResult)|..|line| - 1]))
    else None
  }

  /**
   A single event's entry, read on its own, names the event's kind
   unambiguously, and for every kind but a tool call it gives back the
   event's content exactly.
   */
  lemma RenderParseRoundTrip(e: Message, showMeta: MetadataRenderer)
    requires e.eventType in RecognisedTags
    ensures ParseLine(RenderEvent(e, showMeta)).Some?
    ensures ParseLine(RenderEvent(e, showMeta)).value.0 == KindOf(e.eventType)
    ensures e.eventType != ToolCallTag ==> ParseLine(RenderEvent(e, showMeta)).value.1 == e.content
  {
    var k := KindOf(e.eventType);
    var p := LinePrefix(k);
    var r := RenderEvent(e, showMeta);
    var rest := if k == ToolCall then e.content + "(" + showMeta(e.metadata) + ")\n" else e.content + "\n";
    assert r == p + rest;
    assert r[..|p|] == p;
    assert r[|p|..|r| - 1] == rest[..|rest| - 1];
    if k.ToolCall? || k.ToolResult? {
      assert r[0] == 'T';
      assert !StartsWith(r, LinePrefix(UserInput));
      assert !StartsWith(r, LinePrefix(ModelResponse));
    }
    if k.ToolResult? {
      assert r[5] == 'r';
      assert !StartsWith(r, LinePrefix(ToolCall));
    }
    if k.ModelResponse? {
      assert r[0] == 'M';
      assert !StartsWith(r, LinePrefix(UserInput));
    }
  }

  /** The texts `line` gives the elements of `xs`, joined left to right. */
  function ConcatMap<T>(xs: seq<T>, line: T -> string): (r: string)
    ensures xs == [] ==> r == []
    decreases |xs|
  {
    if xs == [] then [] else ConcatMap(xs[..|xs| - 1], line) + line(xs[|xs| - 1])
  }

  lemma {:induction false} ConcatMapAppend<T>(a: seq<T>, b: seq<T>, line: T -> string)
    ensures ConcatMap(a + b, line) == ConcatMap(a, line) + ConcatMap(b, line)
    decreases |b|
  {
    if b == [] {
      assert a + b == a;
    } else {
      var ab := a + b;
      assert ab[..|ab| - 1] == a + b[..|b| - 1];
      ConcatMapAppend(a, b[..|b| - 1], line);
    }
  }

  lemma ConcatMapSingleton<T>(x: T, line: T -> string)
    ensures ConcatMap([x], line) == line(x)
  {
    assert [x][..0] == [];
  }

  /**
   The transcript of a history: the renderings of its events, in history
   order, accumulated left to right.
   */
  function FormatHistory(h: seq<Message>, showMeta: MetadataRenderer): (r: string)
    ensures h == [] ==> r == []
  {
    ConcatMap(h, e => RenderEvent(e, showMeta))
  }

  /** Formatting distributes over concatenation of histories. */
  lemma FormatHistoryAppend(a: seq<Message>, b: seq<Message>, showMeta: MetadataRenderer)
    ensures FormatHistory(a + b, showMeta) == FormatHistory(a, showMeta) + FormatHistory(b, showMeta)
  {
    ConcatMapAppend(a, b, e => RenderEvent(e, showMeta));
  }

  /** A history of one event formats as that event's entry. */
  lemma FormatHistorySingleton(e: Message, showMeta: MetadataRenderer)
    ensures FormatHistory([e], showMeta) == RenderEvent(e, showMeta)
  {
    ConcatMapSingleton(e, e => RenderEvent(e, showMeta));
  }

  /**
   The loop of the source: start from the empty text and append each event's
   entry in turn.
   */
  method FormatHistoryForAgent(h: seq<Message>, showMeta: MetadataRenderer) returns (formatted: string)
    ensures formatted == FormatHistory(h, showMeta)
  {
    formatted := "";
    var i := 0;
    while i < |h|
      invariant 0 <= i <= |h|
      invariant formatted == FormatHistory(h[..i], showMeta)
    {
      assert h[..i + 1] == h[..i] + [h[i]];
      FormatHistoryAppend(h[..i], [h[i]], showMeta);
      FormatHistorySingleton(h[i], showMeta);
      formatted := formatted + RenderEvent(h[i], showMeta);
      i := i + 1;
    }
    assert h[..i] == h;
  }

  /**
   Order is kept: the transcript of `h` is the transcript of the events before
   `h[i]`, then the entry of `h[i]`, then the transcript of the events after it.
   */
  lemma FormatHistoryAt(h: seq<Message>, i: int, showMeta: MetadataRenderer)
    requires 0 <= i < |h|
    ensures FormatHistory(h, showMeta)
         == FormatHistory(h[..i], showMeta) + RenderEvent(h[i], showMeta) + FormatHistory(h[i + 1..], showMeta)
  {
    assert h == h[..i] + [h[i]] + h[i + 1..];
    FormatHistoryAppend(h[..i] + [h[i]], h[i + 1..], showMeta);
    FormatHistoryAppend(h[..i], [h[i]], showMeta);
    FormatHistorySingleton(h[i], showMeta);
  }

  /** The elements of `xs` that satisfy `keep`, in their original order. */
  function Filter<T(!new)>(xs: seq<T>, keep: T -> bool): (r: seq<T>)
    ensures |r| <= |xs|
    ensures forall i :: 0 <= i < |r| ==> keep(r[i])
    ensures (forall i :: 0 <= i < |xs| ==> keep(xs[i])) ==> r == xs
    decreases |xs|
  {
    if xs == [] then []
    else if keep(xs[|xs| - 1]) then Filter(xs[..|xs| - 1], keep) + [xs[|xs| - 1]]
    else Filter(xs[..|xs| - 1], keep)
  }

  /** Filtering a concatenation filters each part and keeps the parts in order. */
  lemma {:induction false} FilterAppend<T(!new)>(a: seq<T>, b: seq<T>, keep: T -> bool)
    ensures Filter(a + b, keep) == Filter(a, keep) + Filter(b, keep)
    decreases |b|
  {
    if b == [] {
      assert a + b == a;
    } else {
      var ab := a + b;
      assert ab[..|ab| - 1] == a + b[..|b| - 1];
      FilterAppend(a, b[..|b| - 1], keep);
    }
  }

  /** An element is kept exactly when it occurs in the input and satisfies `keep`. */
  lemma {:induction false} FilterMembers<T(!new)>(xs: seq<T>, keep: T -> bool)
    ensures forall x :: x in Filter(xs, keep) <==> x in xs && keep(x)
    decreases |xs|
  {
    if xs != [] {
      var xs' := xs[..|xs| - 1];
      FilterMembers(xs', keep);
      assert xs == xs' + [xs[|xs| - 1]];
    }
  }

  predicate IsRecognised(e: Message) {
    e.eventType in RecognisedTags
  }

  /** The events whose kind the transcript shows, in their original order. */
  function Recognised(h: seq<Message>): (r: seq<Message>)
    ensures |r| <= |h|
    ensures forall e :: e in r <==> e in h && e.eventType in RecognisedTags
    ensures (forall i :: 0 <= i < |h| ==> h[i].eventType in RecognisedTags) ==> r == h
  {
    FilterMembers(h, IsRecognised);
    Filter(h, IsRecognised)
  }

  /** Filtering a concatenation of histories keeps each part's recognised events, in order. */
  lemma RecognisedAppend(a: seq<Message>, b: seq<Message>)
    ensures Recognised(a + b) == Recognised(a) + Recognised(b)
  {
    FilterAppend(a, b, IsRecognised);
  }

  /** Events of an unrecognised kind contribute nothing to the transcript. */
  lemma {:induction false} FormatHistoryDropsUnrecognised(h: seq<Message>, showMeta: MetadataRenderer)
    ensures FormatHistory(h, showMeta) == FormatHistory(Recognised(h), showMeta)
    decreases |h|
  {
    if h != [] {
      var h' := h[..|h| - 1];
      var e := h[|h| - 1];
      assert h == h' + [e];
      FormatHistoryDropsUnrecognised(h', showMeta);
      FormatHistoryAppend(h', [e], showMeta);
      FormatHistorySingleton(e, showMeta);
      if e.eventType in RecognisedTags {
        FormatHistoryAppend(Recognised(h'), [e], showMeta);
      }
    }
  }

  /** The transcript is empty exactly when no event has a recognised kind. */
  lemma {:induction false} FormatHistoryEmptyIff(h: seq<Message>, showMeta: MetadataRenderer)
    ensures FormatHistory(h, showMeta) == [] <==> forall i :: 0 <= i < |h| ==> h[i].eventType !in RecognisedTags
    decreases |h|
  {
    if h != [] {
      var h' := h[..|h| - 1];
      assert h == h' + [h[|h| - 1]];
      FormatHistoryEmptyIff(h', showMeta);
      FormatHistoryAppend(h', [h[|h| - 1]], showMeta);
      FormatHistorySingleton(h[|h| - 1], showMeta);
      assert forall i :: 0 <= i < |h'| ==> h'[i] == h[i];
    }
  }

  /** The indentation the prompt text carries on each of its lines. */
  const Indent: string := "                    "
  /** Text before the transcript in the prompt. */
  const Lead: string := "\n" + Indent
  /** Text between the transcript and the new user line. */
  const Mid: string := "\n" + Indent + "User: "
  /** Text after the new message. */
  const Trail: string := "\n" + Indent

  /**
   The prompt handed to the agent: the transcript of the history, then a
   user line holding the new message.
   */
  function Prompt(h: seq<Message>, message: string, showMeta: MetadataRenderer): (p: string)
    ensures |p| == |Lead| + |FormatHistory(h, showMeta)| + |Mid| + |message| + |Trail|
    ensures p[..|Lead|] == Lead && p[|p| - |Trail|..] == Trail
    ensures p[|Lead|..|Lead| + |FormatHistory(h, showMeta)|] == FormatHistory(h, showMeta)
    ensures p[|p| - |Trail| - |message|..|p| - |Trail|] == message
    ensures p[|Lead| + |FormatHistory(h, showMeta)|..|p| - |Trail| - |message|] == Mid
  {
    var f := FormatHistory(h, showMeta);
    var p := Lead + f + Mid + message + Trail;
    assert p[..|Lead|] == Lead && p[|p| - |Trail|..] == Trail;
    assert p[|Lead|..|Lead| + |f|] == f;
    assert p[|p| - |Trail| - |message|..|p| - |Trail|] == message;
    assert p[|Lead| + |f|..|p| - |Trail| - |message|] == Mid;
    p
  }

  /**
   A later prompt of the same conversation repeats the earlier transcript
   unchanged at the same place: appending events to the history only adds
   text after it.
   */
  lemma PromptExtendsEarlierTranscript(a: seq<Message>, b: seq<Message>, m: string, showMeta: MetadataRenderer)
    ensures StartsWith(Prompt(a + b, m, showMeta), Lead + FormatHistory(a, showMeta))
  {
    FormatHistoryAppend(a, b, showMeta);
    var p := Prompt(a + b, m, showMeta);
    var fa := FormatHistory(a, showMeta);
    assert p == Lead + fa + FormatHistory(b, showMeta) + Mid + m + Trail;
    assert p[..|Lead| + |fa|] == Lead + fa;
  }

  /**
   When the history already ends with the new message as a user event, the
   prompt shows that message twice in a row: as the last transcript entry
   and, right after it, on the user line.
   */
  lemma PromptRepeatsTrailingUserMessage(h: seq<Message>, m: string, meta: Metadata, showMeta: MetadataRenderer)
    requires |h| > 0 && h[|h| - 1] == Message(UserInputTag, m, meta)
    ensures var f := FormatHistory(h, showMeta);
      var p := Prompt(h, m, showMeta);
      var repeated := "User: " + m + "\n" + Mid + m;
      |Lead| + |f| + |Mid| + |m| >= |repeated|
      && p[|Lead| + |f| + |Mid| + |m| - |repeated|..|Lead| + |f| + |Mid| + |m|] == repeated
  {
    var h' := h[..|h| - 1];
    var line := "User: " + m + "\n";
    assert h == h' + [h[|h| - 1]];
    FormatHistoryAppend(h', [h[|h| - 1]], showMeta);
    FormatHistorySingleton(h[|h| - 1], showMeta);
    var f, f' := FormatHistory(h, showMeta), FormatHistory(h', showMeta);
    assert f == f' + line;
    var p := Prompt(h, m, showMeta);
    var i, j := |Lead|, |Lead| + |f|;
    assert p[i + |f'|..j] == line by {
      assert p[i..j] == f;
      assert p[i + |f'|..j] == p[i..j][|f'|..];
    }
    SliceJoin(p, i + |f'|, j, j + |Mid|, line, Mid);
    SliceJoin(p, i + |f'|, j + |Mid|, j + |Mid| + |m|, line + Mid, m);
  }

  /** Two adjacent slices of `s` join into the slice that spans both. */
  lemma SliceJoin<T>(s: seq<T>, i: int, j: int, k: int, a: seq<T>, b: seq<T>)
    requires 0 <= i <= j <= k <= |s|
    requires s[i..j] == a && s[j..k] == b
    ensures s[i..k] == a + b
  {
    assert s[i..k] == s[i..j] + s[j..k];
  }

  /**
   A transcript cannot always be split back into events: content may hold
   newlines, so a one-event history can format exactly like a two-event one.
   */
  lemma TranscriptNotUniquelyReadable(showMeta: MetadataRenderer)
    ensures var two := [Message(UserInputTag, "hi", []), Message(ModelResponseTag, "ok", [])];
      var one := [Message(UserInputTag, "hi\nMorph: ok", [])];
      two != one && FormatHistory(two, showMeta) == FormatHistory(one, showMeta)
  {
    var a := Message(UserInputTag, "hi", []);
    var b := Message(ModelResponseTag, "ok", []);
    var c := Message(UserInputTag, "hi\nMorph: ok", []);
    assert [a, b] == [a] + [b];
    FormatHistoryAppend([a], [b], showMeta);
    FormatHistorySingleton(a, showMeta);
    FormatHistorySingleton(b, showMeta);
    FormatHistorySingleton(c, showMeta);
    assert "User: hi\n" + "Morph: ok\n" == "User: " + "hi\nMorph: ok" + "\n";
  }
}
