/**
  The LM Studio chat bridge: the message list it sends to the chat-completions endpoint,
  the server-sent-event lines of a streamed reply, and the chat history it keeps. The HTTP
  exchange is given by its outcome (status, decoded lines, JSON decoding as a parameter);
  the animation calls the chat schedules are recorded as events, their effect is
  `Adaptive.SimpleBridge`'s.
*/
module LmStudio {
  import opened Values
  import opened Text

  /** One `{"role": role, "content": content}` chat message. */
  datatype Message = Message(role: string, content: string)

  /** The limit above which the history is trimmed, and how many recent entries it keeps. */
  const MaxHistory := 20
  const KeptEntries := 18

  /**
    `conversation_history + [{"role": "user", "content": message}]`; a missing history is
    the empty list. The caller's list is a value and stays as it was.
  */
  function OutgoingMessages(history: Option<seq<Message>>, message: string): (r: seq<Message>)
    ensures history.Some? ==> |r| == |history.value| + 1 && r[..|history.value|] == history.value
    ensures history.None? ==> r == [Message("user", message)]
    ensures r[|r| - 1] == Message("user", message)
  {
    var h := if history.Some? then history.value else [];
    h + [Message("user", message)]
  }

  /** Python's `v[key]` on a decoded JSON value: only an object holding the key answers. */
  function Field(v: Value, key: string): (r: Option<Value>)
    ensures r.Some? <==> v.Obj? && key in v.fields
  {
    if v.Obj? && key in v.fields then Some(v.fields[key]) else None
  }

  /** Python's `v[0]`, where only a non-empty list yields an entry a later `[...]` can use. */
  function Head(v: Value): (r: Option<Value>)
    ensures r.Some? <==> v.Arr? && v.items != []
  {
    if v.Arr? && v.items != [] then Some(v.items[0]) else None
  }

  /**
    `send_message`: with status 200 and a decoded body, `data["choices"][0]["message"]["content"]`;
    anything else raises, here `None`.
  */
  function Reply(status: int, body: Option<Value>): (r: Option<Value>)
    ensures r.Some? ==> status == 200 && body.Some?
    ensures r.Some? ==> body.value.Obj? && "choices" in body.value.fields && Head(body.value.fields["choices"]).Some?
  {
    if status != 200 || body.None? then None
    else
      match Field(body.value, "choices")
      case None => None
      case Some(choices) =>
        (match Head(choices)
         case None => None
         case Some(first) =>
           (match Field(first, "message")
            case None => None
            case Some(message) => Field(message, "content")))
  }

  /** A well-formed completion answers with its message content. */
  lemma ReplyOfCompletion(content: Value)
    ensures Reply(200, Some(Obj(map["choices" := Arr([Obj(map["message" := Obj(map["content" := content])])])]))) == Some(content)
  {
  }

  /** `str.strip()` over ASCII whitespace. */
  function Strip(s: string): (r: string)
    ensures |r| <= |s|
    ensures r != [] ==> !IsSpace(r[0]) && !IsSpace(r[|r| - 1])
    decreases |s|
  {
    if s == [] then []
    else if IsSpace(s[0]) then Strip(s[1..])
    else if IsSpace(s[|s| - 1]) then Strip(s[..|s| - 1])
    else s
  }

  /** What one line of the event stream does to the reading loop. */
  datatype LineOutcome = Ignored | Done | Yield(token: Value) | Broken

  /**
    What a decoded chunk yields. A dictionary with a non-empty `choices` list offers
    `choices[0].get("delta", {}).get("content", "")`, yielded when truthy. Every other shape
    that Python would reject with a `TypeError`, `KeyError` or `AttributeError` breaks the
    stream; shapes for which `'choices' in data` is false are skipped.
  */
  function ChunkOutcome(data: Value): (r: LineOutcome)
    ensures r.Yield? ==> PyTruthy(r.token)
    ensures r != Done
  {
    match data
    case Obj(fields) =>
      if "choices" !in fields then Ignored
      else
        (match fields["choices"]
         case Arr(items) =>
           if items == [] then Ignored
           else if !items[0].Obj? then Broken
           else
             var delta := if "delta" in items[0].fields then items[0].fields["delta"] else Obj(map[]);
             if !delta.Obj? then Broken
             else
               var content := if "content" in delta.fields then delta.fields["content"] else Str("");
               if PyTruthy(content) then Yield(content) else Ignored
         case Str(s) => if s == "" then Ignored else Broken
         case Obj(f) => if f == map[] then Ignored else Broken
         case _ => Broken)
    case Arr(items) => if Str("choices") in items then Broken else Ignored
    case Str(s) => if Contains(s, "choices") then Broken else Ignored
    case _ => Broken
  }

  /**
    One line of the stream, after decoding: stripped; only `data: ` lines matter; `[DONE]`
    ends the stream; a payload `parse` cannot decode is skipped.
  */
  function ProcessLine(raw: string, parse: string -> Option<Value>): (r: LineOutcome)
    ensures !StartsWith(Strip(raw), "data: ") ==> r == Ignored
    ensures StartsWith(Strip(raw), "data: ") && Strip(raw)[6..] == "[DONE]" ==> r == Done
    ensures r.Yield? ==> PyTruthy(r.token)
  {
    var line := Strip(raw);
    if !StartsWith(line, "data: ") then Ignored
    else
      var payload := line[6..];
      if payload == "[DONE]" then Done
      else
        match parse(payload)
        case None => Ignored
        case Some(data) => ChunkOutcome(data)
  }

  /** The tokens a stream yields, and whether it ended by raising. */
  datatype Stream = Stream(tokens: seq<Value>, failed: bool)

  /** `send_message_streaming` over the decoded lines of a reply. */
  function StreamTokens(lines: seq<string>, parse: string -> Option<Value>): (r: Stream)
    ensures forall i :: 0 <= i < |r.tokens| ==> PyTruthy(r.tokens[i])
    ensures |r.tokens| <= |lines|
    decreases |lines|
  {
    if lines == [] then Stream([], false)
    else
      match ProcessLine(lines[0], parse)
      case Done => Stream([], false)
      case Broken => Stream([], true)
      case Ignored => StreamTokens(lines[1..], parse)
      case Yield(v) =>
        var rest := StreamTokens(lines[1..], parse);
        Stream([v] + rest.tokens, rest.failed)
  }

  /** The reply as a whole: a status other than 200 raises before any line is read. */
  function Streamed(status: int, lines: seq<string>, parse: string -> Option<Value>): (r: Stream)
    ensures status != 200 ==> r == Stream([], true)
    ensures status == 200 ==> r == StreamTokens(lines, parse)
  {
    if status != 200 then Stream([], true) else StreamTokens(lines, parse)
  }

  /** Nothing after the first `[DONE]` line is read. */
  lemma {:induction false} DoneEndsStream(before: seq<string>, done: string, after: seq<string>, parse: string -> Option<Value>)
    requires ProcessLine(done, parse) == Done
    ensures StreamTokens(before + [done] + after, parse) == StreamTokens(before + [done], parse)
    decreases |before|
  {
    if before == [] {
      assert (before + [done] + after)[0] == done;
      assert (before + [done])[0] == done;
    } else {
      assert (before + [done] + after)[1..] == before[1..] + [done] + after;
      assert (before + [done])[1..] == before[1..] + [done];
      DoneEndsStream(before[1..], done, after, parse);
    }
  }

  /** A line that is not a `data: ` line can be removed without changing the stream. */
  lemma {:induction false} OtherLinesIgnored(before: seq<string>, other: string, after: seq<string>, parse: string -> Option<Value>)
    requires !StartsWith(Strip(other), "data: ")
    ensures StreamTokens(before + [other] + after, parse) == StreamTokens(before + after, parse)
    decreases |before|
  {
    if before == [] {
      assert (before + [other] + after)[0] == other;
      assert (before + [other] + after)[1..] == after;
      assert before + after == after;
    } else {
      assert (before + [other] + after)[0] == before[0];
      assert (before + after)[0] == before[0];
      assert (before + [other] + after)[1..] == before[1..] + [other] + after;
      assert (before + after)[1..] == before[1..] + after;
      OtherLinesIgnored(before[1..], other, after, parse);
    }
  }

  /** A content line yields exactly its text, and a malformed payload is skipped. */
  lemma ContentLines(payload: string, text: string, parse: string -> Option<Value>)
    requires payload != "[DONE]" && payload != [] && !IsSpace(payload[|payload| - 1])
    ensures parse(payload).None? ==> ProcessLine("data: " + payload, parse) == Ignored
    ensures parse(payload) == Some(Obj(map["choices" := Arr([Obj(map["delta" := Obj(map["content" := Str(text)])])])])) ==>
      ProcessLine("data: " + payload, parse) == (if text == "" then Ignored else Yield(Str(text)))
  {
    var line := "data: " + payload;
    assert line[..6] == "data: ";
    assert line[6..] == payload;
    StripKeepsLine(line);
  }

  /** A line starting with a letter and ending with no whitespace is its own stripped form. */
  lemma StripKeepsLine(line: string)
    requires line != [] && !IsSpace(line[0]) && !IsSpace(line[|line| - 1])
    ensures Strip(line) == line
  {
  }

  /** The `async for` loop of `send_message_streaming`, reading line by line. */
  method ReadStream(status: int, lines: seq<string>, parse: string -> Option<Value>) returns (tokens: seq<Value>, failed: bool)
    ensures Stream(tokens, failed) == Streamed(status, lines, parse)
  {
    if status != 200 {
      return [], true;
    }
    tokens := [];
    var i := 0;
    while i < |lines|
      invariant 0 <= i <= |lines|
      invariant StreamTokens(lines, parse) == Stream(tokens + StreamTokens(lines[i..], parse).tokens, StreamTokens(lines[i..], parse).failed)
    {
      assert lines[i..][1..] == lines[i + 1..];
      var outcome := ProcessLine(lines[i], parse);
      match outcome {
        case Done =>
          return tokens, false;
        case Broken =>
          return tokens, true;
        case Ignored =>
        case Yield(v) =>
          tokens := tokens + [v];
      }
      i := i + 1;
    }
    failed := false;
  }

  /** The text of the tokens up to the first one that is not a string. */
  function TextPrefix(tokens: seq<Value>): (n: nat)
    ensures n <= |tokens|
    ensures forall i :: 0 <= i < n ==> tokens[i].Str?
    ensures n < |tokens| ==> !tokens[n].Str?
  {
    if tokens == [] || !tokens[0].Str? then 0 else 1 + TextPrefix(tokens[1..])
  }

  /** `"".join` of string tokens. */
  function Joined(tokens: seq<Value>): string {
    if tokens == [] then "" else Joined(tokens[..|tokens| - 1]) + (if tokens[|tokens| - 1].Str? then tokens[|tokens| - 1].s else "")
  }

  /** When the history grows past 20 entries it becomes the system prompt and the last 18. */
  function Trim(prompt: Message, history: seq<Message>): (r: seq<Message>)
    ensures |history| <= MaxHistory ==> r == history
    ensures |history| > MaxHistory ==> |r| == KeptEntries + 1 && r[0] == prompt && r[1..] == history[|history| - KeptEntries..]
  {
    if |history| > MaxHistory then [prompt] + history[|history| - KeptEntries..] else history
  }

  /** Trimming keeps a history that starts with the system prompt within 20 entries, prompt first. */
  lemma TrimBounds(prompt: Message, history: seq<Message>, user: Message, assistant: Message)
    requires |history| <= MaxHistory && history != [] && history[0] == prompt
    ensures var r := Trim(prompt, history + [user, assistant]);
      |r| <= MaxHistory && r != [] && r[0] == prompt
      && r[|r| - 2..] == [user, assistant]
  {
  }

  /** The animation calls a chat schedules. */
  datatype Scheduled = ResponseStart | ResponseComplete(response: string)

  /** The events a chat schedules for the streamed tokens, given whether it completed. */
  function ChatEvents(processed: string, completed: bool): (r: seq<Scheduled>)
    ensures ResponseStart in r <==> WordCount(processed) > 3
    ensures ResponseComplete(processed) in r <==> completed
    ensures forall i :: 0 <= i < |r| && r[i].ResponseComplete? ==> r[i].response == processed && i == |r| - 1
  {
    (if WordCount(processed) > 3 then [ResponseStart] else []) + (if completed then [ResponseComplete(processed)] else [])
  }

  class AnimatedChatbot {
    /** The `{"role": "system", ...}` message the history starts with. */
    const systemPrompt: Message
    var history: seq<Message>
    /** The animation tasks scheduled, in order. */
    var scheduled: seq<Scheduled>

    constructor (persona: string)
      ensures systemPrompt == Message("system", persona) && history == [] && scheduled == []
    {
      systemPrompt := Message("system", persona);
      history := [];
      scheduled := [];
    }

    /** The history starts with the system prompt and holds at most 20 entries. */
    predicate Valid()
      reads this
    {
      history != [] && history[0] == systemPrompt && |history| <= MaxHistory
    }

    /**
      `initialize`: the bridge must come up and a test message `"Hi"` after the system prompt
      must be answered; only then the history is the system prompt alone.
    */
    method Initialize(bridgeOk: bool, testStatus: int, testBody: Option<Value>) returns (ok: bool)
      modifies this`history
      ensures ok <==> bridgeOk && Reply(testStatus, testBody).Some?
      ensures ok ==> history == [systemPrompt] && Valid()
      ensures !ok ==> history == old(history)
    {
      if !bridgeOk {
        return false;
      }
      var reply := Reply(testStatus, testBody);
      if reply.None? {
        return false;
      }
      history := [systemPrompt];
      return true;
    }

    /**
      The token loop of `chat`: the text accumulates and the response start is scheduled
      when it first has more than three words; a token that is not a string raises a
      `TypeError` there.
    */
    method Accumulate(tokens: seq<Value>) returns (aiResponse: string, textOnly: bool)
      modifies this`scheduled
      ensures var n := TextPrefix(tokens);
        && (textOnly <==> n == |tokens|)
        && aiResponse == Joined(tokens[..n])
        && scheduled == old(scheduled) + (if WordCount(aiResponse) > 3 then [ResponseStart] else [])
    {
      ghost var n := TextPrefix(tokens);
      aiResponse := "";
      var started := false;
      var i := 0;
      while i < |tokens|
        invariant 0 <= i <= n
        invariant aiResponse == Joined(tokens[..i])
        invariant started <==> WordCount(aiResponse) > 3
        invariant scheduled == old(scheduled) + (if started then [ResponseStart] else [])
      {
        if !tokens[i].Str? {
          // `ai_response += token` raises a TypeError
          assert n == i;
          return aiResponse, false;
        }
        assert tokens[..i + 1][..i] == tokens[..i];
        WordCountAppend(aiResponse, tokens[i].s);
        aiResponse := aiResponse + tokens[i].s;
        if !started && WordCount(aiResponse) > 3 {
          started := true;
          scheduled := scheduled + [ResponseStart];
        }
        i := i + 1;
      }
      return aiResponse, true;
    }

    /**
      `chat` with the reply given as its status, decoded lines and JSON decoder. The
      response start is scheduled once, when the text so far first has more than three
      words; a failed stream, or a token that is not a string, ends the chat with `None`
      and leaves the history as it was.
    */
    method Chat(userMessage: string, status: int, lines: seq<string>, parse: string -> Option<Value>) returns (response: Option<string>)
      modifies this
      ensures old(Valid()) ==> Valid()
      ensures var s := Streamed(status, lines, parse);
        var n := TextPrefix(s.tokens);
        var completed := !s.failed && n == |s.tokens|;
        && (completed <==> response.Some?)
        && (completed ==> response.value == Joined(s.tokens))
        && scheduled == old(scheduled) + ChatEvents(Joined(s.tokens[..n]), completed)
        && history == if completed then Trim(systemPrompt, old(history) + [Message("user", userMessage), Message("assistant", response.value)]) else old(history)
    {
      var tokens, failed := ReadStream(status, lines, parse);
      var aiResponse, textOnly := Accumulate(tokens);
      ghost var started := if WordCount(aiResponse) > 3 then [ResponseStart] else [];
      assert ChatEvents(aiResponse, false) == started;
      if !textOnly {
        return None;
      }
      assert tokens[..|tokens|] == tokens;
      if failed {
        return None;
      }
      assert ChatEvents(aiResponse, true) == started + [ResponseComplete(aiResponse)];
      Record(userMessage, aiResponse);
      return Some(aiResponse);
    }

    /** The end of a completed `chat`: the completion is scheduled and the exchange joins the trimmed history. */
    method Record(userMessage: string, aiResponse: string)
      modifies this
      ensures old(Valid()) ==> Valid()
      ensures scheduled == old(scheduled) + [ResponseComplete(aiResponse)]
      ensures history == Trim(systemPrompt, old(history) + [Message("user", userMessage), Message("assistant", aiResponse)])
    {
      scheduled := scheduled + [ResponseComplete(aiResponse)];
      if Valid() {
        TrimBounds(systemPrompt, history, Message("user", userMessage), Message("assistant", aiResponse));
      }
      history := Trim(systemPrompt, history + [Message("user", userMessage), Message("assistant", aiResponse)]);
    }
  }
}
