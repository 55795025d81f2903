/**
 * The chat relay (`POST /api/chat`): validate the request, rebuild the
 * conversation for the model provider (instructions turn, fixed
 * acknowledgement, then the visitor's history), and forward the provider's
 * text chunks to the response as they arrive.
 */
module ChatRoute {
  import opened Wrappers
  import opened Strings
  import opened Lists

  const INVALID_BODY := "Invalid request body"
  const MESSAGE_REQUIRED := "Message is required"
  const SETUP_FAILED := "Something went wrong. Please try again."
  const INSTRUCTIONS_PREFIX := "System instructions: "
  const ACKNOWLEDGEMENT := "Understood. I'm Honest AI, ready to help visitors learn about Hone Studio."
  const TEXT_PLAIN := "text/plain; charset=utf-8"

  /** One earlier turn as the browser sends it; the role is passed on unchecked. */
  datatype Turn = Turn(role: string, text: string)

  /** One turn of the provider conversation: a role and its text parts. */
  datatype Content = Content(role: string, parts: seq<string>)

  /** What `request.json()` yields. */
  datatype ChatBody =
    | Unparsable
    | Json(message: Option<string>, history: Option<seq<Turn>>, page: Option<string>)

  /** The conversation the provider is started with, and the message then sent to it. */
  datatype ProviderCall = ProviderCall(history: seq<Content>, message: string)

  /** The outcome of the synchronous part of the handler. */
  datatype Plan = Reject(status: int, error: string) | Start(call: ProviderCall)

  /**
   * The provider's streamed reply: the chunk texts in order, and optionally the
   * position of the read that throws instead. The read at `|chunks|` is the one
   * that reports the end, so a `failsAt` past it names a read that never happens.
   */
  datatype ProviderStream = ProviderStream(chunks: seq<string>, failsAt: Option<nat>)

  /** The HTTP response: a JSON error, or a 200 plain-text stream of the enqueued pieces. */
  datatype ChatResponse =
    | JsonError(status: int, error: string)
    | TextStream(status: int, contentType: string, pieces: seq<string>)

  /** The note naming the visitor's page; nothing when `page` is absent or empty. */
  function PageContext(page: Option<string>): (c: string)
    ensures c == "" <==> page.None? || page.value == ""
    ensures c != "" ==> EndsWith(c, page.value + " page.")
  {
    if page.Some? && page.value != "" then "\nThe user is currently on the " + page.value + " page." else ""
  }

  /** The conversation handed to `startChat`. */
  function ProviderHistory(systemPrompt: string, page: Option<string>, history: seq<Turn>): (h: seq<Content>)
    ensures |h| == 2 + |history|
    ensures h[0] == Content("user", [INSTRUCTIONS_PREFIX + systemPrompt + PageContext(page)])
    ensures h[1] == Content("model", [ACKNOWLEDGEMENT])
    ensures forall i | 0 <= i < |history| :: h[i + 2] == Content(history[i].role, [history[i].text])
  {
    var opening := [Content("user", [INSTRUCTIONS_PREFIX + systemPrompt + PageContext(page)]), Content("model", [ACKNOWLEDGEMENT])];
    var turns := seq(|history|, i requires 0 <= i < |history| => Content(history[i].role, [history[i].text]));
    assert (opening + turns)[2..] == turns;
    opening + turns
  }

  /** Parse failure and blank message end the request before the provider is called. */
  function Prepare(systemPrompt: string, body: ChatBody): (p: Plan)
    ensures body.Unparsable? ==> p == Reject(400, INVALID_BODY)
    ensures body.Json? ==> (p.Reject? <==> Missing(body.message))
    ensures p.Reject? ==> p.status == 400
    ensures p.Start? ==>
      && body.Json? && body.message.Some?
      && p.call.message == body.message.value
      && p.call.history == ProviderHistory(systemPrompt, body.page, body.history.GetOr([]))
  {
    match body
    case Unparsable => Reject(400, INVALID_BODY)
    case Json(message, history, page) =>
      if Missing(message) then Reject(400, MESSAGE_REQUIRED)
      else Start(ProviderCall(ProviderHistory(systemPrompt, page, history.GetOr([])), message.value))
  }

  /** The chunks read before the failing read, if any. */
  function Delivered(s: ProviderStream): (d: seq<string>)
    ensures |d| <= |s.chunks| && d == s.chunks[..|d|]
    ensures s.failsAt.Some? && s.failsAt.value < |s.chunks| ==> |d| == s.failsAt.value
    ensures s.failsAt.None? || s.failsAt.value >= |s.chunks| ==> d == s.chunks
  {
    if s.failsAt.Some? && s.failsAt.value < |s.chunks| then s.chunks[..s.failsAt.value] else s.chunks
  }

  /** `if (text)`: a chunk is forwarded only when its text is non-empty. */
  predicate IsText(chunk: string) {
    chunk != ""
  }

  /**
   * The chunks with the empty ones dropped: a sub-list of the chunks, order
   * kept, holding every non-empty chunk as often as it occurs and no empty one.
   */
  function NonEmpty(chunks: seq<string>): (r: seq<string>)
    ensures SubsequenceOf(r, chunks)
    ensures forall i | 0 <= i < |r| :: r[i] != ""
    ensures forall c :: multiset(r)[c] == if c != "" then multiset(chunks)[c] else 0
  {
    KeepIsSubsequence(chunks, IsText);
    KeepCountsAll(chunks, IsText);
    Keep(chunks, IsText)
  }

  /** Dropping empty chunks does not change the text they make up. */
  lemma {:induction false} NonEmptyKeepsText(chunks: seq<string>)
    ensures Concat(NonEmpty(chunks)) == Concat(chunks)
  {
    if chunks != [] {
      var init, last := chunks[..|chunks| - 1], chunks[|chunks| - 1];
      NonEmptyKeepsText(init);
      ConcatAppend(NonEmpty(init), if last == "" then [] else [last]);
      assert Concat([last]) == last by { assert [last][..0] == []; }
    }
  }

  /**
   * The body of the stream's `start`: enqueue every non-empty chunk in order,
   * log a failing read, and close the controller in every case. Returns what
   * was enqueued, how many times the controller was closed, and whether an
   * error was logged.
   */
  method Forward(s: ProviderStream) returns (enqueued: seq<string>, closes: nat, logged: bool)
    ensures enqueued == NonEmpty(Delivered(s))
    ensures Concat(enqueued) == Concat(Delivered(s))
    ensures closes == 1
    ensures logged <==> s.failsAt.Some? && s.failsAt.value <= |s.chunks|
  {
    enqueued, closes := [], 0;
    var i := 0;
    while i < |s.chunks| && s.failsAt != Some(i)
      invariant i <= |s.chunks|
      invariant s.failsAt.Some? ==> i <= s.failsAt.value
      invariant enqueued == NonEmpty(s.chunks[..i])
    {
      var text := s.chunks[i];
      if text != "" {
        enqueued := enqueued + [text];
      }
      assert s.chunks[..i + 1][..i] == s.chunks[..i];
      i := i + 1;
    }
    // The loop stops at the failing read, or after the last chunk; in the
    // latter case a failure index of `|chunks|` means the read reporting the end threw.
    logged := s.failsAt.Some? && s.failsAt.value <= |s.chunks|;
    closes := closes + 1;
    assert s.chunks[..i] == Delivered(s);
    NonEmptyKeepsText(Delivered(s));
  }

  /**
   * The handler. `setupFails` stands for an exception from `startChat` or
   * `sendMessageStream`; `stream` is what the provider then streams. Returns
   * the response, the provider call made (if any) and how many times the
   * response stream was closed.
   */
  method Post(systemPrompt: string, body: ChatBody, setupFails: bool, stream: ProviderStream)
    returns (response: ChatResponse, call: Option<ProviderCall>, closes: nat)
    ensures body.Unparsable? ==> response == JsonError(400, INVALID_BODY) && call == None
    ensures body.Json? && Missing(body.message) ==> response == JsonError(400, MESSAGE_REQUIRED) && call == None
    ensures call.Some? <==> Prepare(systemPrompt, body).Start?
    ensures call.Some? ==> call.value == Prepare(systemPrompt, body).call
    ensures call.Some? && setupFails ==> response == JsonError(500, SETUP_FAILED) && closes == 0
    ensures call.Some? && !setupFails ==>
      && response == TextStream(200, TEXT_PLAIN, NonEmpty(Delivered(stream)))
      && Concat(response.pieces) == Concat(Delivered(stream))
      && closes == 1
  {
    var plan := Prepare(systemPrompt, body);
    if plan.Reject? {
      return JsonError(plan.status, plan.error), None, 0;
    }
    call := Some(plan.call);
    if setupFails {
      return JsonError(500, SETUP_FAILED), call, 0;
    }
    var enqueued, logged;
    enqueued, closes, logged := Forward(stream);
    response := TextStream(200, TEXT_PLAIN, enqueued);
  }
}
