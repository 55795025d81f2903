/**
 * The chat widget's conversation state: the list of messages shown, the text
 * box and the `streaming` flag, and `sendMessage`, which appends the
 * visitor's message and a placeholder answer, then grows the placeholder as
 * the reply streams in.
 */
module ChatWidget {
  import opened Wrappers
  import opened Strings
  import ChatRoute

  datatype Role = User | Model

  datatype Message = Message(role: Role, text: string)

  /** What the placeholder becomes when the request fails. */
  const FALLBACK := "Sorry, something went wrong. Try again or [get in touch directly](/contact)."

  /** The JSON body `sendMessage` posts. */
  datatype ChatRequest = ChatRequest(message: string, history: seq<Message>, page: string)

  /**
   * How the request went: it failed outright (`fetch` threw, the status was
   * not ok, or there was no body), or the body was read chunk by chunk, the
   * read at `failsAt` (if any) throwing. The read at `|chunks|` is the one that
   * reports the end, so a `failsAt` past it names a read that never happens.
   */
  datatype ChatReply = RequestFailed | Streamed(chunks: seq<string>, failsAt: Option<nat>)

  /** The list alternates visitor and model entries, starting with the visitor. */
  ghost predicate WellPaired(messages: seq<Message>) {
    && |messages| % 2 == 0
    && forall i | 0 <= i < |messages| :: messages[i].role == (if i % 2 == 0 then User else Model)
  }

  function RoleName(r: Role): string {
    match r
    case User => "user"
    case Model => "model"
  }

  /** `pathname.replace("/", "")`: the first '/' removed, wherever it is. */
  function RemoveFirstSlash(pathname: string): (r: string)
    ensures var i := IndexFrom(pathname, 0, '/');
      i < |pathname| ==> |r| == |pathname| - 1 && r[..i] == pathname[..i] && r[i..] == pathname[i + 1..]
    ensures '/' !in pathname ==> r == pathname
  {
    var i := IndexFrom(pathname, 0, '/');
    if i == |pathname| then pathname else pathname[..i] + pathname[i + 1..]
  }

  /** `pathname.replace("/", "") || "home"`. */
  function PageSlug(pathname: string): (slug: string)
    ensures slug != ""
    ensures RemoveFirstSlash(pathname) != "" ==> slug == RemoveFirstSlash(pathname)
    ensures RemoveFirstSlash(pathname) == "" ==> slug == "home"
  {
    var rest := RemoveFirstSlash(pathname);
    if rest == "" then "home" else rest
  }

  /** The body as the relay receives it (`JSON.stringify`, roles as strings). */
  function BodyOf(req: ChatRequest): (body: ChatRoute.ChatBody)
    ensures body.Json? && body.message == Some(req.message) && body.page == Some(req.page)
    ensures body.history.Some? && |body.history.value| == |req.history|
    ensures forall i | 0 <= i < |req.history| ::
      body.history.value[i] == ChatRoute.Turn(RoleName(req.history[i].role), req.history[i].text)
  {
    ChatRoute.Json(
      Some(req.message),
      Some(seq(|req.history|, i requires 0 <= i < |req.history| =>
        ChatRoute.Turn(RoleName(req.history[i].role), req.history[i].text))),
      Some(req.page))
  }

  /** What the placeholder holds once `sendMessage` has finished. */
  function FinalText(reply: ChatReply): (text: string)
    ensures reply.RequestFailed? ==> text == FALLBACK
    ensures reply.Streamed? && reply.failsAt.Some? && reply.failsAt.value <= |reply.chunks| ==> text == FALLBACK
    ensures reply.Streamed? && (reply.failsAt.None? || reply.failsAt.value > |reply.chunks|) ==>
      text == Concat(reply.chunks)
  {
    match reply
    case RequestFailed => FALLBACK
    case Streamed(chunks, failsAt) =>
      if failsAt.Some? && failsAt.value <= |chunks| then FALLBACK else Concat(chunks)
  }

  /**
   * For a browser path (one that starts with '/'), the slug is the path
   * without its leading '/', and "home" exactly for the root path.
   */
  lemma PageSlugOfPath(pathname: string)
    requires StartsWith(pathname, "/")
    ensures PageSlug(pathname) == if pathname == "/" then "home" else pathname[1..]
    ensures PageSlug(pathname) == "home" <==> pathname == "/" || pathname == "/home"
  {
    assert pathname[0] == '/';
    assert IndexFrom(pathname, 0, '/') == 0;
    assert pathname[..0] == [];
    var rest := RemoveFirstSlash(pathname);
    assert rest == pathname[1..];
    assert pathname == "/" + rest;
  }

  /** The slug of the pages the site serves. */
  lemma PageSlugExamples()
    ensures PageSlug("/") == "home"
    ensures PageSlug("/work") == "work"
    ensures PageSlug("/work/showcase-ventures") == "work/showcase-ventures"
  {
    PageSlugOfPath("/");
    PageSlugOfPath("/work");
    PageSlugOfPath("/work/showcase-ventures");
    assert "/work"[1..] == "work";
    assert "/work/showcase-ventures"[1..] == "work/showcase-ventures";
  }

  /**
   * Every request the widget makes passes the relay's checks, and the relay
   * opens the conversation with the page note naming the widget's slug, which
   * is never empty.
   */
  lemma WidgetRequestsAreRelayed(systemPrompt: string, text: string, pathname: string, history: seq<Message>)
    requires !IsBlank(text)
    ensures var req := ChatRequest(Trim(text), history, PageSlug(pathname));
      var plan := ChatRoute.Prepare(systemPrompt, BodyOf(req));
      && plan.Start?
      && plan.call.message == Trim(text)
      && |plan.call.history| == 2 + |history|
      && plan.call.history[0] == ChatRoute.Content("user",
           [ChatRoute.INSTRUCTIONS_PREFIX + systemPrompt + ChatRoute.PageContext(Some(PageSlug(pathname)))])
      && ChatRoute.PageContext(Some(PageSlug(pathname))) != ""
      && plan.call.history[1] == ChatRoute.Content("model", [ChatRoute.ACKNOWLEDGEMENT])
      && forall i | 0 <= i < |history| ::
           plan.call.history[i + 2] == ChatRoute.Content(RoleName(history[i].role), [history[i].text])
  {
    TrimIdempotent(text);
  }

  /**
   * When the relay ends normally the visitor sees everything the provider sent;
   * when the provider fails mid-stream the visitor sees the text so far, with
   * no sign of the failure (the relay closes the stream normally).
   */
  lemma RelayedReplyIsShownWhole(s: ChatRoute.ProviderStream)
    ensures FinalText(Streamed(ChatRoute.NonEmpty(ChatRoute.Delivered(s)), None)) == Concat(ChatRoute.Delivered(s))
  {
    ChatRoute.NonEmptyKeepsText(ChatRoute.Delivered(s));
  }

  class Widget {
    var messages: seq<Message>
    var input: string
    var streaming: bool

    ghost predicate Valid()
      reads this
    {
      WellPaired(messages)
    }

    constructor ()
      ensures Valid()
      ensures messages == [] && input == "" && !streaming
    {
      messages, input, streaming := [], "", false;
    }

    /** The text box's change handler. */
    method SetInput(value: string)
      modifies this
      ensures input == value && messages == old(messages) && streaming == old(streaming)
    {
      input := value;
    }

    /**
     * `sendMessage(text)` on page `pathname`; `reply` stands for the network.
     * Returns the request posted (if any) and the successive texts of the
     * placeholder while the reply streamed in.
     */
    method SendMessage(text: string, pathname: string, reply: ChatReply)
      returns (request: Option<ChatRequest>, progress: seq<string>)
      requires Valid()
      modifies this
      ensures Valid()
      ensures IsBlank(text) || old(streaming) ==>
        && request == None && progress == []
        && messages == old(messages) && input == old(input) && streaming == old(streaming)
      ensures !(IsBlank(text) || old(streaming)) ==>
        request == Some(ChatRequest(Trim(text), old(messages), PageSlug(pathname)))
      ensures !(IsBlank(text) || old(streaming)) ==> input == "" && !streaming
      ensures !(IsBlank(text) || old(streaming)) ==>
        messages == old(messages) + [Message(User, Trim(text)), Message(Model, FinalText(reply))]
      ensures reply.RequestFailed? ==> progress == []
      ensures reply.Streamed? && !(IsBlank(text) || old(streaming)) ==>
        && |progress| == (if reply.failsAt.Some? && reply.failsAt.value < |reply.chunks|
                          then reply.failsAt.value else |reply.chunks|)
        && forall j | 0 <= j < |progress| :: progress[j] == Concat(reply.chunks[..j + 1])
    {
      request, progress := None, [];
      if IsBlank(text) || streaming {
        return;
      }
      var history := messages;
      var userMsg := Message(User, Trim(text));
      messages := messages + [userMsg];
      input := "";
      streaming := true;
      messages := messages + [Message(Model, "")];
      request := Some(ChatRequest(Trim(text), history, PageSlug(pathname)));

      match reply {
        case RequestFailed =>
          ReplaceLast(history, userMsg, FALLBACK);
        case Streamed(chunks, failsAt) =>
          progress := ReadReply(history, userMsg, chunks, failsAt);
      }
      streaming := false;
      PairAppended(history, userMsg.text, FinalText(reply));
    }

    /**
     * The read loop of `sendMessage`: each chunk read grows the placeholder to
     * the text so far; a throwing read replaces it with the fallback. Returns
     * the placeholder's successive texts while reading.
     */
    method ReadReply(history: seq<Message>, userMsg: Message, chunks: seq<string>, failsAt: Option<nat>)
      returns (progress: seq<string>)
      requires messages == history + [userMsg, Message(Model, "")]
      modifies this
      ensures messages == history + [userMsg, Message(Model, FinalText(Streamed(chunks, failsAt)))]
      ensures input == old(input) && streaming == old(streaming)
      ensures |progress| == if failsAt.Some? && failsAt.value < |chunks| then failsAt.value else |chunks|
      ensures forall j | 0 <= j < |progress| :: progress[j] == Concat(chunks[..j + 1])
    {
      progress := [];
      var accumulated := "";
      var i := 0;
      while i < |chunks| && failsAt != Some(i)
        invariant i <= |chunks|
        invariant failsAt.Some? ==> i <= failsAt.value
        invariant accumulated == Concat(chunks[..i])
        invariant |progress| == i
        invariant forall j | 0 <= j < i :: progress[j] == Concat(chunks[..j + 1])
        invariant messages == history + [userMsg, Message(Model, accumulated)]
        invariant input == old(input) && streaming == old(streaming)
      {
        assert chunks[..i + 1][..i] == chunks[..i];
        accumulated := accumulated + chunks[i];
        ReplaceLast(history, userMsg, accumulated);
        progress := progress + [accumulated];
        i := i + 1;
      }
      if failsAt.Some? && failsAt.value <= |chunks| {
        // a read threw: the partial answer is replaced
        ReplaceLast(history, userMsg, FALLBACK);
      } else {
        assert chunks[..i] == chunks;
      }
    }

    /** `updated[updated.length - 1] = { role: "model", text }`. */
    method ReplaceLast(history: seq<Message>, userMsg: Message, text: string)
      requires |messages| == |history| + 2 && messages[..|history| + 1] == history + [userMsg]
      modifies this
      ensures messages == history + [userMsg, Message(Model, text)]
      ensures input == old(input) && streaming == old(streaming)
    {
      messages := messages[..|messages| - 1] + [Message(Model, text)];
    }
  }

  /** Appending a visitor entry and a model entry keeps the list in pairs. */
  lemma PairAppended(messages: seq<Message>, userText: string, modelText: string)
    requires WellPaired(messages)
    ensures WellPaired(messages + [Message(User, userText), Message(Model, modelText)])
  {
  }
}
