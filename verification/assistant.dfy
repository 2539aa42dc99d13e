/** The per-session brand assistant (`PixaroBrandAssistant`): its ordered
    conversation history, one chat turn, image-prompt construction and
    history reset. The AI service is the parameter `backend`. */
module BrandAssistant {

  import opened Wrappers
  import opened Strings
  import opened Intent

  datatype Role = UserRole | AssistantRole

  /** An entry of `conversation_history`; only an assistant entry answering
      an image request carries an image link. Timestamps are not modelled. */
  datatype Message = Message(role: Role, content: string, imageUrl: Option<string>)

  function UserMessage(text: string): Message {
    Message(UserRole, text, None)
  }

  /** The `brand_dna` section of a brand context as the assistant reads it:
      the `tone` entry when present and the `values` list (empty when absent). */
  datatype DnaSection = DnaSection(tone: Option<string>, values: seq<string>)

  /** A brand context dict: `brand_dna`, `audience` and `competitors`. */
  datatype BrandContext = BrandContext(
    brandDna: DnaSection,
    audience: map<string, string>,
    competitors: map<string, string>)

  /** The context a chat session receives from a completed analysis job: the
      job record holds none of the three keys, so each section is empty. */
  const JobContext: BrandContext := BrandContext(DnaSection(None, []), map[], map[])

  /** The assistant of one session. `brandContext` is `None` when the dict is
      empty (falsy), as after `brand_context or {}` with no context given. */
  datatype AssistantState = AssistantState(
    brandHandle: string,
    brandContext: Option<BrandContext>,
    history: seq<Message>)

  function NewAssistant(brandHandle: string, brandContext: Option<BrandContext>): (a: AssistantState)
    ensures a.history == []
  {
    AssistantState(brandHandle, brandContext, [])
  }

  /** `clear_conversation`: the history restarts empty; the brand and its
      context stay. */
  function ClearConversation(a: AssistantState): (r: AssistantState)
    ensures r.history == []
    ensures r.brandHandle == a.brandHandle && r.brandContext == a.brandContext
  {
    a.(history := [])
  }

  /** The system prompt sent with every completion: built from the brand
      handle, with a brand-context block exactly when a context is present.
      Its wording is not modelled. */
  datatype SystemPrompt = SystemPrompt(brandHandle: string, context: Option<BrandContext>)

  function PromptFor(a: AssistantState): SystemPrompt {
    SystemPrompt(a.brandHandle, a.brandContext)
  }

  /** The AI service: image generation from a prompt and a size, and chat
      completion from the system prompt and the (role, content) transcript.
      Either may raise. */
  datatype Backend = Backend(
    image: (string, string) -> Result<string, string>,
    complete: (SystemPrompt, seq<(Role, string)>) -> Result<string, string>)

  /** The history as sent to the completion call: role and content only. */
  function Transcript(history: seq<Message>): (t: seq<(Role, string)>)
    ensures |t| == |history|
  {
    seq(|history|, i requires 0 <= i < |history| => (history[i].role, history[i].content))
  }

  const ImageSize: string := "1024x1024"
  const ImageSuffix: string := ". High quality, professional social media post design."

  /** The style clause added to an image prompt when a context is present:
      the brand tone ("professional" when absent) and up to two values. */
  function StyleClause(context: Option<BrandContext>): string {
    match context
    case None => ""
    case Some(c) =>
      var values := Prefix(c.brandDna.values, 2);
      " The style should be " + c.brandDna.tone.GetOr("professional")
        + (if |c.brandDna.values| > 0 then " and reflect values of " + Join(values, ", ") else "")
  }

  /** The enhanced prompt of `generate_image`: the user's prompt, a period,
      the style clause, and a fixed quality suffix. */
  function EnhancedPrompt(prompt: string, context: Option<BrandContext>): (r: string)
    ensures StartsWith(r, prompt + ".")
    ensures EndsWith(r, ImageSuffix)
    ensures context.None? ==> r == prompt + "." + ImageSuffix
  {
    var r := prompt + "." + StyleClause(context) + ImageSuffix;
    assert r[..|prompt| + 1] == prompt + ".";
    assert r[|r| - |ImageSuffix|..] == ImageSuffix;
    r
  }

  /** In a session seeded from a completed job the style clause always falls
      back to the default tone, since that context's sections are empty. */
  lemma JobContextPrompt(prompt: string)
    ensures EnhancedPrompt(prompt, Some(JobContext))
         == prompt + ". The style should be professional" + ImageSuffix
  {
    assert StyleClause(Some(JobContext)) == " The style should be professional";
    assert prompt + "." + " The style should be professional" == prompt + ". The style should be professional";
  }

  /** The dict `generate_image` returns. */
  datatype ImageResult =
    | ImageCreated(url: string, prompt: string, enhancedPrompt: string)
    | ImageFailed(error: string, prompt: string)

  function GenerateImageFor(a: AssistantState, prompt: string, size: string, backend: Backend): (r: ImageResult)
    ensures r.prompt == prompt
    ensures r.ImageCreated? <==> backend.image(EnhancedPrompt(prompt, a.brandContext), size).Ok?
    ensures r.ImageCreated? ==>
      r.url == backend.image(EnhancedPrompt(prompt, a.brandContext), size).value
      && r.enhancedPrompt == EnhancedPrompt(prompt, a.brandContext)
    ensures r.ImageFailed? ==> r.error == backend.image(EnhancedPrompt(prompt, a.brandContext), size).error
  {
    var enhanced := EnhancedPrompt(prompt, a.brandContext);
    match backend.image(enhanced, size)
    case Ok(url) => ImageCreated(url, prompt, enhanced)
    case Err(e) => ImageFailed(e, prompt)
  }

  /** The `action_type` of a reply: a detected category, or "error" when the
      completion call raised. */
  datatype ReplyAction = Detected(kind: ActionType) | ChatError

  function ActionLabel(a: ReplyAction): string {
    match a
    case Detected(k) => Label(k)
    case ChatError => "error"
  }

  datatype ChatReply = ChatReply(
    response: string,
    action: ReplyAction,
    needsReport: bool,
    imageUrl: Option<string>)

  datatype Turn = Turn(state: AssistantState, reply: ChatReply)

  function ImageReplyText(prompt: string): string {
    "I've generated an image for you! Here's what I created:\n\n" + prompt
      + "\n\nWould you like me to create another variation or adjust anything?"
  }

  function ErrorReplyText(error: string, brandHandle: string): string {
    "I encountered an error: " + error
      + ". Let me try to help you anyway. What would you like to know about " + brandHandle + "?"
  }

  /** The completion call a turn makes: the system prompt and the history
      with the new user message. */
  function Completion(a: AssistantState, message: string, backend: Backend): Result<string, string> {
    backend.complete(PromptFor(a), Transcript(a.history + [UserMessage(message)]))
  }

  /** The image call an image request makes, with the default size. */
  function ImageOutcome(a: AssistantState, message: string, backend: Backend): Result<string, string> {
    backend.image(EnhancedPrompt(message, a.brandContext), ImageSize)
  }

  /** The rest of a turn once the message's category and, for an image
      request, the image outcome are known. */
  function Respond(a: AssistantState, message: string, action: ActionType, image: Option<ImageResult>, backend: Backend): (t: Turn)
    ensures t.state.brandHandle == a.brandHandle && t.state.brandContext == a.brandContext
    ensures |t.state.history| == |a.history| + (if t.reply.action.ChatError? then 1 else 2)
    ensures t.state.history[..|a.history| + 1] == a.history + [UserMessage(message)]
    ensures t.reply.imageUrl.Some? <==> image.Some? && image.value.ImageCreated?
    ensures t.reply.imageUrl.Some? ==>
      t.reply.response == ImageReplyText(image.value.prompt) && t.reply.imageUrl == Some(image.value.url)
    ensures t.reply.action.Detected? && t.reply.imageUrl.None? ==>
      Completion(a, message, backend) == Ok(t.reply.response)
    ensures t.reply.action.ChatError? <==>
      t.reply.imageUrl.None? && Completion(a, message, backend).Err?
    ensures t.reply.action.ChatError? ==>
      && t.reply.response == ErrorReplyText(Completion(a, message, backend).error, a.brandHandle)
      && !t.reply.needsReport
    ensures t.reply.action.Detected? ==>
      && t.reply.action.kind == action
      && t.state.history[|a.history| + 1] == Message(AssistantRole, t.reply.response, t.reply.imageUrl)
    ensures t.reply.imageUrl.Some? ==> !t.reply.needsReport
    ensures t.reply.action.Detected? && t.reply.imageUrl.None? ==> t.reply.needsReport == NeedsReport(message)
  {
    var history := a.history + [UserMessage(message)];
    if image.Some? && image.value.ImageCreated? then
      var text := ImageReplyText(image.value.prompt);
      var url := image.value.url;
      Turn(a.(history := history + [Message(AssistantRole, text, Some(url))]),
           ChatReply(text, Detected(action), false, Some(url)))
    else
      match Completion(a, message, backend)
      case Ok(text) =>
        Turn(a.(history := history + [Message(AssistantRole, text, None)]),
             ChatReply(text, Detected(action), NeedsReport(message), None))
      case Err(e) =>
        Turn(a.(history := history), ChatReply(ErrorReplyText(e, a.brandHandle), ChatError, false, None))
  }

  /** `chat`. The user message is appended first. An image request that
      succeeds is answered at once with its link. Otherwise (a failed image
      included) the completion call answers from the whole history; its reply
      is appended. When that call raises, the apology reply is returned and
      the history keeps only the user message. */
  function Chat(a: AssistantState, message: string, backend: Backend): (t: Turn)
    ensures t.state.brandHandle == a.brandHandle && t.state.brandContext == a.brandContext
    ensures |t.state.history| == |a.history| + (if t.reply.action.ChatError? then 1 else 2)
    ensures t.state.history[..|a.history| + 1] == a.history + [UserMessage(message)]
    ensures t.reply.imageUrl.Some? <==>
      DetectActionType(message) == GenerateImage && ImageOutcome(a, message, backend).Ok?
    ensures t.reply.imageUrl.Some? ==>
      && t.reply.response == ImageReplyText(message)
      && ImageOutcome(a, message, backend) == Ok(t.reply.imageUrl.value)
    ensures t.reply.action.Detected? && t.reply.imageUrl.None? ==>
      Completion(a, message, backend) == Ok(t.reply.response)
    ensures t.reply.action.ChatError? <==>
      t.reply.imageUrl.None? && Completion(a, message, backend).Err?
    ensures t.reply.action.ChatError? ==>
      && t.reply.response == ErrorReplyText(Completion(a, message, backend).error, a.brandHandle)
      && !t.reply.needsReport
    ensures t.reply.action.Detected? ==>
      && t.reply.action.kind == DetectActionType(message)
      && t.state.history[|a.history| + 1] == Message(AssistantRole, t.reply.response, t.reply.imageUrl)
    ensures t.reply.imageUrl.Some? ==> t.reply.action == Detected(GenerateImage) && !t.reply.needsReport
    ensures t.reply.action.Detected? && t.reply.imageUrl.None? ==> t.reply.needsReport == NeedsReport(message)
  {
    var action := DetectActionType(message);
    var image := if action == GenerateImage then Some(GenerateImageFor(a, message, ImageSize, backend)) else None;
    Respond(a, message, action, image, backend)
  }

  /** After `clear_conversation` the next turn starts the history afresh:
      the message alone, or the message and its reply. */
  lemma ClearThenChat(a: AssistantState, message: string, backend: Backend)
    ensures var t := Chat(ClearConversation(a), message, backend);
      && t.state.history[0] == UserMessage(message)
      && (t.reply.action.ChatError? ==> t.state.history == [UserMessage(message)])
      && (t.reply.action.Detected? ==>
            t.state.history == [UserMessage(message), Message(AssistantRole, t.reply.response, t.reply.imageUrl)])
  {
    var t := Chat(ClearConversation(a), message, backend);
    assert t.state.history[..1] == [UserMessage(message)];
    if t.reply.action.Detected? {
      assert t.state.history == t.state.history[..1] + [t.state.history[1]];
    }
  }

  /** The `action_type` of a reply is one of the eight labels or "error",
      and "error" exactly when the turn failed. */
  lemma ReplyLabel(a: AssistantState, message: string, backend: Backend)
    ensures var t := Chat(a, message, backend);
      && ActionLabel(t.reply.action) in Labels + {"error"}
      && (ActionLabel(t.reply.action) == "error" <==> t.reply.action.ChatError?)
      && |t.state.history| == |a.history| + (if ActionLabel(t.reply.action) == "error" then 1 else 2)
  {
    var t := Chat(a, message, backend);
    match t.reply.action {
      case Detected(k) => LabelsAreDistinct(k, k);
      case ChatError =>
    }
  }

  /** A run of turns: `step` applied to each message in turn, threading the
      assistant state through. */
  function Turns(a: AssistantState, messages: seq<string>, step: (AssistantState, string) -> Turn): (r: (AssistantState, seq<ChatReply>))
    ensures |r.1| == |messages|
    decreases |messages|
  {
    if |messages| == 0 then (a, [])
    else
      var t := step(a, messages[0]);
      var rest := Turns(t.state, messages[1..], step);
      (rest.0, [t.reply] + rest.1)
  }

  /** A conversation: `chat` called on each message in turn. */
  function Converse(a: AssistantState, messages: seq<string>, backend: Backend): (r: (AssistantState, seq<ChatReply>))
    ensures |r.1| == |messages|
  {
    Turns(a, messages, (s, m) => Chat(s, m, backend))
  }

  /** The history entries a run of successful turns adds: each message
      followed by the assistant entry of its reply. */
  function Pairs(messages: seq<string>, replies: seq<ChatReply>): (h: seq<Message>)
    requires |messages| == |replies|
    ensures |h| == 2 * |messages|
    decreases |messages|
  {
    if |messages| == 0 then []
    else
      [UserMessage(messages[0]), Message(AssistantRole, replies[0].response, replies[0].imageUrl)]
        + Pairs(messages[1..], replies[1..])
  }

  /** A turn that did not fail adds exactly the message and its reply. */
  lemma ChatAppendsPair(a: AssistantState, message: string, backend: Backend)
    requires Chat(a, message, backend).reply.action.Detected?
    ensures var t := Chat(a, message, backend);
      t.state.history == a.history + [UserMessage(message), Message(AssistantRole, t.reply.response, t.reply.imageUrl)]
  {
    var t := Chat(a, message, backend);
    var h := t.state.history;
    assert h == h[..|a.history| + 1] + [h[|a.history| + 1]];
  }

  /** A step that, unless it fails, appends the message and its reply. */
  ghost predicate AppendsPairs(step: (AssistantState, string) -> Turn) {
    forall s, m :: step(s, m).reply.action.Detected? ==>
      step(s, m).state.history == s.history + [UserMessage(m), Message(AssistantRole, step(s, m).reply.response, step(s, m).reply.imageUrl)]
  }

  /** No reply of the run is the "error" reply. */
  predicate AllSucceeded(replies: seq<ChatReply>) {
    forall k :: 0 <= k < |replies| ==> replies[k].action.Detected?
  }

  lemma {:induction false} TurnsAppendPairs(a: AssistantState, messages: seq<string>, step: (AssistantState, string) -> Turn)
    requires AppendsPairs(step)
    requires AllSucceeded(Turns(a, messages, step).1)
    ensures Turns(a, messages, step).0.history == a.history + Pairs(messages, Turns(a, messages, step).1)
    decreases |messages|
  {
    if |messages| > 0 {
      var t := step(a, messages[0]);
      var rest := Turns(t.state, messages[1..], step);
      var replies := [t.reply] + rest.1;
      assert replies[0] == t.reply && replies[1..] == rest.1;
      assert forall k :: 0 <= k < |rest.1| ==> rest.1[k] == replies[k + 1];
      TurnsAppendPairs(t.state, messages[1..], step);
      var pair := [UserMessage(messages[0]), Message(AssistantRole, t.reply.response, t.reply.imageUrl)];
      assert t.state.history == a.history + pair;
      assert Pairs(messages, replies) == pair + Pairs(messages[1..], rest.1);
      assert (a.history + pair) + Pairs(messages[1..], rest.1) == a.history + (pair + Pairs(messages[1..], rest.1));
    }
  }

  /** After n chat turns none of which failed, the history is the earlier
      history followed by each message and its reply, in call order. */
  lemma SuccessfulTurnsAppendPairs(a: AssistantState, messages: seq<string>, backend: Backend)
    requires AllSucceeded(Converse(a, messages, backend).1)
    ensures Converse(a, messages, backend).0.history == a.history + Pairs(messages, Converse(a, messages, backend).1)
  {
    var step := (s, m) => Chat(s, m, backend);
    forall s, m | step(s, m).reply.action.Detected?
      ensures step(s, m).state.history == s.history + [UserMessage(m), Message(AssistantRole, step(s, m).reply.response, step(s, m).reply.imageUrl)]
    {
      ChatAppendsPair(s, m, backend);
    }
    TurnsAppendPairs(a, messages, step);
  }
}
