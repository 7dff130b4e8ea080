/**
 * The two message handlers of the bot: `/start`, and the handler for every
 * other message with its per-user admission guard (`processing_users`), its
 * history bookkeeping, and its fallback and error replies.
 *
 * External calls are inputs: the outcome of the HTTP exchange with Rasa,
 * the completion the OpenAI endpoint returns for a non-empty message list,
 * and which logging or sending step, if any, raises.
 */
module Handlers {
  import opened Wrappers
  import opened Context
  import opened Prompts
  import opened RasaClient

  /**
   * The fixed texts the handlers send: the `/start` greeting, the notice for
   * a user who is still being served, the apology that replaces an empty
   * answer, and the generic error.
   */
  datatype Texts = Texts(welcome: string, wait: string, fallback: string, error: string)

  /** The texts as the handler module writes them. */
  const BotTexts: Texts := Texts(
    "Здравствуйте! Я ваш AI-ассистент для цветочного магазина. " + "Чем могу помочь?",
    "Пожалуйста, подождите, я обрабатываю ваш предыдущий запрос.",
    "Извините, у меня возникла проблема. Попробуйте еще раз.",
    "Произошла непредвиденная ошибка. Мы уже работаем над этим.")

  predicate NonEmptyTexts(t: Texts)
  {
    t.welcome != "" && t.wait != "" && t.fallback != "" && t.error != ""
  }

  /** A message sent back into the user's chat by `message.answer`. */
  datatype Reply = Reply(chatId: int, text: string)

  /** The step of a turn that raises, if any: the user log, the reply send, or the reply log. */
  datatype Fault = NoFault | LogUserFails | SendFails | LogReplyFails

  /** How the handler calls `build_prompt`: as the handler is written, or as evidently intended. */
  datatype CallSite = AsWritten | Corrected

  /** `get_openai_response`: an empty message list gives None without a request; otherwise the endpoint's answer. */
  function OpenAIResponse(messages: seq<Message>, completion: Option<string>): (r: Option<string>)
    ensures messages == [] ==> r == None
    ensures messages != [] ==> r == completion
  {
    if messages == [] then None else completion
  }

  /** `if not assistant_response`: a missing or empty answer is replaced by the apology `fallback`. */
  function ReplyText(response: Option<string>, fallback: string): (t: string)
    ensures fallback != "" ==> t != ""
    ensures response.Some? && response.value != "" ==> t == response.value
    ensures response.None? || response.value == "" ==> t == fallback
  {
    if response.Some? && response.value != "" then response.value else fallback
  }

  /** Python's `h[:-1]`: everything but the newest turn. */
  function WithoutLast(h: seq<Message>): (r: seq<Message>)
    ensures |h| > 0 ==> h == r + [h[|h| - 1]]
    ensures |h| == 0 ==> r == []
  {
    if |h| > 0 then h[..|h| - 1] else []
  }

  /**
   * The Python call `build_prompt(history, user_text, *extra)`: the
   * function takes exactly two positional parameters, so any extra
   * argument raises `TypeError` (None here).
   */
  function CallBuildPrompt(history: seq<Message>, userText: string, extra: seq<Option<RasaData>>): (r: Option<seq<Message>>)
    ensures r.Some? <==> extra == []
    ensures r.Some? ==> r.value == BuildPrompt(history, userText)
  {
    if extra == [] then Some(BuildPrompt(history, userText)) else None
  }

  /**
   * The history argument `build_prompt` accepts at the call site, read from
   * the stored history just after the user turn was added. As written the
   * call raises `TypeError` whatever `rasa_data` is, so None.
   */
  function PromptHistoryAt(site: CallSite, history: seq<Message>): Option<seq<Message>>
  {
    match site
    case AsWritten => None
    case Corrected => Some(WithoutLast(history))
  }

  /**
   * What one call of the message handler does: the user's new stored
   * history (None: the dictionary is untouched), the replies sent in order,
   * and the history a prompt was built from when the endpoint was asked.
   */
  datatype TurnEffect = TurnEffect(stored: Option<seq<Message>>, replies: seq<Reply>, promptFrom: Option<seq<Message>>)

  /** The message list handed to the OpenAI endpoint during a turn with effect `e`, if any. */
  function GeneratorInput(e: TurnEffect, text: string): Option<seq<Message>>
  {
    if e.promptFrom.Some? then Some(BuildPrompt(e.promptFrom.value, text)) else None
  }

  /** The history dictionary after a turn with effect `e` for `userId`. */
  function StoredIn(history: map<int, seq<Message>>, userId: int, e: TurnEffect): map<int, seq<Message>>
  {
    if e.stored.Some? then history[userId := e.stored.value] else history
  }

  /**
   * The end of a turn once the prompt was built from `promptFrom` and the
   * endpoint answered `reply`: send, log, store the `'assistant'` turn, each
   * of which may be cut short by `fault`.
   */
  function Answered(texts: Texts, userId: int, withUser: seq<Message>, cap: nat, promptFrom: seq<Message>,
                    reply: string, fault: Fault): TurnEffect
  {
    if fault == SendFails then
      TurnEffect(Some(withUser), [Reply(userId, texts.error)], Some(promptFrom))
    else if fault == LogReplyFails then
      TurnEffect(Some(withUser), [Reply(userId, reply), Reply(userId, texts.error)], Some(promptFrom))
    else
      TurnEffect(Some(Appended(withUser, Message("assistant", reply), cap)), [Reply(userId, reply)], Some(promptFrom))
  }

  /**
   * The `try` body after the user turn was stored, giving `withUser`. A
   * built prompt is never empty, so the endpoint's answer is `completion`.
   */
  function Served(site: CallSite, texts: Texts, userId: int, withUser: seq<Message>, cap: nat,
                  completion: Option<string>, fault: Fault): TurnEffect
  {
    match PromptHistoryAt(site, withUser)
    case None => TurnEffect(Some(withUser), [Reply(userId, texts.error)], None)
    case Some(promptFrom) =>
      Answered(texts, userId, withUser, cap, promptFrom, ReplyText(completion, texts.fallback), fault)
  }

  /**
   * The effect of one call for `userId`, whose stored history is `prior`
   * (with capacity `cap`), who is already being served when `busy`.
   */
  function Turn(site: CallSite, texts: Texts, userId: int, busy: bool, prior: seq<Message>, cap: int, text: string,
                completion: Option<string>, fault: Fault): TurnEffect
  {
    if busy then TurnEffect(None, [Reply(userId, texts.wait)], None)
    else if fault == LogUserFails || cap < 0 then TurnEffect(None, [Reply(userId, texts.error)], None)
    else Served(site, texts, userId, Appended(prior, Message("user", text), cap as nat), cap as nat, completion, fault)
  }

  /** A turn that stores a history for `userId` overwrites whatever an earlier step stored there. */
  lemma StoredOverwrites(history: map<int, seq<Message>>, userId: int, earlier: seq<Message>, e: TurnEffect)
    requires e.stored.Some?
    ensures StoredIn(history[userId := earlier], userId, e) == StoredIn(history, userId, e)
  {
  }

  /** An admitted user whose turn was logged and stored goes on to the rest of the `try` body. */
  lemma TurnAdmitted(site: CallSite, texts: Texts, userId: int, prior: seq<Message>, cap: int, text: string,
                     completion: Option<string>, fault: Fault)
    requires fault != LogUserFails && cap >= 0
    ensures Turn(site, texts, userId, false, prior, cap, text, completion, fault)
         == Served(site, texts, userId, Appended(prior, Message("user", text), cap as nat), cap as nat, completion, fault)
  {
  }

  /** A busy user gets the wait notice and nothing else happens. */
  lemma BusyOnlyWaits(site: CallSite, texts: Texts, userId: int, prior: seq<Message>, cap: int, text: string,
                      completion: Option<string>, fault: Fault)
    ensures Turn(site, texts, userId, true, prior, cap, text, completion, fault)
         == TurnEffect(None, [Reply(userId, texts.wait)], None)
  {
  }

  /**
   * As written, every admitted message ends in the generic error: the call
   * into `build_prompt` raises, the endpoint is never asked, and the net
   * history effect is at most the user's own turn.
   */
  lemma AsWrittenAlwaysFails(texts: Texts, userId: int, prior: seq<Message>, cap: int, text: string,
                             completion: Option<string>, fault: Fault)
    ensures var e := Turn(AsWritten, texts, userId, false, prior, cap, text, completion, fault);
      && e.replies == [Reply(userId, texts.error)]
      && GeneratorInput(e, text) == None
      && (e.stored.Some? <==> fault != LogUserFails && cap >= 0)
      && (e.stored.Some? ==> e.stored.value == Appended(prior, Message("user", text), cap as nat))
  {
  }

  /** The handler module's texts are all non-empty. */
  lemma BotTextsNonEmpty()
    ensures NonEmptyTexts(BotTexts)
  {
  }

  /**
   * Every reply goes to the user's own chat and is non-empty (an empty
   * answer is never forwarded), given non-empty fixed texts.
   */
  lemma RepliesNonEmpty(site: CallSite, texts: Texts, userId: int, busy: bool, prior: seq<Message>, cap: int, text: string,
                        completion: Option<string>, fault: Fault)
    requires NonEmptyTexts(texts)
    ensures var e := Turn(site, texts, userId, busy, prior, cap, text, completion, fault);
      forall r :: r in e.replies ==> r.chatId == userId && r.text != ""
  {
  }

  /**
   * Whenever the endpoint is asked, the user's turn is already stored: the
   * corrected prompt is the system message followed by exactly the stored
   * history, whose newest turn is the current text.
   */
  lemma {:induction false} GeneratorSeesStoredUserTurn(texts: Texts, userId: int, prior: seq<Message>, cap: int, text: string,
                                                       completion: Option<string>, fault: Fault)
    requires |prior| <= cap
    ensures var e := Turn(Corrected, texts, userId, false, prior, cap, text, completion, fault);
      GeneratorInput(e, text).Some? ==>
        && e.stored.Some?
        && var withUser := Appended(prior, Message("user", text), cap as nat);
        && (cap > 0 ==> GeneratorInput(e, text).value == [SystemMessage] + withUser)
        && (cap > 0 ==> withUser[|withUser| - 1] == Message("user", text))
  {
    if fault != LogUserFails && cap >= 0 {
      FixedPromptHoldsStoredHistory(prior, text, cap as nat);
    }
  }

  /**
   * On the success path the reply sent is the endpoint's answer (or the
   * apology when it is missing or empty), and exactly that text is stored as
   * the newest `'assistant'` turn, right after the user's turn.
   */
  lemma {:induction false} SuccessStoresAssistantTurn(texts: Texts, userId: int, prior: seq<Message>, cap: int, text: string,
                                                      completion: Option<string>)
    requires 0 < cap && |prior| <= cap
    ensures var e := Turn(Corrected, texts, userId, false, prior, cap, text, completion, NoFault);
      && |e.replies| == 1
      && e.replies[0].text == ReplyText(completion, texts.fallback)
      && e.stored.Some? && |e.stored.value| > 0
      && e.stored.value[|e.stored.value| - 1] == Message("assistant", e.replies[0].text)
      && (cap > 1 ==> |e.stored.value| > 1 && e.stored.value[|e.stored.value| - 2] == Message("user", text))
  {
    AppendedTwice(prior, Message("user", text), Message("assistant", ReplyText(completion, texts.fallback)), cap as nat);
  }

  /**
   * On every path that raises, the generic error text is the last reply and
   * no `'assistant'` turn is stored: the history holds at most the user's turn.
   */
  lemma FaultStoresNoAssistantTurn(site: CallSite, texts: Texts, userId: int, prior: seq<Message>, cap: int, text: string,
                                   completion: Option<string>, fault: Fault)
    requires fault != NoFault || site == AsWritten
    ensures var e := Turn(site, texts, userId, false, prior, cap, text, completion, fault);
      && |e.replies| > 0
      && e.replies[|e.replies| - 1] == Reply(userId, texts.error)
      && (e.stored.Some? ==> cap >= 0 && e.stored.value == Appended(prior, Message("user", text), cap as nat))
  {
  }

  /**
   * Corrected, with nothing raising: the prompt is built from the stored
   * history without its newest turn, and the answer (or the apology) is sent
   * once and stored as the newest `'assistant'` turn.
   */
  lemma CorrectedFaultFree(texts: Texts, userId: int, prior: seq<Message>, cap: int, text: string,
                           completion: Option<string>)
    requires cap >= 0
    ensures var withUser := Appended(prior, Message("user", text), cap as nat);
      var reply := ReplyText(completion, texts.fallback);
      Turn(Corrected, texts, userId, false, prior, cap, text, completion, NoFault)
        == TurnEffect(Some(Appended(withUser, Message("assistant", reply), cap as nat)), [Reply(userId, reply)],
                      Some(WithoutLast(withUser)))
  {
  }

  /**
   * As the handler is written (if the call went through), the prompt holds
   * the current text twice: once as the newest stored turn and once appended
   * by `build_prompt`.
   */
  lemma PromptRepeatsCurrentTurn(prior: seq<Message>, text: string, cap: nat)
    requires 0 < cap && |prior| <= cap
    ensures var p := BuildPrompt(Appended(prior, Message("user", text), cap), text);
      |p| >= 3 && p[|p| - 2] == p[|p| - 1] == Message("user", text)
  {
  }

  /** A first message "hi" from a new user: the prompt as written is [system, "hi", "hi"]. */
  lemma PromptRepeatsExample()
    ensures BuildPrompt(Appended([], Message("user", "hi"), DefaultMaxHistorySize as nat), "hi")
         == [SystemMessage, Message("user", "hi"), Message("user", "hi")]
  {
  }

  /**
   * Corrected: building from everything but the newest stored turn gives
   * the system message followed by the stored history, in which the current
   * text appears once, as the newest turn.
   */
  lemma FixedPromptHoldsStoredHistory(prior: seq<Message>, text: string, cap: nat)
    requires |prior| <= cap
    ensures cap > 0 ==>
      var withUser := Appended(prior, Message("user", text), cap);
      BuildPrompt(WithoutLast(withUser), text) == [SystemMessage] + withUser
  {
    if cap > 0 {
      var withUser := Appended(prior, Message("user", text), cap);
      assert withUser == WithoutLast(withUser) + [Message("user", text)];
    }
  }

  /**
   * The module-level state of the bot: the busy set, the shared history,
   * the fixed texts, and the replies sent so far.
   */
  class Bot {
    var processingUsers: set<int>
    var sent: seq<Reply>
    const ctx: ContextManager
    const texts: Texts

    ghost predicate Valid()
      reads ctx
    {
      ctx.Valid()
    }

    /** Module import: an empty busy set and a context manager of the default capacity. */
    constructor ()
      ensures Valid() && fresh(ctx)
      ensures processingUsers == {} && sent == [] && texts == BotTexts
      ensures ctx.history == map[] && ctx.maxHistorySize == DefaultMaxHistorySize
    {
      processingUsers := {};
      sent := [];
      texts := BotTexts;
      ctx := new ContextManager(DefaultMaxHistorySize);
    }

    /** `message.answer`: the reply is sent into the user's chat. */
    method Send(r: Reply)
      modifies this`sent
      ensures old(Valid()) ==> Valid()
      ensures sent == old(sent) + [r]
    {
      sent := sent + [r];
    }

    /**
     * `/start`: logs, sends the welcome text, logs it. A raising log step
     * ends the handler there; neither the busy set nor the history is touched.
     */
    method HandleStart(userId: int, fault: Fault) returns (raised: bool)
      modifies this`sent
      ensures raised <==> fault != NoFault
      ensures sent == old(sent) + (if fault == LogUserFails || fault == SendFails then [] else [Reply(userId, texts.welcome)])
    {
      if fault == LogUserFails {
        return true;
      }
      if fault == SendFails {
        return true;
      }
      Send(Reply(userId, texts.welcome));
      raised := fault == LogReplyFails;
    }

    /**
     * The `try` body and the `except` reply for an admitted user: log and
     * store the user turn, then go on to classification and generation.
     * Returns the history the prompt was built from, if the endpoint was asked.
     */
    method Serve(site: CallSite, userId: int, text: string, rasaReply: RasaReply,
                 completion: Option<string>, fault: Fault) returns (promptFrom: Option<seq<Message>>)
      requires Valid()
      modifies this`sent, ctx
      ensures Valid() && ctx.maxHistorySize == old(ctx.maxHistorySize)
      ensures var e := Turn(site, texts, userId, false, HistoryIn(old(ctx.history), userId), old(ctx.maxHistorySize),
                            text, completion, fault);
        && sent == old(sent) + e.replies
        && ctx.history == StoredIn(old(ctx.history), userId, e)
        && promptFrom == e.promptFrom
    {
      ghost var prior, cap := HistoryIn(ctx.history, userId), ctx.maxHistorySize;
      ghost var e := Turn(site, texts, userId, false, prior, cap, text, completion, fault);
      var stored := StoreUserTurn(userId, text, fault);
      if !stored {
        assert e == TurnEffect(None, [Reply(userId, texts.error)], None);
        Send(Reply(userId, texts.error));
        return None;
      }
      ghost var withUser := ctx.history;
      promptFrom := Generate(site, userId, text, rasaReply, completion, fault);
      TurnAdmitted(site, texts, userId, prior, cap, text, completion, fault);
      assert e == Served(site, texts, userId, withUser[userId], cap as nat, completion, fault);
      StoredOverwrites(old(ctx.history), userId, withUser[userId], e);
    }

    /**
     * The first two steps of the `try` body: log the user's text, then store
     * it as a `'user'` turn; either may raise, and then nothing is stored.
     */
    method StoreUserTurn(userId: int, text: string, fault: Fault) returns (stored: bool)
      requires Valid()
      modifies ctx
      ensures Valid() && ctx.maxHistorySize == old(ctx.maxHistorySize)
      ensures stored <==> fault != LogUserFails && ctx.maxHistorySize >= 0
      ensures stored ==> ctx.history == old(ctx.history)[userId := Appended(HistoryIn(old(ctx.history), userId),
                                                                             Message("user", text), ctx.maxHistorySize as nat)]
      ensures !stored ==> ctx.history == old(ctx.history)
    {
      if fault == LogUserFails {
        return false;
      }
      var raised := ctx.AddMessage(userId, "user", text);
      stored := !raised;
    }

    /**
     * The `try` body after the user turn is stored: classify, read the
     * history, build the prompt and respond; the raising prompt call ends in
     * the generic error.
     */
    method Generate(site: CallSite, userId: int, text: string, rasaReply: RasaReply,
                    completion: Option<string>, fault: Fault) returns (promptFrom: Option<seq<Message>>)
      requires Valid() && ctx.maxHistorySize >= 0 && userId in ctx.history
      modifies this`sent, ctx
      ensures Valid() && ctx.maxHistorySize == old(ctx.maxHistorySize)
      ensures var e := Served(site, texts, userId, old(ctx.history[userId]), old(ctx.maxHistorySize) as nat, completion, fault);
        && sent == old(sent) + e.replies
        && ctx.history == StoredIn(old(ctx.history), userId, e)
        && promptFrom == e.promptFrom
    {
      var rasaData := GetRasaIntent(rasaReply);
      var history := ctx.GetHistory(userId);
      ghost var e := Served(site, texts, userId, history, ctx.maxHistorySize as nat, completion, fault);
      var promptMessages := match site
        case AsWritten => CallBuildPrompt(history, text, [rasaData])
        case Corrected => CallBuildPrompt(WithoutLast(history), text, []);
      if promptMessages.None? {
        // TypeError: build_prompt() takes 2 positional arguments but 3 were given
        assert e == TurnEffect(Some(history), [Reply(userId, texts.error)], None);
        assert StoredIn(ctx.history, userId, e) == ctx.history;
        Send(Reply(userId, texts.error));
        return None;
      }
      assert e == Answered(texts, userId, history, ctx.maxHistorySize as nat, WithoutLast(history),
                           ReplyText(completion, texts.fallback), fault);
      promptFrom := Some(WithoutLast(history));
      Respond(userId, text, WithoutLast(history), promptMessages.value, completion, fault);
    }

    /**
     * The end of the `try` body once `prompt` is built from `promptFrom`: ask
     * the endpoint, substitute the apology for an empty answer, send, log,
     * and store the `'assistant'` turn; a raising step sends the generic
     * error instead.
     */
    method Respond(userId: int, text: string, ghost promptFrom: seq<Message>, prompt: seq<Message>,
                   completion: Option<string>, fault: Fault)
      requires Valid() && ctx.maxHistorySize >= 0 && userId in ctx.history
      requires prompt == BuildPrompt(promptFrom, text)
      modifies this`sent, ctx
      ensures Valid() && ctx.maxHistorySize == old(ctx.maxHistorySize)
      ensures var e := Answered(texts, userId, old(ctx.history[userId]), old(ctx.maxHistorySize) as nat, promptFrom,
                                ReplyText(completion, texts.fallback), fault);
        && sent == old(sent) + e.replies
        && ctx.history == StoredIn(old(ctx.history), userId, e)
    {
      var assistantResponse := ReplyText(OpenAIResponse(prompt, completion), texts.fallback);
      if fault == SendFails {
        Send(Reply(userId, texts.error));
        return;
      }
      Send(Reply(userId, assistantResponse));
      if fault == LogReplyFails {
        Send(Reply(userId, texts.error));
        return;
      }
      var _ := ctx.AddMessage(userId, "assistant", assistantResponse);
    }

    /**
     * One call of the message handler at the given call site: the guard,
     * then the `try`/`except` body, then the `finally` release. The busy set
     * comes back as it was on every path.
     */
    method Handle(site: CallSite, userId: int, text: string, rasaReply: RasaReply,
                  completion: Option<string>, fault: Fault) returns (promptFrom: Option<seq<Message>>)
      requires Valid()
      modifies this, ctx
      ensures Valid() && ctx.maxHistorySize == old(ctx.maxHistorySize)
      ensures processingUsers == old(processingUsers)
      ensures var e := Turn(site, texts, userId, userId in old(processingUsers), HistoryIn(old(ctx.history), userId),
                            old(ctx.maxHistorySize), text, completion, fault);
        && sent == old(sent) + e.replies
        && ctx.history == StoredIn(old(ctx.history), userId, e)
        && promptFrom == e.promptFrom
    {
      if userId in processingUsers {
        Send(Reply(userId, texts.wait));
        return None;
      }
      processingUsers := processingUsers + {userId};
      promptFrom := Serve(site, userId, text, rasaReply, completion, fault);
      processingUsers := processingUsers - {userId};
    }

    /**
     * The handler as written: a busy user gets the wait notice; an admitted
     * user gets exactly the generic error, no prompt reaches the endpoint, and
     * the only history change is the user's own turn (none if the user log
     * raises).
     */
    method HandleTextMessage(userId: int, text: string, rasaReply: RasaReply,
                             completion: Option<string>, fault: Fault) returns (promptFrom: Option<seq<Message>>)
      requires Valid()
      modifies this, ctx
      ensures Valid() && ctx.maxHistorySize == old(ctx.maxHistorySize)
      ensures processingUsers == old(processingUsers)
      ensures promptFrom == None
      ensures userId in old(processingUsers) ==>
        sent == old(sent) + [Reply(userId, texts.wait)] && ctx.history == old(ctx.history)
      ensures userId !in old(processingUsers) ==> sent == old(sent) + [Reply(userId, texts.error)]
      ensures userId !in old(processingUsers) ==>
        ctx.history == if fault == LogUserFails || old(ctx.maxHistorySize) < 0 then old(ctx.history)
                       else old(ctx.history)[userId := Appended(HistoryIn(old(ctx.history), userId), Message("user", text),
                                                                old(ctx.maxHistorySize) as nat)]
    {
      promptFrom := Handle(AsWritten, userId, text, rasaReply, completion, fault);
    }

    /**
     * The handler with `build_prompt(history[:-1], user_text)`: on success the
     * prompt is built from the stored history without its newest turn (so
     * the endpoint sees the current text once), and the reply (never empty)
     * is sent and stored as an `'assistant'` turn.
     */
    method HandleTextMessageFixed(userId: int, text: string, rasaReply: RasaReply,
                                  completion: Option<string>, fault: Fault) returns (promptFrom: Option<seq<Message>>)
      requires Valid()
      modifies this, ctx
      ensures Valid() && ctx.maxHistorySize == old(ctx.maxHistorySize)
      ensures processingUsers == old(processingUsers)
      ensures userId in old(processingUsers) ==>
        sent == old(sent) + [Reply(userId, texts.wait)] && ctx.history == old(ctx.history) && promptFrom == None
      ensures userId !in old(processingUsers) && fault == NoFault && old(ctx.maxHistorySize) >= 0 ==>
        var withUser := Appended(HistoryIn(old(ctx.history), userId), Message("user", text), old(ctx.maxHistorySize) as nat);
        var reply := ReplyText(completion, texts.fallback);
        && promptFrom == Some(WithoutLast(withUser))
        && sent == old(sent) + [Reply(userId, reply)]
        && ctx.history == old(ctx.history)[userId := Appended(withUser, Message("assistant", reply), old(ctx.maxHistorySize) as nat)]
      ensures var e := Turn(Corrected, texts, userId, userId in old(processingUsers), HistoryIn(old(ctx.history), userId),
                            old(ctx.maxHistorySize), text, completion, fault);
        && sent == old(sent) + e.replies
        && ctx.history == StoredIn(old(ctx.history), userId, e)
        && promptFrom == e.promptFrom
    {
      ghost var busy, prior, cap := userId in processingUsers, HistoryIn(ctx.history, userId), ctx.maxHistorySize;
      promptFrom := Handle(Corrected, userId, text, rasaReply, completion, fault);
      if !busy && fault == NoFault && cap >= 0 {
        CorrectedFaultFree(texts, userId, prior, cap, text, completion);
      }
    }
  }
}
