/**
 * The chat turn of src/routes/chat.rs: look the user up, load the running
 * summary, choose the persona, ask the model for a reply, ask it again for a
 * new summary, store that summary and answer with the reply.
 *
 * The two calls to the generation backend are oracles from the request to a
 * `GenResult`, so what they answer may depend on the prompt they are sent. A
 * store call that cannot reach the database is an injected `ChatFault`.
 */
module ChatRoutes {
  import opened Wrappers
  import opened Models
  import Db
  import opened UserRoutes

  /** The model every request names. */
  const OpenAiModelVersion: string := "gpt-4o"

  /** The reply used when the backend answers with no choice at all. */
  const NoReply: string := "(No reply)"

  datatype MessageRequest = MessageRequest(message: string, userId: I32)
  datatype MessageResponse = MessageResponse(reply: string, userId: int)

  /** One message of a chat request, and the request itself. */
  datatype Message = Message(role: string, content: string)
  datatype ChatArguments = ChatArguments(model: string, messages: seq<Message>)

  /** What the backend does with a request: a hard failure, or a list of choices. */
  datatype GenResult = GenFail | GenOk(choices: seq<string>)

  /** The store call of a turn that cannot reach the database. */
  datatype ChatFault = FindUserFails | LoadSummaryFails | SaveSummaryFails

  /** A single system message for the configured model, as both calls send. */
  function SystemRequest(content: string): (args: ChatArguments)
  {
    ChatArguments(OpenAiModelVersion, [Message("system", content)])
  }

  /** Different prompts make different requests: the backend receives the prompt whole. */
  lemma SystemRequestDetermines(content: string, content': string)
    requires SystemRequest(content) == SystemRequest(content')
    ensures content == content'
  {
  }

  /**
   * The persona of a user: its own prompt whenever one is stored, even the empty
   * string; `DefaultPrompt` only when the prompt is NULL.
   */
  function Persona(prompt: Option<string>): (persona: string)
    ensures prompt.Some? ==> persona == prompt.value
    ensures prompt.None? ==> persona == DefaultPrompt
  {
    prompt.GetOr(DefaultPrompt)
  }

  // ---------------------------------------------------------------------------
  // The two prompt templates (the `format!` strings), split at their holes.
  // ---------------------------------------------------------------------------

  const ReplyHeader: string := "\n\nConversation so far (summarized):\n"
  const ReplyMiddle: string := "\n\nUser's new message:\n\""
  const ReplyTrailer: string := "\"\n\nAssistant, please respond:\n"

  const SummaryLead: string := "\nPrevious summary:\n"
  const SummaryMiddle: string := "\n\nUser's latest message:\n\""
  const SummaryReplyLabel: string := "\"\n\nAssistant's reply:\n\""
  const SummaryTrailer: string :=
    "\"\n\nPlease provide an updated very detailed summary of these contents.\n"
    + "No less than 10 sentences, use detail\n"
    + "No more than 40 sentences if needed\n\n\n"
    + "If repeated themes start occring use this into consideration for your response:\n"

  /** The reply prompt: persona, the summarized conversation, the quoted new message. */
  function ReplyPrompt(persona: string, summary: string, message: string): (text: string)
    ensures |text| == |persona| + |summary| + |message| + |ReplyHeader| + |ReplyMiddle| + |ReplyTrailer|
    ensures text[..|persona|] == persona
  {
    persona + ReplyHeader + summary + ReplyMiddle + message + ReplyTrailer
  }

  /** The summarization prompt: old summary, quoted message, quoted reply, instructions. */
  function SummarizationPrompt(oldSummary: string, message: string, reply: string): (text: string)
    ensures |text| == |oldSummary| + |message| + |reply|
                      + |SummaryLead| + |SummaryMiddle| + |SummaryReplyLabel| + |SummaryTrailer|
    ensures text[..|SummaryLead|] == SummaryLead
  {
    SummaryLead + oldSummary + SummaryMiddle + message + SummaryReplyLabel + reply + SummaryTrailer
  }

  /** `part` stands unaltered in `text` from index `at` on. */
  ghost predicate Occurs(part: string, text: string, at: int)
  {
    0 <= at && at + |part| <= |text| && text[at..at + |part|] == part
  }

  /**
   * The reply prompt is total and truncates nothing: its length is the sum of
   * its parts, and persona, summary and message each stand in it verbatim at a
   * place fixed by the lengths of what precedes them.
   */
  lemma ReplyPromptLayout(persona: string, summary: string, message: string)
    ensures var text := ReplyPrompt(persona, summary, message);
      && |text| == |persona| + |summary| + |message| + |ReplyHeader| + |ReplyMiddle| + |ReplyTrailer|
      && Occurs(persona, text, 0)
      && Occurs(summary, text, |persona| + |ReplyHeader|)
      && Occurs(message, text, |persona| + |ReplyHeader| + |summary| + |ReplyMiddle|)
  {
  }

  /** The summarization prompt keeps the old summary, the message and the reply verbatim. */
  lemma SummarizationPromptLayout(oldSummary: string, message: string, reply: string)
    ensures var text := SummarizationPrompt(oldSummary, message, reply);
      && |text| == |oldSummary| + |message| + |reply|
                   + |SummaryLead| + |SummaryMiddle| + |SummaryReplyLabel| + |SummaryTrailer|
      && Occurs(oldSummary, text, |SummaryLead|)
      && Occurs(message, text, |SummaryLead| + |oldSummary| + |SummaryMiddle|)
      && Occurs(reply, text, |SummaryLead| + |oldSummary| + |SummaryMiddle| + |message| + |SummaryReplyLabel|)
  {
  }

  /**
   * Nothing is lost in the reply prompt: once the lengths of persona and summary
   * are known, the prompt determines all three parts.
   */
  lemma ReplyPromptDetermines(persona: string, summary: string, message: string,
                              persona': string, summary': string, message': string)
    requires ReplyPrompt(persona, summary, message) == ReplyPrompt(persona', summary', message')
    requires |persona| == |persona'| && |summary| == |summary'|
    ensures persona == persona' && summary == summary' && message == message'
  {
    ReplyPromptLayout(persona, summary, message);
    ReplyPromptLayout(persona', summary', message');
  }

  /**
   * Nothing is lost in the summarization prompt either: once the lengths of the
   * old summary and the message are known, the prompt determines all three parts.
   */
  lemma SummarizationPromptDetermines(oldSummary: string, message: string, reply: string,
                                      oldSummary': string, message': string, reply': string)
    requires SummarizationPrompt(oldSummary, message, reply) == SummarizationPrompt(oldSummary', message', reply')
    requires |oldSummary| == |oldSummary'| && |message| == |message'|
    ensures oldSummary == oldSummary' && message == message' && reply == reply'
  {
    SummarizationPromptLayout(oldSummary, message, reply);
    SummarizationPromptLayout(oldSummary', message', reply');
  }

  // ---------------------------------------------------------------------------
  // Choosing among the backend's choices.
  // ---------------------------------------------------------------------------

  /** The first choice, or `fallback` when there is none; later choices are never used. */
  function FirstChoiceOr(choices: seq<string>, fallback: string): (chosen: string)
    ensures |choices| > 0 ==> chosen == choices[0]
    ensures |choices| == 0 ==> chosen == fallback
  {
    if |choices| > 0 then choices[0] else fallback
  }

  // ---------------------------------------------------------------------------
  // The turn.
  // ---------------------------------------------------------------------------

  /**
   * What a turn answers, and the summary it stores for the user (None when it
   * stores nothing).
   */
  datatype TurnOutcome = TurnOutcome(response: Result<MessageResponse, Status>, stored: Option<string>)

  function Failed(status: Status): (t: TurnOutcome)
  {
    TurnOutcome(Err(status), None)
  }

  /** The request of the reply call, for a user and the summary read from the store. */
  function ReplyRequest(user: User, summary: Option<string>, message: string): (args: ChatArguments)
  {
    SystemRequest(ReplyPrompt(Persona(user.prompt), summary.GetOr(""), message))
  }

  /** The request of the summarization call. */
  function SummarizationRequest(summary: Option<string>, message: string, reply: string): (args: ChatArguments)
  {
    SystemRequest(SummarizationPrompt(summary.GetOr(""), message, reply))
  }

  /** An injected fault is absent or names one of the three store calls. */
  lemma ChatFaultCases(fault: Option<ChatFault>)
    ensures fault.None? || fault == Some(FindUserFails) || fault == Some(LoadSummaryFails)
            || fault == Some(SaveSummaryFails)
  {
    match fault
    case None =>
    case Some(f) => match f { case FindUserFails => case LoadSummaryFails => case SaveSummaryFails => }
  }

  /**
   * A turn as a function of what the store holds (`user`, `summary`), the two
   * oracles and the injected store fault. A turn either answers its reply and
   * stores a new summary, or it answers an error and stores nothing.
   */
  function ChatTurn(user: Option<User>, summary: Option<string>, message: string,
                    replyGen: ChatArguments -> GenResult, summaryGen: ChatArguments -> GenResult,
                    fault: Option<ChatFault>): (t: TurnOutcome)
    ensures t.response.Ok? <==> t.stored.Some?
    ensures fault.Some? ==> t.response.Err?
    ensures t.response == Err(Unauthorized) <==> fault != Some(FindUserFails) && user.None?
    ensures t.response.Err? ==> t.response.error in {Unauthorized, InternalServerError}
    ensures t.response.Ok? ==> user.Some? && t.response.value.userId == user.value.id
  {
    if fault == Some(FindUserFails) then Failed(InternalServerError)
    else if user.None? then Failed(Unauthorized)
    else if fault == Some(LoadSummaryFails) then Failed(InternalServerError)
    else
      var replied := replyGen(ReplyRequest(user.value, summary, message));
      if replied.GenFail? then Failed(InternalServerError)
      else
        var reply := FirstChoiceOr(replied.choices, NoReply);
        var summarized := summaryGen(SummarizationRequest(summary, message, reply));
        if summarized.GenFail? then Failed(InternalServerError)
        else if fault == Some(SaveSummaryFails) then Failed(InternalServerError)
        else
          ChatFaultCases(fault);
          TurnOutcome(Ok(MessageResponse(reply, user.value.id)),
                      Some(FirstChoiceOr(summarized.choices, summary.GetOr(""))))
  }

  /** A turn that reaches the backend and succeeds: the reply and the new summary. */
  lemma TurnSucceeds(user: User, summary: Option<string>, message: string,
                     replyGen: ChatArguments -> GenResult, summaryGen: ChatArguments -> GenResult)
    requires replyGen(ReplyRequest(user, summary, message)).GenOk?
    requires var reply := FirstChoiceOr(replyGen(ReplyRequest(user, summary, message)).choices, NoReply);
             summaryGen(SummarizationRequest(summary, message, reply)).GenOk?
    ensures var replies := replyGen(ReplyRequest(user, summary, message)).choices;
            var reply := if |replies| == 0 then NoReply else replies[0];
            var summaries := summaryGen(SummarizationRequest(summary, message, reply)).choices;
            ChatTurn(Some(user), summary, message, replyGen, summaryGen, None)
              == TurnOutcome(Ok(MessageResponse(reply, user.id)),
                             Some(if |summaries| == 0 then summary.GetOr("") else summaries[0]))
  {
  }

  /** A hard failure of the reply call ends the turn with an internal error and no write. */
  lemma ReplyFailureWritesNothing(user: User, summary: Option<string>, message: string,
                                  replyGen: ChatArguments -> GenResult, summaryGen: ChatArguments -> GenResult,
                                  fault: Option<ChatFault>)
    requires replyGen(ReplyRequest(user, summary, message)) == GenFail
    ensures ChatTurn(Some(user), summary, message, replyGen, summaryGen, fault) == Failed(InternalServerError)
  {
  }

  /**
   * A hard failure of the summarization call also ends the turn with an
   * internal error and no write: the reply already produced is dropped.
   */
  lemma SummaryFailureWritesNothing(user: User, summary: Option<string>, message: string,
                                    replyGen: ChatArguments -> GenResult, summaryGen: ChatArguments -> GenResult,
                                    fault: Option<ChatFault>)
    requires replyGen(ReplyRequest(user, summary, message)).GenOk?
    requires var reply := FirstChoiceOr(replyGen(ReplyRequest(user, summary, message)).choices, NoReply);
             summaryGen(SummarizationRequest(summary, message, reply)) == GenFail
    ensures ChatTurn(Some(user), summary, message, replyGen, summaryGen, fault) == Failed(InternalServerError)
  {
  }

  /**
   * An absent summary is the empty string for both prompts, so a turn cannot
   * tell a missing summary from an empty one.
   */
  lemma AbsentSummaryIsEmpty(user: Option<User>, message: string,
                             replyGen: ChatArguments -> GenResult, summaryGen: ChatArguments -> GenResult,
                             fault: Option<ChatFault>)
    ensures ChatTurn(user, None, message, replyGen, summaryGen, fault)
         == ChatTurn(user, Some(""), message, replyGen, summaryGen, fault)
  {
  }

  /**
   * The reply call carries the persona, the summary (or "") and the new message
   * verbatim, in one system message to the configured model.
   */
  lemma ReplyRequestCarriesContext(user: User, summary: Option<string>, message: string)
    ensures var args := ReplyRequest(user, summary, message);
      && args.model == OpenAiModelVersion && |args.messages| == 1 && args.messages[0].role == "system"
      && var text := args.messages[0].content;
      && Occurs(Persona(user.prompt), text, 0)
      && Occurs(summary.GetOr(""), text, |Persona(user.prompt)| + |ReplyHeader|)
      && Occurs(message, text, |Persona(user.prompt)| + |ReplyHeader| + |summary.GetOr("")| + |ReplyMiddle|)
  {
  }

  /**
   * The summarization call carries the summary (or ""), the new message and the
   * reply verbatim, in one system message to the configured model.
   */
  lemma SummarizationRequestCarriesContext(summary: Option<string>, message: string, reply: string)
    ensures var args := SummarizationRequest(summary, message, reply);
      && args.model == OpenAiModelVersion && |args.messages| == 1 && args.messages[0].role == "system"
      && var text := args.messages[0].content;
      && var prior := summary.GetOr("");
      && Occurs(prior, text, |SummaryLead|)
      && Occurs(message, text, |SummaryLead| + |prior| + |SummaryMiddle|)
      && Occurs(reply, text, |SummaryLead| + |prior| + |SummaryMiddle| + |message| + |SummaryReplyLabel|)
  {
  }

  /**
   * The reply oracle sees every part of the turn's context: two reply requests
   * that agree on the lengths of persona and summary are equal only when the
   * personas, the summaries and the messages are.
   */
  lemma ReplyRequestDetermines(user: User, summary: Option<string>, message: string,
                               user': User, summary': Option<string>, message': string)
    requires ReplyRequest(user, summary, message) == ReplyRequest(user', summary', message')
    requires |Persona(user.prompt)| == |Persona(user'.prompt)|
    requires |summary.GetOr("")| == |summary'.GetOr("")|
    ensures Persona(user.prompt) == Persona(user'.prompt)
    ensures summary.GetOr("") == summary'.GetOr("") && message == message'
  {
    var persona, persona' := Persona(user.prompt), Persona(user'.prompt);
    SystemRequestDetermines(ReplyPrompt(persona, summary.GetOr(""), message),
                            ReplyPrompt(persona', summary'.GetOr(""), message'));
    ReplyPromptDetermines(persona, summary.GetOr(""), message, persona', summary'.GetOr(""), message');
  }

  /**
   * The summarization oracle sees every part as well: the request determines
   * the old summary, the message and the reply, given the first two lengths.
   */
  lemma SummarizationRequestDetermines(summary: Option<string>, message: string, reply: string,
                                       summary': Option<string>, message': string, reply': string)
    requires SummarizationRequest(summary, message, reply) == SummarizationRequest(summary', message', reply')
    requires |summary.GetOr("")| == |summary'.GetOr("")| && |message| == |message'|
    ensures summary.GetOr("") == summary'.GetOr("") && message == message' && reply == reply'
  {
    SystemRequestDetermines(SummarizationPrompt(summary.GetOr(""), message, reply),
                            SummarizationPrompt(summary'.GetOr(""), message', reply'));
    SummarizationPromptDetermines(summary.GetOr(""), message, reply, summary'.GetOr(""), message', reply');
  }

  /**
   * POST /chat, step by step with an early return at each failure, ending in one
   * store write. What it answers and stores is exactly `ChatTurn` of what the
   * store held; users are never touched.
   */
  method ChatHandler(store: Db.Store, req: MessageRequest,
                     replyGen: ChatArguments -> GenResult, summaryGen: ChatArguments -> GenResult,
                     fault: Option<ChatFault>)
    returns (r: Result<MessageResponse, Status>)
    requires store.Valid()
    modifies store
    ensures store.Valid()
    ensures var t := ChatTurn(old(store.GetUserById(req.userId)), old(store.GetConversationSummary(req.userId)),
                              req.message, replyGen, summaryGen, fault);
      && r == t.response
      && store.conversations == if t.stored.Some? then old(store.conversations)[req.userId := t.stored]
                                else old(store.conversations)
    ensures r.Err? ==> unchanged(store)
    ensures store.users == old(store.users) && store.nameIndex == old(store.nameIndex)
    ensures store.nextId == old(store.nextId)
  {
    if fault == Some(FindUserFails) {
      return Err(InternalServerError);
    }
    var found := store.GetUserById(req.userId);
    if found.None? {
      return Err(Unauthorized);
    }
    var user := found.value;
    if fault == Some(LoadSummaryFails) {
      return Err(InternalServerError);
    }
    var existingSummary := store.GetConversationSummary(user.id).GetOr("");
    var userPrompt := Persona(user.prompt);
    var conversationText := ReplyPrompt(userPrompt, existingSummary, req.message);
    var replied := replyGen(SystemRequest(conversationText));
    if replied.GenFail? {
      return Err(InternalServerError);
    }
    var llmReply := FirstChoiceOr(replied.choices, NoReply);
    var summarizationText := SummarizationPrompt(existingSummary, req.message, llmReply);
    var summarized := summaryGen(SystemRequest(summarizationText));
    if summarized.GenFail? {
      return Err(InternalServerError);
    }
    var newSummary := FirstChoiceOr(summarized.choices, existingSummary);
    if fault == Some(SaveSummaryFails) {
      return Err(InternalServerError);
    }
    var saved := store.UpdateConversationSummary(user.id, newSummary);
    if saved.Err? {
      return Err(InternalServerError);
    }
    r := Ok(MessageResponse(llmReply, user.id));
  }
}
