/** Client-side dispatch: nine processors, each a total function from an incoming message to
    the callbacks it makes (returned as events, in call order), and the registry that maps a
    message type to at most one processor. */
module Processors {
  import opened JavaLang
  import opened Protocol
  import QuizModel

  /** One callback made by a processor. */
  datatype Event =
    | ChatLog(text: string)
    | BroadcastLog(text: string)
    | P2PLog(text: string)
    | StatusLog(text: string)
    | PeerListUpdate(peers: string)
    | QuizStarted(quiz: QuizModel.Quiz)
    | AnswerReceived(answer: QuizModel.QuizAnswer, username: string)
    | ResultReceived(result: QuizModel.QuizResult)

  datatype Processor =
    | TextMessageProcessor
    | BroadcastMessageProcessor
    | PeerToPeerMessageProcessor
    | UserJoinProcessor
    | UserLeaveProcessor
    | PeerListMessageProcessor
    | QuizStartProcessor
    | QuizAnswerProcessor
    | QuizResultProcessor

  /** `getHandledType`. */
  function HandledType(p: Processor): MessageType
  {
    match p
    case TextMessageProcessor => Text
    case BroadcastMessageProcessor => Broadcast
    case PeerToPeerMessageProcessor => PeerToPeer
    case UserJoinProcessor => UserJoin
    case UserLeaveProcessor => UserLeave
    case PeerListMessageProcessor => PeerList
    case QuizStartProcessor => QuizStart
    case QuizAnswerProcessor => QuizAnswer
    case QuizResultProcessor => QuizResult
  }

  /** No two processors claim the same type, so registering all nine fills nine entries. */
  lemma HandledTypeInjective(p: Processor, q: Processor)
    ensures HandledType(p) == HandledType(q) ==> p == q
  {
  }

  /** The guard under which a processor makes no callback at all. */
  predicate Silent(p: Processor, m: Message)
  {
    match p
    case PeerListMessageProcessor => m.content.None? || m.content.value == ""
    case QuizStartProcessor => m.quizData.None?
    case QuizAnswerProcessor => m.quizAnswer.None?
    case QuizResultProcessor => m.quizResult.None?
    case _ => false
  }

  /** The status line of a quiz result, up to the floating-point percentage. */
  function ResultLine(r: QuizModel.QuizResult): string
  {
    "[QUIZ] Result: " + IntToString(r.correctAnswers) + "/" + IntToString(r.totalQuestions)
  }

  /** `process(message, connection)`: the connection argument is never consulted, so it is
      not a parameter. */
  function Run(p: Processor, m: Message): (events: seq<Event>)
    reads QuizObjects(m)
    ensures events == [] <==> Silent(p, m)
    ensures |events| <= 2
    ensures |events| == 2 ==> events[0].StatusLog? && (events[1].QuizStarted? || events[1].ResultReceived?)
    ensures p !in {QuizStartProcessor, QuizResultProcessor} ==> |events| <= 1
  {
    match p
    case TextMessageProcessor => [ChatLog(m.sender + ": " + Str(m.content))]
    case BroadcastMessageProcessor => [BroadcastLog("[BROADCAST] " + m.sender + ": " + Str(m.content))]
    case PeerToPeerMessageProcessor => [P2PLog(m.sender + " → You: " + Str(m.content))]
    case UserJoinProcessor => [StatusLog("[STATUS] " + m.sender + " joined the network")]
    case UserLeaveProcessor => [StatusLog("[STATUS] " + m.sender + " left the network")]
    case PeerListMessageProcessor =>
      if m.content.Some? && m.content.value != "" then [PeerListUpdate(m.content.value)] else []
    case QuizStartProcessor =>
      if m.quizData.None? then []
      else
        var quiz := m.quizData.value;
        [StatusLog("[QUIZ] Started: " + quiz.title + " (" + IntToString(|quiz.questions|) + " questions)"),
         QuizStarted(quiz)]
    case QuizAnswerProcessor =>
      if m.quizAnswer.None? then [] else [AnswerReceived(m.quizAnswer.value, m.sender)]
    case QuizResultProcessor =>
      if m.quizResult.None? then [] else [StatusLog(ResultLine(m.quizResult.value)), ResultReceived(m.quizResult.value)]
  }

  /** No processor looks at the receiver field. */
  lemma RunIgnoresReceiver(p: Processor, m: Message, r: string)
    ensures Run(p, m.(receiver := r)) == Run(p, m)
  {
  }

  /** The join and leave processors report the sender only; the content does not matter. */
  lemma StatusIgnoresContent(p: Processor, m: Message, c: Option<string>)
    requires p == UserJoinProcessor || p == UserLeaveProcessor
    ensures Run(p, m.(content := c)) == Run(p, m)
  {
  }

  /** The three chat processors have no content guard: empty content still logs one line,
      which ends with the content. */
  lemma ChatLogsEvenEmpty(p: Processor, m: Message)
    requires p in {TextMessageProcessor, BroadcastMessageProcessor, PeerToPeerMessageProcessor}
    ensures |Run(p, m)| == 1
    ensures var e := Run(p, m)[0]; (e.ChatLog? || e.BroadcastLog? || e.P2PLog?)
    ensures var e := Run(p, m)[0];
      |e.text| >= |Str(m.content)| && e.text[|e.text| - |Str(m.content)|..] == Str(m.content)
  {
  }

  /** A non-empty peer list is passed on verbatim, trailing comma and all. */
  lemma PeerListVerbatim(m: Message)
    requires m.content.Some? && m.content.value != ""
    ensures Run(PeerListMessageProcessor, m) == [PeerListUpdate(m.content.value)]
  {
  }

  /** A quiz answer is attributed to the message's sender, whatever the sheet says. */
  lemma AnswerAttributedToSender(m: Message)
    requires m.quizAnswer.Some?
    ensures Run(QuizAnswerProcessor, m) == [AnswerReceived(m.quizAnswer.value, m.sender)]
  {
  }

  /** `MessageProcessorRegistry`: at most one processor per message type. */
  class Registry {
    var processors: map<MessageType, Processor>

    /** Every entry sits under the type its processor handles. */
    ghost predicate Valid()
      reads this
    {
      forall t :: t in processors ==> HandledType(processors[t]) == t
    }

    constructor ()
      ensures processors == map[] && Valid()
    {
      processors := map[];
    }

    /** `register`: stored under the processor's own type, replacing an earlier one. */
    method Register(p: Processor)
      requires Valid()
      modifies this
      ensures processors == old(processors)[HandledType(p) := p]
      ensures Valid()
    {
      processors := processors[HandledType(p) := p];
    }

    /** `process`: runs the registered processor once, or does nothing (the source only
        writes a line to standard error). The registry is not modified. */
    method Process(m: Message) returns (events: seq<Event>)
      ensures events == Dispatch(processors, m)
    {
      if m.kind in processors {
        events := Run(processors[m.kind], m);
      } else {
        events := [];
      }
    }

    /** `hasProcessor`. */
    function HasProcessor(t: MessageType): (b: bool)
      reads this
      ensures b <==> t in processors
    {
      t in processors
    }

    /** `unregister`: removes only that type's entry. */
    method Unregister(t: MessageType)
      requires Valid()
      modifies this
      ensures processors == old(processors) - {t}
      ensures Valid()
    {
      processors := processors - {t};
    }
  }

  /** What `process` does with a registry holding `procs`. */
  function Dispatch(procs: map<MessageType, Processor>, m: Message): seq<Event>
    reads QuizObjects(m)
  {
    if m.kind in procs then Run(procs[m.kind], m) else []
  }

  /** After `register(p)`, a message of p's type is handled by p. */
  lemma RegisterThenDispatch(procs: map<MessageType, Processor>, p: Processor, m: Message)
    requires m.kind == HandledType(p)
    ensures Dispatch(procs[HandledType(p) := p], m) == Run(p, m)
  {
  }

  /** After `unregister(t)`, a message of type t produces no callback, and every other type
      is handled as before. */
  lemma UnregisterThenDispatch(procs: map<MessageType, Processor>, t: MessageType, m: Message)
    ensures m.kind == t ==> Dispatch(procs - {t}, m) == []
    ensures m.kind != t ==> Dispatch(procs - {t}, m) == Dispatch(procs, m)
  {
  }

  /** A registry without an entry for a type makes no callback for it. */
  lemma UnhandledTypeIsSilent(procs: map<MessageType, Processor>, m: Message)
    requires m.kind !in procs
    ensures Dispatch(procs, m) == []
  {
  }
}
