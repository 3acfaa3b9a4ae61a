/** The wire vocabulary shared by the server, the client-side processors and the controllers:
    message types, messages, users, file transfers and the abstract connection handles. */
module Protocol {
  import opened JavaLang
  import QuizModel

  /** A server-side connection (one accepted socket), identified by an abstract id. */
  type ConnId = nat

  /** The message kinds the routing code distinguishes, plus `Other` for every kind it only
      reaches through a `default` branch. */
  datatype MessageType =
    | Text
    | Broadcast
    | PeerToPeer
    | File
    | UserJoin
    | UserLeave
    | PeerList
    | Heartbeat
    | ClassJoin
    | ClassLeave
    | QuizStart
    | QuizAnswer
    | QuizResult
    | ServerShutdown
    | Other

  /** A file on its way between peers; the bytes themselves are not modelled. */
  datatype FileTransfer = FileTransfer(fileName: string, fileSize: int, sender: string, recipient: string)

  /** A message: the four constructor fields (`content` may be null on the wire) and the
      optional attachments set after construction. */
  datatype Message = Message(
    sender: string,
    receiver: string,
    content: Option<string>,
    kind: MessageType,
    fileTransfer: Option<FileTransfer>,
    quizData: Option<QuizModel.Quiz>,
    quizAnswer: Option<QuizModel.QuizAnswer>,
    quizResult: Option<QuizModel.QuizResult>)

  /** `new Message(sender, receiver, content, type)`: no attachment. */
  function Msg(sender: string, receiver: string, content: string, kind: MessageType): Message
  {
    Message(sender, receiver, Some(content), kind, None, None, None, None)
  }

  /** A string operand of Java `+`: a null reference prints as "null". */
  function Str(s: Option<string>): string
  {
    if s.Some? then s.value else "null"
  }

  /** The objects a message's quiz attachment lets a reader reach. */
  function QuizObjects(m: Message): set<object>
  {
    if m.quizData.Some? then {m.quizData.value} else {}
  }

  /** A logged-in user. */
  datatype User = User(username: string, password: string)

  /** A client-side link to a server (`Client`): `id` stands for the object's identity, since
      two links to the same host and port are still different objects. */
  datatype ClientPeer = ClientPeer(id: nat, host: string, port: int)

  /** The way a message or file leaves this process: through a client link or through a
      connection the local server accepted. */
  datatype Route = ViaClient(client: ClientPeer) | ViaConnection(conn: ConnId)
}
