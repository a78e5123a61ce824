/**
 * The outbound `Command` value: an immutable triple (command, identifier, data)
 * of possibly-null strings, and the four factories the library uses to build one.
 * Datatype values cannot be mutated, which is how the source's `final` fields are
 * rendered here.
 */
module Commands {
  import opened Options

  datatype Command = Command(command: JString, identifier: JString, data: JString)

  /** The public three-argument constructor. */
  function New(command: JString, identifier: JString, data: JString): (c: Command)
    ensures c.command == command && c.identifier == identifier && c.data == data
  {
    Command(command, identifier, data)
  }

  /** The private two-argument constructor: it delegates with a null `data`. */
  function WithoutData(command: JString, identifier: JString): (c: Command)
    ensures c.command == command && c.identifier == identifier && c.data == None
  {
    New(command, identifier, None)
  }

  function Subscribe(identifier: JString): (c: Command)
    ensures c.command == Some("subscribe")
    ensures c.identifier == identifier
    ensures c.data == None
  {
    WithoutData(Some("subscribe"), identifier)
  }

  function Unsubscribe(identifier: JString): (c: Command)
    ensures c.command == Some("unsubscribe")
    ensures c.identifier == identifier
    ensures c.data == None
  {
    WithoutData(Some("unsubscribe"), identifier)
  }

  /** `params` is the string form of the (non-null) JSON object passed by the caller. */
  function Message(identifier: JString, params: string): (c: Command)
    ensures c.command == Some("message")
    ensures c.identifier == identifier
    ensures c.data == Some(params)
  {
    New(Some("message"), identifier, Some(params))
  }

  function Pong(): (c: Command)
    ensures c.command == Some("pong")
    ensures c.identifier == None
    ensures c.data == None
  {
    WithoutData(Some("pong"), None)
  }

  /** What a factory-built command asks the server to do. */
  datatype Intent =
    | SubscribeTo(identifier: JString)
    | UnsubscribeFrom(identifier: JString)
    | MessageTo(identifier: JString, params: string)
    | PongReply

  /** The factory call that produces the command for an intent. */
  function Build(i: Intent): (c: Command)
    ensures Classify(c) == Some(i)
  {
    match i
    case SubscribeTo(id) => Subscribe(id)
    case UnsubscribeFrom(id) => Unsubscribe(id)
    case MessageTo(id, params) => Message(id, params)
    case PongReply() => Pong()
  }

  /**
   * Recognises a command that one of the factories could have built, and
   * which one. Commands made through the public constructor with other
   * field combinations are not factory-built.
   */
  function Classify(c: Command): Option<Intent>
  {
    match c
    case Command(Some("subscribe"), id, None) => Some(SubscribeTo(id))
    case Command(Some("unsubscribe"), id, None) => Some(UnsubscribeFrom(id))
    case Command(Some("message"), id, Some(params)) => Some(MessageTo(id, params))
    case Command(Some("pong"), None, None) => Some(PongReply)
    case _ => None
  }

  /** Classify is a left inverse of Build, so no two intents share a command. */
  lemma ClassifyInvertsBuild(c: Command)
    ensures Classify(c).Some? ==> Build(Classify(c).value) == c
  {
  }

  lemma FactoriesAreInjective(i: Intent, j: Intent)
    ensures Build(i) == Build(j) ==> i == j
  {
    assert Classify(Build(i)) == Some(i);
    assert Classify(Build(j)) == Some(j);
  }
}
