/** The entries of the conversation history and the objects they are on
    the wire: `{ role, content }`, which the OpenAI request carries as its
    `messages` array. */
module Messages {
  import opened Js

  datatype Role = User | Assistant | Tool

  /** One history entry. The content is a string for user and tool
      entries; an assistant entry holds whatever truthy value the provider
      returned as its output. */
  datatype Message = Message(role: Role, content: Value)

  function RoleName(role: Role): string {
    match role
    case User => "user"
    case Assistant => "assistant"
    case Tool => "tool"
  }

  function RoleNamed(name: string): Option<Role> {
    if name == "user" then Some(User)
    else if name == "assistant" then Some(Assistant)
    else if name == "tool" then Some(Tool)
    else None
  }

  /** The JavaScript object `{ role: ..., content: ... }`. */
  function EncodeMessage(m: Message): Value {
    Obj(map["role" := Str(RoleName(m.role)), "content" := m.content])
  }

  function DecodeMessage(v: Value): Option<Message> {
    match v
    case Obj(fields) =>
      if "role" in fields && fields["role"].Str? && "content" in fields then
        match RoleNamed(fields["role"].s)
        case Some(role) => Some(Message(role, fields["content"]))
        case None => None
      else None
    case _ => None
  }

  /** A message survives its wire encoding unchanged. */
  lemma MessageRoundTrip(m: Message)
    ensures DecodeMessage(EncodeMessage(m)) == Some(m)
  {
    match m.role
    case User =>
    case Assistant =>
    case Tool =>
  }

  function EncodeMessages(ms: seq<Message>): (vs: seq<Value>)
    ensures |vs| == |ms|
  {
    seq(|ms|, k requires 0 <= k < |ms| => EncodeMessage(ms[k]))
  }

  /** The history as the array that goes into a request body. */
  function EncodeHistory(ms: seq<Message>): Value {
    Arr(EncodeMessages(ms))
  }

  function DecodeMessages(vs: seq<Value>): Option<seq<Message>> {
    if vs == [] then Some([])
    else
      match (DecodeMessage(vs[0]), DecodeMessages(vs[1..]))
      case (Some(m), Some(rest)) => Some([m] + rest)
      case _ => None
  }

  function DecodeHistory(v: Value): Option<seq<Message>> {
    match v
    case Arr(items) => DecodeMessages(items)
    case _ => None
  }

  /** The array a request carries decodes back to exactly the history it
      was built from: every message, in order, with its role and content. */
  lemma {:induction false} HistoryRoundTrip(ms: seq<Message>)
    ensures DecodeHistory(EncodeHistory(ms)) == Some(ms)
  {
    MessagesRoundTrip(ms);
  }

  lemma {:induction false} MessagesRoundTrip(ms: seq<Message>)
    ensures DecodeMessages(EncodeMessages(ms)) == Some(ms)
  {
    if ms != [] {
      var vs := EncodeMessages(ms);
      assert vs[1..] == EncodeMessages(ms[1..]);
      MessageRoundTrip(ms[0]);
      MessagesRoundTrip(ms[1..]);
      assert [ms[0]] + ms[1..] == ms;
    }
  }
}
