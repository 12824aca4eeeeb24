// The domain model shared by every component: roles, derived identities,
// messages, and the result type that stands for an operation that may fail.
// A derived ID is a constructor over exactly the parts the source hashes, so
// two IDs are equal only if their parts are.
module Core {

  datatype Option<+T> = None | Some(value: T)

  datatype Result<+T> = Ok(value: T) | Err(error: string) {
    predicate IsFailure() {
      Err?
    }

    function PropagateFailure<U>(): Result<U>
      requires Err?
    {
      Err(error)
    }

    function Extract(): T
      requires Ok?
    {
      value
    }
  }

  datatype Role = System | User | Assistant | Tool | Unrecognized(name: string) {
    predicate Valid() {
      !Unrecognized?
    }
  }

  // The fingerprint that deduplicates messages within a conversation.
  datatype Identity =
    | ExternalIdentity(externalId: string)
    | RawIdentity(raw: string)
    | ContentIdentity(role: Role, content: string)

  // An external ID is authoritative, then the raw event, then the content.
  function IdentityOf(externalId: string, role: Role, content: string, raw: string): Identity {
    if externalId != "" then ExternalIdentity(externalId)
    else if raw != "" then RawIdentity(raw)
    else ContentIdentity(role, content)
  }

  datatype MessageId = MessageId(conversation: string, identity: Identity)

  // A leaf summary is named by its ordered messages, a condensed summary by its
  // depth and its ordered children.
  datatype SummaryId =
    | LeafId(conversation: string, messages: seq<MessageId>)
    | CondensedId(conversation: string, depth: nat, children: seq<SummaryId>)

  datatype SummaryKind = Leaf | Condensed

  // `position` is the source's Seq: 1 for a conversation's first message.
  datatype Message = Message(
    id: MessageId,
    position: nat,
    role: Role,
    content: string,
    tokenCount: nat,
    toolName: string,
    externalId: string,
    raw: string)

  function Max(a: int, b: int): int {
    if a < b then b else a
  }

  function Min(a: int, b: int): int {
    if a < b then a else b
  }
}
