/**
 * The chat history the agents share: a Python list of message dictionaries
 * with a `role` and a `content`, appended to (and, by the image responder,
 * popped from) in place.
 */
module Chat {
  import opened PyValues

  /** One history message. Its `content` is a string, or the list of parts
      of a multimodal message until it is flattened. */
  class Message {
    var role: string
    var content: Value

    constructor(role: string, content: Value)
      ensures this.role == role && this.content == content
    {
      this.role := role;
      this.content := content;
    }
  }

  /** The history list, shared by reference between the caller and the
      agent it hands it to. */
  class History {
    var msgs: seq<Message>

    constructor(msgs: seq<Message>)
      ensures this.msgs == msgs
    {
      this.msgs := msgs;
    }

    /** `history.append(m)` */
    method Append(m: Message)
      modifies this
      ensures msgs == old(msgs) + [m]
    {
      msgs := msgs + [m];
    }

    /** `history.pop()`, which raises on an empty list. */
    method Pop() returns (m: Message)
      requires |msgs| > 0
      modifies this
      ensures m == old(msgs[|msgs| - 1]) && msgs == old(msgs[..|msgs| - 1])
    {
      m := msgs[|msgs| - 1];
      msgs := msgs[..|msgs| - 1];
    }
  }
}
