/** The `Message` record of types.ts. */
module Types {
  import opened Wrappers

  /** `role: 'user' | 'model'` */
  datatype Role = User | Model

  /** One entry of the conversation; `isStreaming` is an optional field, so it is an `Option<bool>`. */
  datatype Message = Message(id: string, role: Role, text: string, isStreaming: Option<bool>)

  /** True when the message is drawn with the streaming cursor (`isStreaming` present and true). */
  predicate IsStreaming(m: Message) {
    m.isStreaming == Some(true)
  }

  /** How many messages of `ms` are marked as still streaming. */
  function StreamingCount(ms: seq<Message>): nat {
    if ms == [] then 0
    else StreamingCount(ms[..|ms| - 1]) + (if IsStreaming(ms[|ms| - 1]) then 1 else 0)
  }

  /** Counting distributes over concatenation. */
  lemma {:induction false} StreamingCountAppend(a: seq<Message>, b: seq<Message>)
    ensures StreamingCount(a + b) == StreamingCount(a) + StreamingCount(b)
    decreases |b|
  {
    if b == [] {
      assert a + b == a;
    } else {
      var b' := b[..|b| - 1];
      assert (a + b)[..|a + b| - 1] == a + b';
      StreamingCountAppend(a, b');
    }
  }
}
