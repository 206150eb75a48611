/** Conversation history entries: the `{"role": ..., "content": ...}`
    dictionaries the agents append to their `conversation_history` lists. */
module History {

  datatype Role = User | Assistant

  datatype Message = Message(role: Role, content: string)

  /** One exchange as the agents record it: the user's entry, then the
      assistant's. */
  function Turn(user: string, reply: string): (t: seq<Message>)
    ensures |t| == 2
    ensures t[0].role == User && t[0].content == user
    ensures t[1].role == Assistant && t[1].content == reply
  {
    [Message(User, user), Message(Assistant, reply)]
  }

  /** A history made only of whole exchanges: entries alternate user,
      assistant, starting with the user, and come in pairs. */
  predicate Paired(h: seq<Message>) {
    if h == [] then true
    else |h| >= 2 && h[0].role == User && h[1].role == Assistant && Paired(h[2..])
  }

  /** Appending one exchange keeps a history paired. */
  lemma {:induction false} PairedAppend(h: seq<Message>, user: string, reply: string)
    requires Paired(h)
    ensures Paired(h + Turn(user, reply))
  {
    if h != [] {
      assert (h + Turn(user, reply))[2..] == h[2..] + Turn(user, reply);
      PairedAppend(h[2..], user, reply);
    } else {
      assert (h + Turn(user, reply))[2..] == [];
    }
  }
}
