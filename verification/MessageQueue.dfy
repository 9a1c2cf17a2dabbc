module MessageQueues {

  /** First-in first-out queue between two threads; each method runs under the queue's lock. */
  class MessageQueue<T(0)> {
    var items: seq<T>

    constructor ()
      ensures items == []
    {
      items := [];
    }

    method Push(message: T)
      modifies this
      ensures items == old(items) + [message]
    {
      items := items + [message];
    }

    method Pop() returns (message: T)
      requires items != []  // the caller must have checked
      modifies this
      ensures [message] + items == old(items)
    {
      message := items[0];
      items := items[1..];
    }

    method IsEmpty() returns (empty: bool)
      ensures empty <==> |items| == 0
    {
      empty := items == [];
    }
  }
}
