/** Which sends of a channel are timed.  If no send follows a timed one, the client reads the
    requests in order, whatever it leaves unanswered and whether or not the last send gives
    up. */
module Timing {
  import opened Rendezvous

  // The i-th send is timed if flags[i]; there are no more sends than flags, and only a
  // timed one gives up.
  predicate Permitted<M>(flags: seq<bool>, c: Channel<M>, step: Step<M>) {
    && (step.ServerBegins? ==> |c.requests| < |flags|)
    && (step.ServerTimesOut? ==> 0 < |c.requests| <= |flags| && flags[|c.requests| - 1])
  }

  predicate NoSendAfterTimed(flags: seq<bool>) { forall i :: 0 <= i < |flags| - 1 ==> !flags[i] }

  // Once a send has timed out, no other begins.
  predicate Closed<M>(flags: seq<bool>, c: Channel<M>) {
    && |c.requests| + One(c.server.Copying?) <= |flags|
    && c.timeouts <= 1
    && (c.timeouts == 1 ==> c.server.Idle? && |c.requests| == |flags|)
  }

  lemma ClosedNext<M>(flags: seq<bool>, c: Channel<M>, step: Step<M>)
    requires NoSendAfterTimed(flags) && Closed(flags, c) && Permitted(flags, c, step) && Next(c, step).Some?
    ensures Closed(flags, Next(c, step).value)
  {
  }

  // The client has read the requests in order, and the one it has not read is in the slot.
  ghost predicate ReadInOrder<M>(c: Channel<M>) {
    && c.taken <= c.requests
    && (c.server.Copied? || c.avail > 0 ==> c.requests != [] && c.slot == c.requests[|c.requests| - 1])
  }

  ghost predicate Orderly<M>(flags: seq<bool>, c: Channel<M>) {
    Counted(c) && Closed(flags, c) && ReadInOrder(c)
  }

  // One token moves between the two processes until the closing timeout, and then the client
  // has the one that is left.
  lemma OneToken<M>(flags: seq<bool>, c: Channel<M>)
    requires Counted(c) && Closed(flags, c)
    ensures c.avail + c.signal + One(ClientOwns(c)) + c.dropped <= 1
    ensures c.server.Copying? || c.server.Copied? ==> c.avail == 0 && !ClientOwns(c)
  {
  }

  lemma ReadInOrderServer<M>(flags: seq<bool>, c: Channel<M>, step: Step<M>)
    requires Orderly(flags, c) && step.ByServer() && Next(c, step).Some?
    ensures ReadInOrder(Next(c, step).value)
  {
    OneToken(flags, c);
  }

  lemma ReadInOrderClient<M>(flags: seq<bool>, c: Channel<M>, step: Step<M>)
    requires Orderly(flags, c) && !step.ByServer() && Next(c, step).Some?
    ensures ReadInOrder(Next(c, step).value)
  {
    OneToken(flags, c);
    if step.ClientWakes? { assert |c.taken| == |c.requests| - 1; }
  }

  lemma OrderlyNext<M>(flags: seq<bool>, c: Channel<M>, step: Step<M>)
    requires NoSendAfterTimed(flags) && Orderly(flags, c) && Permitted(flags, c, step) && Next(c, step).Some?
    ensures Orderly(flags, Next(c, step).value)
  {
    CountedNext(c, step);
    ClosedNext(flags, c, step);
    if step.ByServer() { ReadInOrderServer(flags, c, step); } else { ReadInOrderClient(flags, c, step); }
  }

  // --------------------------------------------- what a send, a read and a reply leave behind

  function Sent<M>(c: Channel<M>, m: M): Channel<M> {
    c.(slot := m, avail := c.avail + 1, server := Waiting, requests := c.requests + [m], origin := |c.requests|)
  }

  function Answered<M>(c: Channel<M>, r: M): Channel<M> {
    c.(slot := r, signal := c.signal + 1, client := Away, replies := c.replies + [r], origin := -1)
  }

  function Read<M>(c: Channel<M>): Channel<M>
    requires c.avail > 0
  {
    c.(avail := c.avail - 1, client := Holding, taken := c.taken + [c.slot], origins := c.origins + [c.origin])
  }

  // Between calls, with nothing left over.
  predicate Quiet<M>(c: Channel<M>) {
    c.server.Idle? && c.client.Away? && c.avail == 0 && c.signal == 0
  }
}
