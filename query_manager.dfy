// The server-query dispatcher of the Discord bot
// (bot/src/main/java/org/bestever/serverquery/QueryManager.java): a bounded
// FIFO of query requests and a flag that keeps at most one query in flight.
// The thread's loop is modelled one pass at a time, without its sleep; the
// query handler it starts is reduced to the request handed to it.
module QueryManager {
  import opened Wrappers

  /** MAX_REQUESTS: more pending requests than this means the bot is being flooded. */
  const MaxRequests: nat := 4

  class QueryManager<Request> {
    /** queryRequests, oldest first. */
    var queue: seq<Request>
    var threadTerminate: bool
    var processingQuery: bool

    /** The queue never holds more than MaxRequests requests. */
    predicate Valid()
      reads this
    {
      |queue| <= MaxRequests
    }

    constructor ()
      ensures Valid() && queue == [] && !threadTerminate && !processingQuery
    {
      queue := [];
      threadTerminate := false;
      processingQuery := false;
    }

    /** addRequest: refused when the queue is full, otherwise appended at the tail. */
    method AddRequest(query: Request) returns (added: bool)
      requires Valid()
      modifies this
      ensures Valid()
      ensures added <==> |old(queue)| < MaxRequests
      ensures queue == if added then old(queue) + [query] else old(queue)
      ensures threadTerminate == old(threadTerminate) && processingQuery == old(processingQuery)
    {
      if |queue| >= MaxRequests {
        return false;
      }
      queue := queue + [query];
      added := true;
    }

    /** kill: the loop ends at its next test; the queue stays as it is. */
    method Kill()
      modifies this
      ensures threadTerminate
      ensures queue == old(queue) && processingQuery == old(processingQuery)
    {
      threadTerminate := true;
    }

    /** signalProcessQueryComplete: the query handler is done; the queue stays as it is. */
    method SignalProcessQueryComplete()
      modifies this
      ensures !processingQuery
      ensures queue == old(queue) && threadTerminate == old(threadTerminate)
    {
      processingQuery := false;
    }

    /**
     * processQuery: the oldest request is taken off the queue and handed to
     * a query handler; with nothing to take, the flag is cleared again.
     */
    method ProcessQuery() returns (started: Option<Request>)
      requires Valid()
      modifies this
      ensures Valid()
      ensures |old(queue)| > 0 ==> started == Some(old(queue)[0]) && queue == old(queue)[1..] && processingQuery
      ensures |old(queue)| == 0 ==> started.None? && queue == [] && !processingQuery
      ensures threadTerminate == old(threadTerminate)
    {
      processingQuery := true;
      if |queue| > 0 {
        started := Some(queue[0]);
        queue := queue[1..];
      } else {
        started := None;
        SignalProcessQueryComplete();
      }
    }

    /**
     * One pass of run(): while not terminated, a request is started only
     * when none is in flight and one is waiting.
     */
    method RunStep() returns (looping: bool, started: Option<Request>)
      requires Valid()
      modifies this
      ensures Valid()
      ensures looping <==> !old(threadTerminate)
      ensures started.Some? <==> looping && !old(processingQuery) && |old(queue)| > 0
      ensures started.Some? ==> started.value == old(queue)[0] && queue == old(queue)[1..] && processingQuery
      ensures started.None? ==> queue == old(queue) && processingQuery == old(processingQuery)
      ensures threadTerminate == old(threadTerminate)
    {
      started := None;
      looping := !threadTerminate;
      if looping && !processingQuery && |queue| > 0 {
        started := ProcessQuery();
      }
    }
  }
}
