/**
 * The batching consumer. Customer and order events are saved one by one as
 * they arrive; communication-log events are queued in `batchQueue`, the first
 * one arms a 5-second timer, and when the timer fires the whole queue is saved
 * with one `Promise.all`. While that promise is pending the timer is still set,
 * so new events are queued without arming a new window; on success the queue
 * is then emptied (erasing those late events unsaved), on failure it is kept.
 *
 * The transition functions on `State` are the specification; the class
 * `BatchConsumer` holds the same state in fields and updates it in place.
 * The timer firing and the promise settling are explicit events.
 */
module Consumer {

  const CUSTOMER_CHANNEL := "customer_channel"
  const ORDER_CHANNEL := "order_channel"
  const LOG_CHANNEL := "communication_log_channel"

  /** The result of `JSON.parse` on a message payload: a parse error, or a document (given by its text). */
  datatype Message = Malformed | Document(doc: string)

  datatype State = State(
    queue: seq<string>,          // batchQueue
    armed: bool,                 // timer is set (pending, or its callback is running)
    flushing: bool,              // the timer callback is awaiting Promise.all
    inFlight: seq<string>,       // the queue as it was when Promise.all started
    customerSaves: seq<string>,  // handleCustomer calls, in order
    orderSaves: seq<string>,     // handleOrder calls, in order
    batches: seq<seq<string>>,   // the batch of every Promise.all, in order
    saved: seq<string>,          // log documents actually saved, in order
    lost: seq<string>,           // log documents erased from the queue without being saved
    windows: nat)                // how many times the timer was armed

  const Initial := State([], false, false, [], [], [], [], [], [], 0)

  /**
   * The reachable states: a flush is pending only under a set timer and saves
   * a non-empty prefix of the queue; a set timer with no flush pending always
   * has something queued.
   */
  predicate Inv(s: State) {
    (s.flushing ==> s.armed && |s.inFlight| > 0 && s.inFlight <= s.queue) &&
    (!s.flushing ==> s.inFlight == []) &&
    (s.armed && !s.flushing ==> |s.queue| > 0)
  }

  /** The message handler. */
  function Receive(s: State, channel: string, msg: Message): (r: State)
    ensures Inv(s) ==> Inv(r)
    ensures msg.Malformed? || (channel != CUSTOMER_CHANNEL && channel != ORDER_CHANNEL && channel != LOG_CHANNEL) ==> r == s
    ensures channel == CUSTOMER_CHANNEL && msg.Document? ==> r == s.(customerSaves := s.customerSaves + [msg.doc])
    ensures channel == ORDER_CHANNEL && msg.Document? ==> r == s.(orderSaves := s.orderSaves + [msg.doc])
    ensures channel != LOG_CHANNEL ==> r.queue == s.queue && r.armed == s.armed && r.windows == s.windows
    ensures channel == LOG_CHANNEL ==> r.customerSaves == s.customerSaves && r.orderSaves == s.orderSaves
    ensures channel == LOG_CHANNEL && msg.Document? ==> r.queue == s.queue + [msg.doc] && r.armed
    ensures channel == LOG_CHANNEL && msg.Document? && !s.armed ==> r.windows == s.windows + 1
    ensures s.armed ==> r.armed && r.windows == s.windows
    ensures r.flushing == s.flushing && r.inFlight == s.inFlight
    ensures r.batches == s.batches && r.saved == s.saved && r.lost == s.lost
  {
    match msg
    case Malformed => s
    case Document(d) =>
      if channel == CUSTOMER_CHANNEL then s.(customerSaves := s.customerSaves + [d])
      else if channel == ORDER_CHANNEL then s.(orderSaves := s.orderSaves + [d])
      else if channel == LOG_CHANNEL then
        if s.armed then s.(queue := s.queue + [d])
        else s.(queue := s.queue + [d], armed := true, windows := s.windows + 1)
      else s
  }

  /** The timer fires: an empty queue only clears the timer; otherwise the whole queue starts saving. */
  function Fire(s: State): (r: State)
    requires s.armed && !s.flushing
    ensures Inv(s) ==> Inv(r)
    ensures |s.queue| == 0 ==> !r.armed && !r.flushing && r.inFlight == s.inFlight && r.batches == s.batches
    ensures |s.queue| > 0 ==> r.armed && r.flushing && r.inFlight == s.queue && r.batches == s.batches + [s.queue]
    ensures r.queue == s.queue && r.saved == s.saved && r.lost == s.lost && r.windows == s.windows
    ensures r.customerSaves == s.customerSaves && r.orderSaves == s.orderSaves
  {
    if |s.queue| == 0 then s.(armed := false)
    else s.(flushing := true, inFlight := s.queue, batches := s.batches + [s.queue])
  }

  predicate AllTrue(results: seq<bool>) {
    forall i :: 0 <= i < |results| ==> results[i]
  }

  /** The items whose save succeeded, in order. */
  function SavedItems(items: seq<string>, results: seq<bool>): (r: seq<string>)
    requires |results| == |items|
    ensures |r| <= |items|
    ensures AllTrue(results) ==> r == items
    decreases |items|
  {
    if |items| == 0 then []
    else
      var n := |items| - 1;
      SavedItems(items[..n], results[..n]) + (if results[n] then [items[n]] else [])
  }

  /**
   * `Promise.all` settles: the saves that succeeded are in the store; only if
   * all succeeded is the queue emptied, erasing what arrived meanwhile; either
   * way the timer is cleared.
   */
  function Complete(s: State, results: seq<bool>): (r: State)
    requires s.flushing && |results| == |s.inFlight| && s.inFlight <= s.queue
    ensures Inv(r)
    ensures !r.armed && !r.flushing
    ensures r.saved == s.saved + SavedItems(s.inFlight, results)
    ensures AllTrue(results) ==> r.queue == [] && r.lost == s.lost + s.queue[|s.inFlight|..]
    ensures !AllTrue(results) ==> r.queue == s.queue && r.lost == s.lost
    ensures r.batches == s.batches && r.windows == s.windows
    ensures r.customerSaves == s.customerSaves && r.orderSaves == s.orderSaves
  {
    var r := s.(saved := s.saved + SavedItems(s.inFlight, results), armed := false, flushing := false, inFlight := []);
    if AllTrue(results) then r.(queue := [], lost := s.lost + s.queue[|s.inFlight|..])
    else r
  }

  /**
   * A run of communication-log messages. They are appended to the queue in
   * arrival order; the first one on an idle consumer opens the one window,
   * later ones neither re-arm nor flush, and the queue grows without bound
   * (the declared batch size of 10 is never read).
   */
  function ReceiveLogs(s: State, docs: seq<string>): (r: State)
    ensures Inv(s) ==> Inv(r)
    ensures r.queue == s.queue + docs
    ensures r.armed == (s.armed || |docs| > 0)
    ensures r.windows == (if !s.armed && |docs| > 0 then s.windows + 1 else s.windows)
    ensures r.flushing == s.flushing && r.inFlight == s.inFlight
    ensures r.batches == s.batches && r.saved == s.saved && r.lost == s.lost
    decreases |docs|
  {
    if |docs| == 0 then s
    else
      var n := |docs| - 1;
      var prior := ReceiveLogs(s, docs[..n]);
      assert s.queue + docs[..n] + [docs[n]] == s.queue + docs;
      Receive(prior, LOG_CHANNEL, Document(docs[n]))
  }

  // ---------------------------------------------------------------------------
  // Lemmas
  // ---------------------------------------------------------------------------

  /**
   * A partly failed batch: every item whose save succeeded is stored, and
   * nothing is stored that was not a successful save.
   */
  lemma {:induction false} SavedItemsExactly(items: seq<string>, results: seq<bool>)
    requires |results| == |items|
    ensures forall i :: 0 <= i < |items| && results[i] ==> items[i] in SavedItems(items, results)
    ensures forall x :: x in SavedItems(items, results) ==> exists i :: 0 <= i < |items| && results[i] && items[i] == x
    decreases |items|
  {
    if |items| > 0 {
      var n := |items| - 1;
      SavedItemsExactly(items[..n], results[..n]);
      assert forall i :: 0 <= i < n ==> items[..n][i] == items[i] && results[..n][i] == results[i];
    }
  }

  lemma InitialInv()
    ensures Inv(Initial) && !Initial.armed && Initial.queue == []
  {
  }

  /** Under the invariant a set timer never fires on an empty queue: the empty branch is never taken. */
  lemma FireOnNonEmpty(s: State)
    requires Inv(s) && s.armed && !s.flushing
    ensures |s.queue| > 0 && Fire(s).flushing && Fire(s).inFlight == s.queue
  {
  }

  /**
   * Any burst of log messages on an idle consumer is saved by exactly one
   * flush holding all of them, after which the consumer is idle again.
   */
  lemma OneWindowOneFlush(docs: seq<string>, results: seq<bool>)
    requires |docs| > 0 && |results| == |docs| && AllTrue(results)
    ensures var s1 := ReceiveLogs(Initial, docs);
      s1.armed && !s1.flushing && s1.windows == 1 &&
      var s2 := Fire(s1);
      s2.batches == [docs] && s2.flushing && |s2.inFlight| == |results| && s2.inFlight <= s2.queue &&
      var s3 := Complete(s2, results);
      s3.saved == docs && s3.queue == [] && s3.lost == [] && !s3.armed && s3.batches == [docs]
  {
    var s1 := ReceiveLogs(Initial, docs);
    assert s1.queue == docs;
    assert Fire(s1).batches == [docs];
    assert docs[|docs|..] == [];
  }

  /**
   * Log messages that arrive while a flush is pending arm no timer; when the
   * flush then succeeds they are erased from the queue without being saved.
   */
  lemma ArrivalsDuringFlushLost(s: State, docs: seq<string>, results: seq<bool>)
    requires Inv(s) && s.flushing
    requires |results| == |s.inFlight| && AllTrue(results)
    ensures var m := ReceiveLogs(s, docs);
      m.windows == s.windows && m.flushing && m.inFlight == s.inFlight && m.inFlight <= m.queue &&
      var r := Complete(m, results);
      r.queue == [] && r.saved == s.saved + s.inFlight &&
      r.lost == s.lost + s.queue[|s.inFlight|..] + docs
  {
  }

  /**
   * A flush in which any save fails keeps the whole queue, already saved items
   * included; the next log message opens a new window and the next flush saves
   * that whole queue again.
   */
  lemma FailedFlushRetried(s: State, results: seq<bool>, d: string)
    requires Inv(s) && s.flushing
    requires |results| == |s.inFlight| && !AllTrue(results)
    ensures var r := Complete(s, results);
      r.queue == s.queue && !r.armed &&
      var n := Receive(r, LOG_CHANNEL, Document(d));
      n.armed && n.windows == s.windows + 1 && Fire(n).batches == s.batches + [s.queue + [d]]
  {
  }

  /** Concretely: a batch [x, y] in which only x is saved is saved again in full, so x is stored twice. */
  lemma PartialFailureSavesTwice(x: string, y: string, z: string)
    ensures var s1 := Fire(ReceiveLogs(Initial, [x, y]));
      s1.flushing && s1.inFlight == [x, y] &&
      var s2 := Receive(Complete(s1, [true, false]), LOG_CHANNEL, Document(z));
      s2.armed && !s2.flushing &&
      var s3 := Fire(s2);
      s3.flushing && s3.inFlight == [x, y, z] &&
      Complete(s3, [true, true, true]).saved == [x, x, y, z]
  {
  }

  // ---------------------------------------------------------------------------
  // The consumer as a stateful component
  // ---------------------------------------------------------------------------

  class BatchConsumer {
    var batchQueue: seq<string>
    var timer: bool
    var flushing: bool
    var inFlight: seq<string>
    var customerSaves: seq<string>
    var orderSaves: seq<string>
    var batches: seq<seq<string>>
    var saved: seq<string>
    ghost var lost: seq<string>
    ghost var windows: nat

    ghost function Snapshot(): State
      reads this
    {
      State(batchQueue, timer, flushing, inFlight, customerSaves, orderSaves, batches, saved, lost, windows)
    }

    ghost predicate Valid()
      reads this
    {
      Inv(Snapshot())
    }

    constructor ()
      ensures Valid() && Snapshot() == Initial
    {
      batchQueue, timer, flushing, inFlight := [], false, false, [];
      customerSaves, orderSaves, batches, saved := [], [], [], [];
      lost, windows := [], 0;
    }

    /** `redisClient.on("message", ...)`. */
    method OnMessage(channel: string, msg: Message)
      requires Valid()
      modifies this
      ensures Valid() && Snapshot() == Receive(old(Snapshot()), channel, msg)
    {
      if msg.Malformed? {
        return;
      }
      var data := msg.doc;
      if channel == CUSTOMER_CHANNEL {
        customerSaves := customerSaves + [data];
      } else if channel == ORDER_CHANNEL {
        orderSaves := orderSaves + [data];
      } else if channel == LOG_CHANNEL {
        batchQueue := batchQueue + [data];
        if !timer {
          timer := true;
          windows := windows + 1;
        }
      }
    }

    /** The timer callback up to its `await`: `processBatch` starts saving the queue, or finds it empty. */
    method TimerFire()
      requires timer && !flushing
      modifies this
      ensures Snapshot() == Fire(old(Snapshot()))
      ensures old(Valid()) ==> Valid()
    {
      if |batchQueue| > 0 {
        inFlight := batchQueue;
        batches := batches + [batchQueue];
        flushing := true;
      } else {
        timer := false;
      }
    }

    /** The awaited `Promise.all` settles with one result per save; the rest of the callback runs. */
    method FlushComplete(results: seq<bool>)
      requires Valid() && flushing && |results| == |inFlight|
      modifies this
      ensures Valid() && Snapshot() == Complete(old(Snapshot()), results)
    {
      var i := 0;
      var ok := true;
      var stored: seq<string> := [];
      while i < |inFlight|
        invariant 0 <= i <= |inFlight|
        invariant stored == SavedItems(inFlight[..i], results[..i])
        invariant ok == AllTrue(results[..i])
      {
        if results[i] {
          stored := stored + [inFlight[i]];
        } else {
          ok := false;
        }
        assert inFlight[..i + 1][..i] == inFlight[..i] && results[..i + 1][..i] == results[..i];
        i := i + 1;
      }
      assert inFlight[..i] == inFlight && results[..i] == results;
      saved := saved + stored;
      if ok {
        lost := lost + batchQueue[|inFlight|..];
        batchQueue := [];
      }
      timer, flushing, inFlight := false, false, [];
    }
  }
}
