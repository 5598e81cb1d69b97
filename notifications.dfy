/**
 * The notification queue of script.js:200-246: `show` appends to a FIFO
 * queue and, when no drain is running, starts one; each drain step shows the
 * head of the queue and re-arms a 250 ms timer, or stops the drain when the
 * queue is empty. The timer is an explicit `Tick`.
 */
module Notifications {

  datatype Severity = Info | Success | Error

  datatype Notification = Notification(message: string, severity: Severity)

  /**
   * The queue's state: the pending notifications, whether the drain timer is
   * armed (`timeout` truthy), and the notifications shown so far, oldest
   * first.
   */
  datatype Drain = Drain(queue: seq<Notification>, timerSet: bool, shown: seq<Notification>)
  {
    /** An idle drain has nothing pending. */
    predicate Valid()
    {
      !timerSet ==> queue == []
    }

    /** Everything posted so far, in posting order: what was shown, then what waits. */
    function Log(): seq<Notification>
    {
      shown + queue
    }
  }

  const Idle := Drain([], false, [])

  /** The `process` closure (script.js:233-241): show and drop the head and re-arm, or disarm. */
  function Advance(d: Drain): Drain
  {
    if |d.queue| > 0 then Drain(d.queue[1..], true, d.shown + [d.queue[0]])
    else Drain(d.queue, false, d.shown)
  }

  /** `notifications.show` (script.js:230-244): append, and run `process` at once when no drain is armed. */
  function Enqueue(d: Drain, n: Notification): Drain
  {
    var d' := Drain(d.queue + [n], d.timerSet, d.shown);
    if !d.timerSet then Advance(d') else d'
  }

  /** Posting a notification adds it at the end of the log; the queue stays consistent. */
  lemma EnqueueKeepsOrder(d: Drain, n: Notification)
    requires d.Valid()
    ensures Enqueue(d, n).Valid()
    ensures Enqueue(d, n).Log() == d.Log() + [n]
  {
    if !d.timerSet {
      assert d.queue + [n] == [n];
    }
  }

  /** A timer step neither loses, duplicates nor reorders anything, and shows at most one notification, the head. */
  lemma AdvanceKeepsOrder(d: Drain)
    requires d.Valid()
    ensures Advance(d).Valid()
    ensures Advance(d).Log() == d.Log()
    ensures Advance(d).shown == d.shown + (if d.queue == [] then [] else [d.queue[0]])
    ensures Advance(d).queue == (if d.queue == [] then [] else d.queue[1..])
  {
    if d.queue != [] {
      assert d.queue == [d.queue[0]] + d.queue[1..];
    }
  }

  /** Posting while idle shows the notification at once and arms the timer. */
  lemma IdleEnqueueShows(d: Drain, n: Notification)
    requires d.Valid() && !d.timerSet
    ensures Enqueue(d, n) == Drain([], true, d.shown + [n])
  {
    assert d.queue + [n] == [n];
  }

  /** Posting while a drain is armed only queues: nothing is shown until the next tick. */
  lemma DrainingEnqueueWaits(d: Drain, n: Notification)
    requires d.timerSet
    ensures Enqueue(d, n) == Drain(d.queue + [n], true, d.shown)
  {
  }

  /** The drain disarms exactly when a step finds the queue empty. */
  lemma AdvanceStopsWhenEmpty(d: Drain)
    ensures !Advance(d).timerSet <==> d.queue == []
  {
  }

  /** k timer steps in a row. */
  function Ticks(d: Drain, k: nat): Drain
    decreases k
  {
    if k == 0 then d else Ticks(Advance(d), k - 1)
  }

  /** With no new posts, an armed drain shows the whole queue in order and then disarms. */
  lemma {:induction false} DrainEmptiesQueue(d: Drain)
    requires d.Valid()
    ensures Ticks(d, |d.queue| + 1) == Drain([], false, d.shown + d.queue)
    decreases |d.queue|
  {
    if d.queue == [] {
      assert Ticks(d, 1) == Ticks(Advance(d), 0);
    } else {
      var d' := Advance(d);
      DrainEmptiesQueue(d');
      assert d.shown + d.queue == d'.shown + d'.queue by {
        assert d.queue == [d.queue[0]] + d.queue[1..];
      }
    }
  }

  /** What happens to the queue: a post from a handler, or the timer firing. */
  datatype Event = Post(n: Notification) | TimerFires

  /** The timer only fires while it is armed. */
  function Step(d: Drain, e: Event): Drain
  {
    match e
    case Post(n) => Enqueue(d, n)
    case TimerFires => if d.timerSet then Advance(d) else d
  }

  function Run(d: Drain, es: seq<Event>): Drain
    decreases |es|
  {
    if es == [] then d else Run(Step(d, es[0]), es[1..])
  }

  /** The notifications posted by es, in order. */
  function Posted(es: seq<Event>): seq<Notification>
    decreases |es|
  {
    if es == [] then []
    else (if es[0].Post? then [es[0].n] else []) + Posted(es[1..])
  }

  /**
   * FIFO: in any interleaving of posts and timer steps, the notifications
   * shown followed by those still queued are exactly the ones posted, in
   * posting order; so the ones shown are a prefix of the ones posted.
   */
  lemma {:induction false} RunIsFifo(d: Drain, es: seq<Event>)
    requires d.Valid()
    ensures Run(d, es).Valid()
    ensures Run(d, es).Log() == d.Log() + Posted(es)
    decreases |es|
  {
    if es != [] {
      var d' := Step(d, es[0]);
      if es[0].Post? {
        EnqueueKeepsOrder(d, es[0].n);
      } else if d.timerSet {
        AdvanceKeepsOrder(d);
      }
      RunIsFifo(d', es[1..]);
    }
  }

  lemma ShownIsPrefixOfPosted(es: seq<Event>)
    ensures Run(Idle, es).shown <= Posted(es)
  {
    RunIsFifo(Idle, es);
    var r := Run(Idle, es);
    assert Idle.Log() == [];
    assert r.shown <= r.shown + r.queue;
  }

  /** The module-level closure state of script.js:200-246. */
  class Notifier {
    var queue: seq<Notification>
    var timerSet: bool
    var shown: seq<Notification>

    function State(): Drain
      reads this
    {
      Drain(queue, timerSet, shown)
    }

    predicate Valid()
      reads this
    {
      State().Valid()
    }

    constructor()
      ensures State() == Idle
    {
      queue := [];
      timerSet := false;
      shown := [];
    }

    /** The `process` closure. */
    method Process()
      modifies this
      ensures Valid()
      ensures State() == Advance(old(State()))
    {
      if |queue| > 0 {
        var head := queue[0];
        queue := queue[1..];
        shown := shown + [head];
        timerSet := true;
      } else {
        timerSet := false;
      }
    }

    /** `notifications.show(message, type)`. */
    method Show(message: string, severity: Severity)
      modifies this
      ensures Valid()
      ensures State() == Enqueue(old(State()), Notification(message, severity))
    {
      queue := queue + [Notification(message, severity)];
      if !timerSet {
        Process();
      }
    }

    /** The 250 ms timer firing; it is only pending while armed. */
    method Tick()
      requires timerSet
      modifies this
      ensures Valid()
      ensures State() == Advance(old(State()))
    {
      Process();
    }
  }
}
