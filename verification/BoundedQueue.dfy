/** BoundedQueue of srcs/DaphneSlowController.cpp: a monitor with one mutex and two condition
    variables. Everything between taking the lock and giving it up (by returning or by going to
    sleep on a condition variable) is one step; the wait sets are explicit. */
module BoundedQueue {

  datatype Thread = Producer | Consumer

  datatype Queue<T> = Queue(
    capacity: nat, items: seq<T>, closed: bool,
    notEmptyWaiters: set<Thread>, notFullWaiters: set<Thread>)

  datatype PushOutcome = Pushed | Dropped | PushSleeps
  datatype PopOutcome<T> = Popped(item: T) | Drained | PopSleeps

  /** notify_one: some waiter leaves the wait set, if there is one. */
  ghost predicate NotifyOne(before: set<Thread>, after: set<Thread>) {
    if before == {} then after == {} else exists t :: t in before && after == before - {t}
  }

  function PushResult<T>(q: Queue<T>): PushOutcome {
    if |q.items| >= q.capacity && !q.closed then PushSleeps
    else if q.closed then Dropped
    else Pushed
  }

  function PopResult<T>(q: Queue<T>): PopOutcome<T> {
    if q.items == [] && !q.closed then PopSleeps
    else if q.items == [] then Drained
    else Popped(q.items[0])
  }

  /** One pass of thread me through push(item). */
  ghost predicate PushStep<T>(q: Queue<T>, me: Thread, item: T, q': Queue<T>) {
    match PushResult(q)
    case PushSleeps => q' == q.(notFullWaiters := q.notFullWaiters + {me})
    case Dropped => q' == q
    case Pushed =>
      && q' == q.(items := q.items + [item], notEmptyWaiters := q'.notEmptyWaiters)
      && NotifyOne(q.notEmptyWaiters, q'.notEmptyWaiters)
  }

  /** One pass of thread me through pop. */
  ghost predicate PopStep<T>(q: Queue<T>, me: Thread, q': Queue<T>) {
    match PopResult(q)
    case PopSleeps => q' == q.(notEmptyWaiters := q.notEmptyWaiters + {me})
    case Drained => q' == q
    case Popped(_) =>
      && q' == q.(items := q.items[1..], notFullWaiters := q'.notFullWaiters)
      && NotifyOne(q.notFullWaiters, q'.notFullWaiters)
  }

  function Closed<T>(q: Queue<T>): Queue<T> {
    q.(closed := true, notEmptyWaiters := {}, notFullWaiters := {})
  }

  function Woken<T>(q: Queue<T>, t: Thread): Queue<T> {
    q.(notEmptyWaiters := q.notEmptyWaiters - {t}, notFullWaiters := q.notFullWaiters - {t})
  }

  function Asleep<T>(q: Queue<T>): set<Thread> {
    q.notEmptyWaiters + q.notFullWaiters
  }

  /** The monitor object itself. */
  class Monitor<T> {
    const capacity: nat
    var queue: seq<T>
    var closed: bool
    var cvNotEmpty: set<Thread>
    var cvNotFull: set<Thread>

    function View(): Queue<T>
      reads this
    {
      Queue(capacity, queue, closed, cvNotEmpty, cvNotFull)
    }

    constructor (capacity: nat)
      ensures View() == Queue(capacity, [], false, {}, {})
    {
      this.capacity := capacity;
      queue, closed, cvNotEmpty, cvNotFull := [], false, {}, {};
    }

    method Push(me: Thread, item: T) returns (out: PushOutcome)
      modifies this
      ensures out == PushResult(old(View()))
      ensures PushStep(old(View()), me, item, View())
      ensures out.Pushed? <==> |old(queue)| < capacity && !old(closed)
      ensures out.Dropped? <==> old(closed)
      ensures queue == (if out.Pushed? then old(queue) + [item] else old(queue)) && closed == old(closed)
      ensures me in cvNotFull <==> out.PushSleeps? || me in old(cvNotFull)
      ensures out.Pushed? && old(cvNotEmpty) != {} ==> |cvNotEmpty| < |old(cvNotEmpty)|
    {
      if !(|queue| < capacity || closed) {
        cvNotFull := cvNotFull + {me};
        return PushSleeps;
      }
      if closed {
        return Dropped;
      }
      queue := queue + [item];
      cvNotEmpty := PickOne(cvNotEmpty);
      out := Pushed;
    }

    method Pop(me: Thread) returns (out: PopOutcome<T>)
      modifies this
      ensures out == PopResult(old(View()))
      ensures PopStep(old(View()), me, View())
      ensures out.Popped? <==> old(queue) != []
      ensures out.Drained? <==> old(queue) == [] && old(closed)
      ensures if out.Popped? then old(queue) == [out.item] + queue else queue == old(queue)
      ensures closed == old(closed) && (me in cvNotEmpty <==> out.PopSleeps? || me in old(cvNotEmpty))
      ensures out.Popped? && old(cvNotFull) != {} ==> |cvNotFull| < |old(cvNotFull)|
    {
      if !(|queue| != 0 || closed) {
        cvNotEmpty := cvNotEmpty + {me};
        return PopSleeps;
      }
      if closed && |queue| == 0 {
        return Drained;
      }
      out := Popped(queue[0]);
      queue := queue[1..];
      cvNotFull := PickOne(cvNotFull);
    }

    method Close()
      modifies this
      ensures View() == Closed(old(View()))
      ensures closed && queue == old(queue) && cvNotEmpty == {} && cvNotFull == {}
    {
      closed := true;
      cvNotEmpty := {};
      cvNotFull := {};
    }
  }

  lemma SomeoneNotified(waiters: set<Thread>)
    ensures exists rest :: NotifyOne(waiters, rest)
  {
    if waiters == {} {
      assert NotifyOne(waiters, {});
    } else {
      var t :| t in waiters;
      assert NotifyOne(waiters, waiters - {t});
    }
  }

  method PickOne(waiters: set<Thread>) returns (rest: set<Thread>)
    ensures NotifyOne(waiters, rest)
  {
    rest := waiters;
    if waiters != {} {
      var t :| t in waiters;
      rest := waiters - {t};
    }
  }
}
