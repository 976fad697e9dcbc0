/**
 * The supervisor's queue and bell, run sequentially.
 *
 * `schedule` appends an order to the queue and leaves exactly one wake-up
 * signal in the bell, a channel of capacity one; a ring of the bell takes that
 * signal and drains the queue, front first, into the worker channel, here the
 * sequence `forwarded`. Orders are opaque: the type parameter `T`.
 */
module Supervision {
  import opened Wrappers
  import Workers

  /** Capacity of the bell channel, `make(chan bool, 1)`. */
  const BellCapacity: nat := 1

  /** Pending orders, pending bell signals, and what has been sent to the workers. */
  datatype BellState<T> = BellState(queue: seq<T>, bell: nat, forwarded: seq<T>)

  /** The bell never overflows, and a pending order always has a signal waiting for it. */
  predicate Inv<T>(st: BellState<T>)
  {
    st.bell <= BellCapacity && (st.queue != [] ==> st.bell > 0)
  }

  /**
   * `schedule`: push the order at the back, take a pending signal if there is
   * one (the `select` with a `default`), then post one; the post cannot
   * block, since the slot was just emptied.
   */
  function ScheduleStep<T>(st: BellState<T>, order: T): (r: BellState<T>)
    requires st.bell <= BellCapacity
    ensures r.queue == st.queue + [order] && r.forwarded == st.forwarded
    ensures r.bell == 1
  {
    var silenced := if st.bell > 0 then st.bell - 1 else st.bell;
    assert silenced < BellCapacity;
    st.(queue := st.queue + [order], bell := silenced + 1)
  }

  /** The drain loop on one ring: everything queued goes to the workers, oldest first. */
  function RingStep<T>(st: BellState<T>): BellState<T>
    requires st.bell > 0
  {
    BellState([], st.bell - 1, st.forwarded + st.queue)
  }

  /** The events the supervisor reacts to: a watcher schedules an order, or the bell rings. */
  datatype Event<T> = Schedule(order: T) | Ring

  /** One event; a ring with no pending signal cannot happen (the receive waits), so it changes nothing. */
  function Next<T>(st: BellState<T>, e: Event<T>): (r: BellState<T>)
    requires Inv(st)
    ensures Inv(r)
  {
    match e
    case Schedule(o) => ScheduleStep(st, o)
    case Ring => if st.bell > 0 then RingStep(st) else st
  }

  function Execute<T>(st: BellState<T>, events: seq<Event<T>>): (r: BellState<T>)
    requires Inv(st)
    ensures Inv(r)
    decreases |events|
  {
    if events == [] then st else Execute(Next(st, events[0]), events[1..])
  }

  /** The orders scheduled by `events`, in order. */
  function Scheduled<T>(events: seq<Event<T>>): seq<T>
    decreases |events|
  {
    if events == [] then []
    else (match events[0] case Schedule(o) => [o] case Ring => []) + Scheduled(events[1..])
  }

  /**
   * No order is lost, duplicated or reordered: after any sequence of events,
   * what was forwarded followed by what is still queued is what was there
   * before followed by every order scheduled, and nothing forwarded is taken
   * back.
   */
  lemma {:induction false} NoLostOrders<T>(st: BellState<T>, events: seq<Event<T>>)
    requires Inv(st)
    ensures Execute(st, events).forwarded + Execute(st, events).queue == st.forwarded + st.queue + Scheduled(events)
    ensures st.forwarded <= Execute(st, events).forwarded
    decreases |events|
  {
    if events != [] {
      var next := Next(st, events[0]);
      NoLostOrders(next, events[1..]);
      assert next.forwarded + next.queue ==
             st.forwarded + st.queue + match events[0] case Schedule(o) => [o] case Ring => [];
    }
  }

  /** Starting from an empty supervisor, every scheduled order is forwarded or still queued, in FIFO order. */
  lemma FromStart<T>(events: seq<Event<T>>)
    ensures var r := Execute(BellState([], 0, []), events);
      r.forwarded + r.queue == Scheduled(events) && r.bell <= 1 && (r.queue != [] ==> r.bell == 1)
  {
    NoLostOrders(BellState([], 0, []), events);
  }

  /** Running `a` and then one more event is running that event on the state `a` leaves. */
  lemma {:induction false} ExecuteSnoc<T>(st: BellState<T>, a: seq<Event<T>>, e: Event<T>)
    requires Inv(st)
    ensures Execute(st, a + [e]) == Next(Execute(st, a), e)
    decreases |a|
  {
    if a == [] {
      assert [e][1..] == [];
    } else {
      assert (a + [e])[0] == a[0];
      assert (a + [e])[1..] == a[1..] + [e];
      ExecuteSnoc(Next(st, a[0]), a[1..], e);
    }
  }

  /** Once the last scheduled order has been followed by a ring, every order has been forwarded. */
  lemma RingForwardsAll<T>(st: BellState<T>, events: seq<Event<T>>)
    requires Inv(st)
    ensures Execute(st, events + [Ring]).queue == []
    ensures Execute(st, events + [Ring]).forwarded == st.forwarded + st.queue + Scheduled(events)
  {
    ExecuteSnoc(st, events, Ring);
    NoLostOrders(st, events);
  }

  /** The settings a watcher is created from. */
  datatype Watcher = Watcher(name: string, url: string, branches: seq<string>)

  class Supervisor<T> {
    var repos: map<string, Watcher>
    var workers: seq<Workers.Worker>
    var queue: seq<T>
    var bell: nat
    var forwarded: seq<T>
    /** Every order ever scheduled, oldest first. */
    ghost var scheduled: seq<T>

    function State(): BellState<T>
      reads this
    {
      BellState(queue, bell, forwarded)
    }

    ghost predicate Valid()
      reads this
    {
      Inv(State()) && forwarded + queue == scheduled
    }

    constructor ()
      ensures Valid() && State() == BellState([], 0, []) && scheduled == []
      ensures repos == map[] && workers == []
    {
      repos, workers := map[], [];
      queue, bell, forwarded := [], 0, [];
      scheduled := [];
    }

    /** `schedule`: always returns no error. */
    method Schedule(order: T) returns (err: Option<Error>)
      requires Valid()
      modifies this
      ensures Valid() && State() == ScheduleStep(old(State()), order)
      ensures scheduled == old(scheduled) + [order]
      ensures repos == old(repos) && workers == old(workers)
      ensures err == None
    {
      queue := queue + [order];
      scheduled := scheduled + [order];
      if bell > 0 {
        bell := bell - 1;          // silenced the bell
      }
      assert bell < BellCapacity;  // so the post below does not block
      bell := bell + 1;
      err := None;
    }

    /** One ring of the bell: receive the signal, then drain the queue into the worker channel. */
    method Ring()
      requires Valid() && bell > 0
      modifies this
      ensures Valid() && State() == RingStep(old(State()))
      ensures scheduled == old(scheduled)
      ensures repos == old(repos) && workers == old(workers)
    {
      bell := bell - 1;
      while |queue| > 0
        invariant forwarded + queue == old(forwarded) + old(queue)
        invariant bell == old(bell) - 1 && scheduled == old(scheduled)
        invariant repos == old(repos) && workers == old(workers)
        decreases |queue|
      {
        var order := queue[0];
        queue := queue[1..];
        forwarded := forwarded + [order];
      }
    }
  }

  /** One repository entry of the process configuration. */
  datatype RepoConfig = RepoConfig(name: string, url: string, branches: seq<string>)

  /**
   * `NewSupervisor`: a watcher per configured repository, then `numWorkers`
   * workers. The first watcher that cannot be created fails the whole call.
   */
  method NewSupervisor<T>(repos: seq<RepoConfig>, numWorkers: int, newWatcher: RepoConfig -> Result<Watcher, Error>)
    returns (s: Supervisor?<T>, err: Option<Error>)
    requires forall i, j :: 0 <= i < j < |repos| ==> repos[i].name != repos[j].name
    ensures err.None? <==> forall i :: 0 <= i < |repos| ==> newWatcher(repos[i]).Ok?
    ensures err.Some? ==> s == null
    ensures err.Some? ==>
      exists i :: (0 <= i < |repos| && newWatcher(repos[i]) == Err(err.value) &&
        forall j :: 0 <= j < i ==> newWatcher(repos[j]).Ok?)
    ensures err.None? ==> s != null && fresh(s) && s.Valid() && s.State() == BellState([], 0, [])
    ensures err.None? ==> |s.workers| == (if numWorkers < 0 then 0 else numWorkers)
    ensures err.None? ==> s.repos.Keys == set i | 0 <= i < |repos| :: repos[i].name
    ensures err.None? ==> forall i :: 0 <= i < |repos| ==> s.repos[repos[i].name] == newWatcher(repos[i]).value
  {
    s := new Supervisor();
    for i := 0 to |repos|
      invariant s.Valid() && s.State() == BellState([], 0, []) && s.workers == []
      invariant forall j :: 0 <= j < i ==> newWatcher(repos[j]).Ok?
      invariant s.repos.Keys == set j | 0 <= j < i :: repos[j].name
      invariant forall j :: 0 <= j < i ==> s.repos[repos[j].name] == newWatcher(repos[j]).value
    {
      var w := newWatcher(repos[i]);
      if w.Err? {
        return null, Some(w.error);
      }
      s.repos := s.repos[repos[i].name := w.value];
    }
    var n := 0;
    while n < numWorkers
      invariant s.Valid() && s.State() == BellState([], 0, [])
      invariant 0 <= n <= (if numWorkers < 0 then 0 else numWorkers) && |s.workers| == n
      invariant s.repos.Keys == set j | 0 <= j < |repos| :: repos[j].name
      invariant forall j :: 0 <= j < |repos| ==> s.repos[repos[j].name] == newWatcher(repos[j]).value
    {
      var w := Workers.NewWorker();
      // `NewWorker` cannot fail, so the error check after it never fires
      s.workers := s.workers + [w.value];
      n := n + 1;
    }
    err := None;
  }
}
