/** `MemorySemaphoreManager` of private_gpt/components/concurrency/memory_semaphore_manager.py, without
    close. Between two awaits nothing else runs, so each stretch of code up to an await is one step. A
    worker's `wait_for` runs `queue.get` in a task of its own, so that an entry may have left the queue
    for a while before its worker goes on. */
module SemaphoreManager {
  type Id = nat
  type Func = nat

  datatype Entry = Entry(priority: int, counter: nat, id: Id)

  /** How a request's function ends. `Killed`: with CancelledError, which is no Exception. */
  datatype Outcome = Returned(value: int) | Raised(error: int) | Killed

  datatype Future = Pending | Settled(func: Func, outcome: Outcome) | Cancelled

  /** `Holding`: the entry has been taken from the queue for this worker, which is yet to go on. */
  datatype Worker = Idle | Holding(entry: Entry) | Busy(id: Id, func: Func) | Dead

  /** `withdrawing`: callers that were cancelled and are yet to run on. */
  datatype State = State(
    started: bool, tasks: map<Id, Func>, queue: set<Entry>, workers: seq<Worker>,
    counter: nat, futures: map<Id, Future>, withdrawing: set<Id>)

  /** `max_concurrency or 2`, and as many workers as range gives. */
  function WorkerCount(maxConcurrency: int): (count: nat)
    ensures maxConcurrency > 0 ==> count == maxConcurrency
    ensures maxConcurrency < 0 ==> count == 0
    ensures maxConcurrency == 0 ==> count == 2
  {
    if maxConcurrency == 0 then 2 else if maxConcurrency < 0 then 0 else maxConcurrency
  }

  /** Order of the tuples in the priority queue; counters never repeat. */
  predicate Before(a: Entry, b: Entry) {
    a.priority < b.priority || (a.priority == b.priority && a.counter < b.counter)
  }

  ghost predicate Least(e: Entry, queue: set<Entry>) {
    e in queue && forall o | o in queue :: o == e || Before(e, o)
  }

  datatype Event =
    | Execute(newId: Id, func: Func, priority: int)
    | Dequeue(worker: nat, entry: Entry)
    | Begin(worker: nat)
    | Finish(worker: nat, outcome: Outcome)
    | CancelFuture(id: Id)
    | Withdraw(id: Id)

  ghost predicate Can(s: State, e: Event) {
    match e
    case Execute(id, _, _) => id !in s.futures
    case Dequeue(w, entry) => w < |s.workers| && s.workers[w].Idle? && Least(entry, s.queue)
    case Begin(w) => w < |s.workers| && s.workers[w].Holding?
    case Finish(w, _) => w < |s.workers| && s.workers[w].Busy? && s.workers[w].id in s.futures
    case CancelFuture(id) => id in s.futures
    case Withdraw(id) => id in s.withdrawing
  }

  function Next(s: State, e: Event, maxConcurrency: int): State {
    match e
    case Execute(id, func, priority) =>
      s.(started := true,
         workers := if s.started then s.workers else seq(WorkerCount(maxConcurrency), _ => Idle),
         tasks := s.tasks[id := func], counter := s.counter + 1,
         queue := s.queue + {Entry(priority, s.counter + 1, id)}, futures := s.futures[id := Pending])
    case Dequeue(w, entry) =>
      if w < |s.workers| then s.(queue := s.queue - {entry}, workers := s.workers[w := Holding(entry)]) else s
    case Begin(w) =>
      if w < |s.workers| && s.workers[w].Holding? then
        var id := s.workers[w].entry.id;
        s.(tasks := s.tasks - {id}, workers := s.workers[w := if id in s.tasks then Busy(id, s.tasks[id]) else Idle])
      else s
    case Finish(w, outcome) =>
      if w < |s.workers| && s.workers[w].Busy? then
        var id, func := s.workers[w].id, s.workers[w].func;
        var settles := !outcome.Killed? && id in s.futures && s.futures[id].Pending?;
        s.(workers := s.workers[w := if outcome.Killed? then Dead else Idle],
           futures := if settles then s.futures[id := Settled(func, outcome)] else s.futures)
      else s
    case CancelFuture(id) =>
      s.(withdrawing := s.withdrawing + {id},
         futures := if id in s.futures && s.futures[id].Pending? then s.futures[id := Cancelled] else s.futures)
    case Withdraw(id) => s.(tasks := s.tasks - {id}, withdrawing := s.withdrawing - {id})
  }

  class MemorySemaphoreManager {
    const maxConcurrency: int
    var started: bool
    var tasks: map<Id, Func>
    var queue: set<Entry>
    var workers: seq<Worker>
    var counter: nat
    var futures: map<Id, Future>
    var withdrawing: set<Id>

    function View(): State
      reads this
    {
      State(started, tasks, queue, workers, counter, futures, withdrawing)
    }

    constructor (maxConcurrency: int)
      ensures this.maxConcurrency == maxConcurrency && View() == State(false, map[], {}, [], 0, map[], {})
    {
      this.maxConcurrency := maxConcurrency;
      started, tasks, queue, workers, counter, futures, withdrawing := false, map[], {}, [], 0, map[], {};
    }

    method StartProcessor()
      modifies this`started, this`workers
      ensures started
      ensures workers == if old(started) then old(workers) else seq(WorkerCount(maxConcurrency), _ => Idle)
    {
      if started { return; }
      started := true;
      workers := seq(WorkerCount(maxConcurrency), _ => Idle);
    }

    /** execute, up to awaiting the future. */
    method Execute(id: Id, func: Func, priority: int)
      modifies this
      ensures View() == Next(old(View()), Event.Execute(id, func, priority), maxConcurrency)
    {
      StartProcessor();
      tasks := tasks[id := func];
      futures := futures[id := Pending];
      counter := counter + 1;
      queue := queue + {Entry(priority, counter, id)};
    }

    /** The task of `wait_for` gets the least entry. */
    method Dequeue(w: nat, entry: Entry)
      requires Can(View(), Event.Dequeue(w, entry))
      modifies this
      ensures View() == Next(old(View()), Event.Dequeue(w, entry), maxConcurrency)
    {
      queue := queue - {entry};
      workers := workers[w := Holding(entry)];
    }

    /** The worker goes on with its entry and begins the function, if that is still registered. */
    method Begin(w: nat)
      requires Can(View(), Event.Begin(w))
      modifies this
      ensures View() == Next(old(View()), Event.Begin(w), maxConcurrency)
    {
      var id := workers[w].entry.id;
      if id in tasks {
        workers := workers[w := Busy(id, tasks[id])];
      } else {
        workers := workers[w := Idle];
      }
      tasks := tasks - {id};
    }

    /** The function ends, and the future is settled unless it already is. */
    method Finish(w: nat, outcome: Outcome)
      requires Can(View(), Event.Finish(w, outcome))
      modifies this
      ensures View() == Next(old(View()), Event.Finish(w, outcome), maxConcurrency)
    {
      var id, func := workers[w].id, workers[w].func;
      if outcome.Killed? {
        workers := workers[w := Dead];
      } else {
        if futures[id].Pending? {
          futures := futures[id := Settled(func, outcome)];
        }
        workers := workers[w := Idle];
      }
    }

    /** The caller of execute is cancelled, and with it the future it awaits. */
    method CancelFuture(id: Id)
      requires Can(View(), Event.CancelFuture(id))
      modifies this
      ensures View() == Next(old(View()), Event.CancelFuture(id), maxConcurrency)
    {
      if futures[id].Pending? {
        futures := futures[id := Cancelled];
      }
      withdrawing := withdrawing + {id};
    }

    /** The cancelled caller runs on and withdraws its function, unless it has begun. */
    method Withdraw(id: Id)
      requires Can(View(), Event.Withdraw(id))
      modifies this
      ensures View() == Next(old(View()), Event.Withdraw(id), maxConcurrency)
    {
      tasks := tasks - {id};
      withdrawing := withdrawing - {id};
    }
  }

  /* Runs, with what happened so far. */

  datatype Request = Request(func: Func, entry: Entry)

  /** `taken`: entries dequeued; `starts`: requests begun; `killed`: those whose function ended with
      CancelledError; each in order. */
  datatype World = World(s: State, requests: map<Id, Request>, taken: seq<Entry>, starts: seq<Id>, killed: seq<Id>)

  function Initial(): World {
    World(State(false, map[], {}, [], 0, map[], {}), map[], [], [], [])
  }

  /** The request that event e begins, if any. */
  predicate Begins(s: State, e: Event) {
    e.Begin? && e.worker < |s.workers| && s.workers[e.worker].Holding? && s.workers[e.worker].entry.id in s.tasks
  }

  function Step(w: World, e: Event, n: int): World {
    var t := w.(s := Next(w.s, e, n));
    match e
    case Execute(id, func, priority) =>
      t.(requests := w.requests[id := Request(func, Entry(priority, w.s.counter + 1, id))])
    case Dequeue(_, entry) => t.(taken := w.taken + [entry])
    case Begin(i) => if Begins(w.s, e) then t.(starts := w.starts + [w.s.workers[i].entry.id]) else t
    case Finish(i, outcome) =>
      if outcome.Killed? && i < |w.s.workers| && w.s.workers[i].Busy? then t.(killed := w.killed + [w.s.workers[i].id])
      else t
    case _ => t
  }

  ghost predicate CanRun(w: World, es: seq<Event>, n: int)
    decreases |es|
  {
    es == [] || (Can(w.s, es[0]) && CanRun(Step(w, es[0], n), es[1..], n))
  }

  function Run(w: World, es: seq<Event>, n: int): World
    decreases |es|
  {
    if es == [] then w else Run(Step(w, es[0], n), es[1..], n)
  }

  /* Invariants. */

  ghost predicate IsRunning(s: State, id: Id) {
    exists k :: 0 <= k < |s.workers| && s.workers[k].Busy? && s.workers[k].id == id
  }

  ghost predicate SomeHolds(workers: seq<Worker>, e: Entry) {
    exists k :: 0 <= k < |workers| && workers[k] == Holding(e)
  }

  ghost predicate IsHeld(s: State, e: Entry) {
    SomeHolds(s.workers, e)
  }

  /** Queue entries are those of requests, numbered by arrival. */
  ghost predicate Queued(w: World) {
    && w.s.futures.Keys == w.requests.Keys
    && (forall e | e in w.s.queue :: e.id in w.requests && w.requests[e.id].entry == e)
    && (forall i | i in w.requests :: w.requests[i].entry.id == i && w.requests[i].entry.counter <= w.s.counter)
    && (forall i, j | i in w.requests && j in w.requests && i != j ::
          w.requests[i].entry.counter != w.requests[j].entry.counter)
  }

  ghost predicate HeldOut(w: World, e: Entry) {
    e.id in w.requests && w.requests[e.id].entry == e && e !in w.s.queue && e.id !in w.starts
  }

  /** An entry a worker holds has left the queue, is not begun, and no other worker holds it. */
  ghost predicate HeldApart(w: World) {
    && (forall k | 0 <= k < |w.s.workers| && w.s.workers[k].Holding? :: HeldOut(w, w.s.workers[k].entry))
    && (forall k, l | 0 <= k < l < |w.s.workers| && w.s.workers[k].Holding? && w.s.workers[l].Holding? ::
          w.s.workers[k].entry != w.s.workers[l].entry)
  }

  /** A registered function is the one requested; its entry is queued or held, it is not begun, and its
      future is pending unless its caller is about to withdraw it. */
  ghost predicate InOrder(w: World, i: Id)
    requires i in w.s.tasks
  {
    && i in w.requests && i in w.s.futures
    && w.s.tasks[i] == w.requests[i].func && i !in w.starts
    && (w.requests[i].entry in w.s.queue || IsHeld(w.s, w.requests[i].entry))
    && (w.s.futures[i].Pending? || i in w.s.withdrawing)
  }

  ghost predicate Registered(w: World) {
    forall i | i in w.s.tasks :: InOrder(w, i)
  }

  ghost predicate WithdrawsSettled(w: World) {
    forall i | i in w.s.withdrawing :: i in w.s.futures && !w.s.futures[i].Pending?
  }

  /** What was begun has left the queue, and was begun once. */
  ghost predicate BegunOnce(w: World) {
    && (forall i | i in w.starts :: i in w.requests && w.requests[i].entry !in w.s.queue)
    && (forall a, b | 0 <= a < b < |w.starts| :: w.starts[a] != w.starts[b])
  }

  ghost predicate RunsOwn(w: World, k: nat)
    requires k < |w.s.workers| && w.s.workers[k].Busy?
  {
    var id := w.s.workers[k].id;
    && id in w.starts && id in w.requests && w.s.workers[k].func == w.requests[id].func
    && id in w.s.futures && !w.s.futures[id].Settled?
  }

  /** Each busy worker runs the function of its own request, whose future is not settled yet. */
  ghost predicate Running(w: World) {
    && (forall k | 0 <= k < |w.s.workers| && w.s.workers[k].Busy? :: RunsOwn(w, k))
    && (forall k, l | 0 <= k < l < |w.s.workers| && w.s.workers[k].Busy? && w.s.workers[l].Busy? ::
          w.s.workers[k].id != w.s.workers[l].id)
  }

  /** A pending request waits with its function registered, or runs, or was killed; a settled one got its
      own outcome. */
  ghost predicate Accounted(w: World) {
    forall i | i in w.s.futures && i in w.requests ::
      match w.s.futures[i]
      case Pending => i in w.s.tasks || IsRunning(w.s, i) || i in w.killed
      case Settled(func, outcome) => func == w.requests[i].func && i in w.starts && !outcome.Killed?
      case Cancelled => true
  }

  /** A killed request is over, and yet its future is not settled. */
  ghost predicate KilledForEver(w: World) {
    forall i | i in w.killed ::
      i in w.starts && i in w.s.futures && !w.s.futures[i].Settled? && !IsRunning(w.s, i)
  }

  function Deads(workers: seq<Worker>): nat {
    if workers == [] then 0 else (if workers[0].Dead? then 1 else 0) + Deads(workers[1..])
  }

  ghost predicate Staffed(w: World, n: int) {
    && (w.s.started ==> |w.s.workers| == WorkerCount(n))
    && (!w.s.started ==> w.s.workers == [] && w.requests == map[] && w.killed == [])
    && Deads(w.s.workers) == |w.killed|
  }

  ghost predicate Inv(w: World, n: int) {
    && Queued(w) && HeldApart(w) && Registered(w) && WithdrawsSettled(w) && BegunOnce(w) && Running(w)
    && Accounted(w) && KilledForEver(w) && Staffed(w, n)
  }

  lemma {:induction false} DeadsOfIdle(workers: seq<Worker>)
    requires forall k | 0 <= k < |workers| :: workers[k].Idle?
    ensures Deads(workers) == 0
  {
    if workers != [] { DeadsOfIdle(workers[1..]); }
  }

  lemma {:induction false} DeadsUpdate(workers: seq<Worker>, k: nat, x: Worker)
    requires k < |workers|
    ensures Deads(workers[k := x]) == Deads(workers) - (if workers[k].Dead? then 1 else 0) + (if x.Dead? then 1 else 0)
  {
    if k == 0 {
      assert workers[0 := x][1..] == workers[1..];
    } else {
      assert workers[k := x][1..] == workers[1..][k - 1 := x];
      DeadsUpdate(workers[1..], k - 1, x);
    }
  }

  /** A worker that runs or holds something still does, unless the step is its own. */
  lemma OthersGoOn(s: State, e: Event, n: int, k: nat)
    requires Can(s, e) && k < |s.workers| && s.started
    requires !(e.Dequeue? || e.Begin? || e.Finish?) || e.worker != k
    ensures k < |Next(s, e, n).workers| && Next(s, e, n).workers[k] == s.workers[k]
  {
  }

  lemma StillRunning(w: World, e: Event, n: int, i: Id)
    requires Staffed(w, n) && Can(w.s, e) && IsRunning(w.s, i)
    requires e.Finish? ==> w.s.workers[e.worker].id != i
    ensures IsRunning(Next(w.s, e, n), i)
  {
    var k :| 0 <= k < |w.s.workers| && w.s.workers[k].Busy? && w.s.workers[k].id == i;
    OthersGoOn(w.s, e, n, k);
  }

  lemma StillHeld(w: World, e: Event, n: int, x: Entry)
    requires Staffed(w, n) && Can(w.s, e) && IsHeld(w.s, x)
    requires e.Begin? ==> w.s.workers[e.worker] != Holding(x)
    ensures IsHeld(Next(w.s, e, n), x)
  {
    var k :| 0 <= k < |w.s.workers| && w.s.workers[k] == Holding(x);
    OthersGoOn(w.s, e, n, k);
  }

  /** A worker that holds an entry did so before, or has just been given it. */
  lemma HeldBefore(w: World, e: Event, n: int, k: nat)
    requires Can(w.s, e) && Staffed(w, n)
    requires k < |Next(w.s, e, n).workers| && Next(w.s, e, n).workers[k].Holding?
    ensures k < |w.s.workers|
    ensures
      || (Next(w.s, e, n).workers[k] == w.s.workers[k] && (e.Begin? ==> e.worker != k))
      || e == Dequeue(k, Next(w.s, e, n).workers[k].entry)
  {
    hide Deads;
  }

  lemma QueuedStep(w: World, e: Event, n: int)
    requires Queued(w) && Can(w.s, e)
    ensures Queued(Step(w, e, n))
  {
    if !e.Execute? {
      QueueShrinks(w, e, n);
    }
  }

  lemma QueueShrinks(w: World, e: Event, n: int)
    requires Can(w.s, e) && !e.Execute?
    ensures var t := Step(w, e, n);
            && t.requests == w.requests && t.s.counter == w.s.counter && t.s.queue <= w.s.queue
            && t.s.futures.Keys == w.s.futures.Keys
  {
  }

  lemma GoneStep(w: World, e: Event, n: int, gone: Entry)
    requires Can(w.s, e) && gone.counter <= w.s.counter && gone !in w.s.queue
    ensures gone.counter <= Step(w, e, n).s.counter && gone !in Step(w, e, n).s.queue
  {
  }

  lemma HeldOutStep(w: World, e: Event, n: int, x: Entry)
    requires Queued(w) && HeldApart(w) && BegunOnce(w) && Can(w.s, e)
    requires IsHeld(w.s, x) || (e.Dequeue? && e.entry == x)
    requires e.Begin? ==> w.s.workers[e.worker] != Holding(x)
    ensures HeldOut(Step(w, e, n), x)
  {
    if e.Dequeue? && e.entry == x {
      assert x in w.s.queue && x !in Next(w.s, e, n).queue;
    } else {
      assert HeldOut(w, x);
      hide HeldOut;
      RequestKept(w, e, n, x.id);
      GoneStep(w, e, n, x);
      NotBegunNow(w, e, n, x);
    }
  }

  lemma NotBegunNow(w: World, e: Event, n: int, x: Entry)
    requires HeldApart(w) && HeldOut(w, x) && Can(w.s, e)
    requires e.Begin? ==> w.s.workers[e.worker] != Holding(x)
    ensures x.id !in Step(w, e, n).starts
  {
    if e.Begin? {
      assert HeldOut(w, w.s.workers[e.worker].entry);
    }
  }

  lemma HeldApartStep(w: World, e: Event, n: int)
    requires Queued(w) && HeldApart(w) && BegunOnce(w) && Staffed(w, n) && Can(w.s, e)
    ensures HeldApart(Step(w, e, n))
  {
    var t := Step(w, e, n);
    forall k | 0 <= k < |t.s.workers| && t.s.workers[k].Holding? ensures HeldOut(t, t.s.workers[k].entry) {
      HeldBefore(w, e, n, k);
      HeldOutStep(w, e, n, t.s.workers[k].entry);
    }
    forall k, l | 0 <= k < l < |t.s.workers| && t.s.workers[k].Holding? && t.s.workers[l].Holding?
      ensures t.s.workers[k].entry != t.s.workers[l].entry
    {
      hide Next;
      HeldBefore(w, e, n, k);
      HeldBefore(w, e, n, l);
    }
  }

  lemma RequestKept(w: World, e: Event, n: int, i: Id)
    requires Can(w.s, e) && w.s.futures.Keys == w.requests.Keys && i in w.requests
    ensures i in Step(w, e, n).requests && Step(w, e, n).requests[i] == w.requests[i]
  {
  }

  lemma UnsettledStays(w: World, e: Event, n: int, i: Id)
    requires Can(w.s, e) && i in w.s.futures && !w.s.futures[i].Settled?
    requires e.Finish? ==> w.s.workers[e.worker].id != i
    ensures i in Step(w, e, n).s.futures && !Step(w, e, n).s.futures[i].Settled?
  {
  }

  /** A registered function stays so, unless it is begun or withdrawn now. */
  lemma RegisteredStays(w: World, e: Event, n: int, i: Id)
    requires Can(w.s, e) && i in w.s.tasks && i in w.s.futures && i in Step(w, e, n).s.tasks && i !in w.starts
    requires w.s.futures[i].Pending? || i in w.s.withdrawing
    requires e.Finish? ==> w.s.workers[e.worker].id != i
    ensures Step(w, e, n).s.tasks[i] == w.s.tasks[i] && i in Step(w, e, n).s.futures && i !in Step(w, e, n).starts
    ensures Step(w, e, n).s.futures[i].Pending? || i in Step(w, e, n).s.withdrawing
  {
  }

  /** Its entry stays in the queue or in a worker's hands. */
  lemma QueuedOrHeldStays(w: World, e: Event, n: int, x: Entry)
    requires Can(w.s, e) && Staffed(w, n) && (x in w.s.queue || IsHeld(w.s, x))
    requires e.Begin? ==> w.s.workers[e.worker] != Holding(x)
    ensures x in Next(w.s, e, n).queue || IsHeld(Next(w.s, e, n), x)
  {
    if IsHeld(w.s, x) {
      StillHeld(w, e, n, x);
    } else if e.Dequeue? && e.entry == x {
      assert Next(w.s, e, n).workers[e.worker] == Holding(x);
    }
  }

  lemma RegisteredStep(w: World, e: Event, n: int)
    requires Queued(w) && HeldApart(w) && Registered(w) && BegunOnce(w) && Running(w) && Staffed(w, n) && Can(w.s, e)
    ensures Registered(Step(w, e, n))
  {
    var t := Step(w, e, n);
    forall i | i in t.s.tasks ensures InOrder(t, i) {
      if i in w.s.futures {
        InOrderStep(w, e, n, i);
      } else {
        NewInOrder(w, e, n, i);
      }
    }
  }

  lemma InOrderStep(w: World, e: Event, n: int, i: Id)
    requires Queued(w) && HeldApart(w) && Registered(w) && Running(w) && Staffed(w, n) && Can(w.s, e)
    requires i in w.s.futures && i in Step(w, e, n).s.tasks
    ensures InOrder(Step(w, e, n), i)
  {
    hide IsHeld, Staffed;
    assert i in w.s.tasks && InOrder(w, i) && !(e.Begin? && w.s.workers[e.worker].entry.id == i);
    assert e.Finish? ==> RunsOwn(w, e.worker);
    hide Next, Can, HeldApart, Running;
    RequestKept(w, e, n, i);
    RegisteredStays(w, e, n, i);
    QueuedOrHeldStays(w, e, n, w.requests[i].entry);
  }

  lemma NewInOrder(w: World, e: Event, n: int, i: Id)
    requires Queued(w) && Registered(w) && BegunOnce(w) && Can(w.s, e)
    requires i !in w.s.futures && i in Step(w, e, n).s.tasks
    ensures InOrder(Step(w, e, n), i)
  {
    hide IsHeld;
    assert i !in w.s.tasks by {
      assert i in w.s.tasks ==> InOrder(w, i);
    }
  }

  lemma BegunOnceStep(w: World, e: Event, n: int)
    requires Queued(w) && HeldApart(w) && Registered(w) && BegunOnce(w) && Can(w.s, e)
    ensures BegunOnce(Step(w, e, n))
  {
    hide IsHeld;
    var t := Step(w, e, n);
    if Begins(w.s, e) {
      var x := w.s.workers[e.worker].entry;
      assert HeldOut(w, x) && t.starts == w.starts + [x.id];
    } else {
      forall i | i in w.starts ensures i in t.requests && t.requests[i].entry !in t.s.queue {
        RequestKept(w, e, n, i);
        GoneStep(w, e, n, w.requests[i].entry);
      }
      StartsOnlyByBegin(w, e, n);
    }
  }

  lemma StartsOnlyByBegin(w: World, e: Event, n: int)
    requires !Begins(w.s, e)
    ensures Step(w, e, n).starts == w.starts
  {
  }

  lemma WithdrawsStep(w: World, e: Event, n: int)
    requires WithdrawsSettled(w) && Can(w.s, e)
    ensures WithdrawsSettled(Step(w, e, n))
  {
  }

  lemma RunningStep(w: World, e: Event, n: int)
    requires Queued(w) && HeldApart(w) && Registered(w) && Running(w) && Accounted(w) && Staffed(w, n) && Can(w.s, e)
    ensures Running(Step(w, e, n))
  {
    var t := Step(w, e, n);
    forall k | 0 <= k < |t.s.workers| && t.s.workers[k].Busy? ensures RunsOwn(t, k) {
      RunsOwnStep(w, e, n, k);
    }
    forall k, l | 0 <= k < l < |t.s.workers| && t.s.workers[k].Busy? && t.s.workers[l].Busy?
      ensures t.s.workers[k].id != t.s.workers[l].id
    {
      BusyApart(w, e, n, k, l);
    }
  }

  /** A worker that runs something did so before, or has just begun it. */
  lemma RanBefore(w: World, e: Event, n: int, k: nat)
    requires Can(w.s, e) && Staffed(w, n)
    requires k < |Next(w.s, e, n).workers| && Next(w.s, e, n).workers[k].Busy?
    ensures k < |w.s.workers|
    ensures Next(w.s, e, n).workers[k] == w.s.workers[k] || (e == Begin(k) && Begins(w.s, e))
  {
    hide Deads;
  }

  lemma BusyApart(w: World, e: Event, n: int, k: nat, l: nat)
    requires Registered(w) && Running(w) && Staffed(w, n) && Can(w.s, e)
    requires k < l < |Next(w.s, e, n).workers|
    requires Next(w.s, e, n).workers[k].Busy? && Next(w.s, e, n).workers[l].Busy?
    ensures Next(w.s, e, n).workers[k].id != Next(w.s, e, n).workers[l].id
  {
    hide IsHeld, Deads;
    RanBefore(w, e, n, k);
    RanBefore(w, e, n, l);
    if Begins(w.s, e) {
      assert InOrder(w, w.s.workers[e.worker].entry.id);
    }
  }

  lemma RunsOwnStep(w: World, e: Event, n: int, k: nat)
    requires Queued(w) && HeldApart(w) && Registered(w) && Running(w) && Accounted(w) && Staffed(w, n) && Can(w.s, e)
    requires k < |Step(w, e, n).s.workers| && Step(w, e, n).s.workers[k].Busy?
    ensures RunsOwn(Step(w, e, n), k)
  {
    hide IsHeld, IsRunning, Staffed;
    RanBefore(w, e, n, k);
    if e == Begin(k) && Begins(w.s, e) {
      BegunRunsOwn(w, n, k);
    } else {
      assert RunsOwn(w, k);
      OthersRunOn(w, e, n, k);
    }
  }

  lemma OthersRunOn(w: World, e: Event, n: int, k: nat)
    requires Can(w.s, e) && Running(w) && w.s.futures.Keys == w.requests.Keys
    requires k < |w.s.workers| && w.s.workers[k].Busy?
    requires k < |Next(w.s, e, n).workers| && Next(w.s, e, n).workers[k] == w.s.workers[k]
    ensures RunsOwn(Step(w, e, n), k)
  {
    var id := w.s.workers[k].id;
    assert RunsOwn(w, k);
    assert w.starts <= Step(w, e, n).starts;
    assert e.Finish? ==> w.s.workers[e.worker].id != id;
    hide Next, Can, Running;
    RequestKept(w, e, n, id);
    UnsettledStays(w, e, n, id);
  }

  lemma BegunRunsOwn(w: World, n: int, k: nat)
    requires HeldApart(w) && Registered(w) && Accounted(w)
    requires Can(w.s, Begin(k)) && Begins(w.s, Begin(k))
    ensures k < |Step(w, Begin(k), n).s.workers| && Step(w, Begin(k), n).s.workers[k].Busy?
    ensures RunsOwn(Step(w, Begin(k), n), k)
  {
    hide IsHeld, IsRunning;
    var id := w.s.workers[k].entry.id;
    assert InOrder(w, id);
    assert Step(w, Begin(k), n).starts[|w.starts|] == id;
  }

  lemma SettledStep(w: World, e: Event, n: int, i: Id)
    requires Queued(w) && Running(w) && Accounted(w) && Can(w.s, e)
    requires i in Next(w.s, e, n).futures && Next(w.s, e, n).futures[i].Settled?
    ensures i in w.requests && i in w.starts && !Next(w.s, e, n).futures[i].outcome.Killed?
    ensures Next(w.s, e, n).futures[i].func == w.requests[i].func
  {
    hide IsRunning;
    if i in w.s.futures && w.s.futures[i].Pending? {
      assert RunsOwn(w, e.worker);
    }
  }

  lemma AccountedStep(w: World, e: Event, n: int)
    requires Queued(w) && Running(w) && Accounted(w) && WithdrawsSettled(w) && Staffed(w, n) && Can(w.s, e)
    ensures Accounted(Step(w, e, n))
  {
    hide IsRunning, Queued, Running, WithdrawsSettled, Staffed, Can, Next;
    var t := Step(w, e, n);
    forall i | i in t.s.futures && t.s.futures[i].Pending? && i !in t.s.tasks && i !in t.killed
      ensures IsRunning(t.s, i)
    {
      PendingStep(w, e, n, i);
    }
    forall i | i in t.s.futures && t.s.futures[i].Settled?
      ensures i in t.starts && i in t.requests && !t.s.futures[i].outcome.Killed?
      ensures t.s.futures[i].func == t.requests[i].func
    {
      SettledStep(w, e, n, i);
      KeysMatch(w);
      RequestKept(w, e, n, i);
    }
  }

  lemma KeysMatch(w: World)
    requires Queued(w)
    ensures w.s.futures.Keys == w.requests.Keys
  {
  }

  lemma KilledNow(w: World, e: Event, n: int)
    requires e.Finish? && e.outcome.Killed? && Can(w.s, e)
    ensures w.s.workers[e.worker].id in Step(w, e, n).killed
  {
    assert Step(w, e, n).killed[|w.killed|] == w.s.workers[e.worker].id;
  }

  lemma PendingStep(w: World, e: Event, n: int, i: Id)
    requires Queued(w) && Accounted(w) && WithdrawsSettled(w) && Staffed(w, n) && Can(w.s, e)
    requires var t := Step(w, e, n); i in t.s.futures && t.s.futures[i].Pending? && i !in t.s.tasks && i !in t.killed
    ensures IsRunning(Next(w.s, e, n), i)
  {
    var t := Step(w, e, n);
    if e.Finish? && w.s.workers[e.worker].id == i {
      KilledNow(w, e, n);
    } else if i in w.s.tasks {
      assert e.Begin? && t.s.workers[e.worker] == Busy(i, w.s.tasks[i]);
    } else {
      StillRunning(w, e, n, i);
    }
  }

  lemma KilledForEverStep(w: World, e: Event, n: int)
    requires Registered(w) && Running(w) && KilledForEver(w) && Staffed(w, n) && Can(w.s, e)
    ensures KilledForEver(Step(w, e, n))
  {
    var t := Step(w, e, n);
    forall i | i in t.killed
      ensures i in t.starts && i in t.s.futures && !t.s.futures[i].Settled? && !IsRunning(t.s, i)
    {
      if i in w.killed {
        hide IsHeld, Deads;
        OverStays(w, e, n, i);
      } else {
        hide IsHeld, Deads;
        assert e.Finish? && w.s.workers[e.worker].id == i && e.outcome.Killed?;
      }
    }
  }

  /** A request that was begun, is not running and not settled stays so. */
  lemma OverStays(w: World, e: Event, n: int, i: Id)
    requires Registered(w) && Running(w) && Staffed(w, n) && Can(w.s, e)
    requires i in w.starts && i in w.s.futures && !w.s.futures[i].Settled? && !IsRunning(w.s, i)
    ensures i in Step(w, e, n).starts && !IsRunning(Step(w, e, n).s, i)
    ensures i in Step(w, e, n).s.futures && !Step(w, e, n).s.futures[i].Settled?
  {
    hide IsHeld, Deads;
    var t := Step(w, e, n);
    forall k | 0 <= k < |t.s.workers| && t.s.workers[k].Busy? ensures t.s.workers[k].id != i {
      RanBefore(w, e, n, k);
      if Begins(w.s, e) {
        assert InOrder(w, w.s.workers[e.worker].entry.id);
      }
    }
  }

  lemma StaffedStep(w: World, e: Event, n: int)
    requires Inv(w, n) && Can(w.s, e)
    ensures Staffed(Step(w, e, n), n)
  {
    var t := Step(w, e, n);
    if e.Execute? {
      if !w.s.started { DeadsOfIdle(t.s.workers); }
    } else if e.Dequeue? || e.Begin? || e.Finish? {
      DeadsUpdate(w.s.workers, e.worker, t.s.workers[e.worker]);
    }
  }

  lemma InvStep(w: World, e: Event, n: int)
    requires Inv(w, n) && Can(w.s, e)
    ensures Inv(Step(w, e, n), n)
  {
    hide Queued, HeldApart, Registered, WithdrawsSettled, BegunOnce, Running, Accounted, KilledForEver, Staffed;
    hide Can, Step;
    QueuedStep(w, e, n);
    HeldApartStep(w, e, n);
    RegisteredStep(w, e, n);
    BegunOnceStep(w, e, n);
    WithdrawsStep(w, e, n);
    RunningStep(w, e, n);
    AccountedStep(w, e, n);
    KilledForEverStep(w, e, n);
    StaffedStep(w, e, n);
  }

  lemma {:induction false} InvOverRuns(w: World, es: seq<Event>, n: int)
    requires Inv(w, n) && CanRun(w, es, n)
    ensures Inv(Run(w, es, n), n)
    decreases |es|
  {
    hide Inv, Can, Step;
    if es != [] {
      InvStep(w, es[0], n);
      InvOverRuns(Step(w, es[0], n), es[1..], n);
    }
  }

  lemma InitiallyInv(n: int)
    ensures Inv(Initial(), n)
  {
  }

  /* What holds in every run. */

  /** In every run each request is begun at most once, at most as many run as there are workers, and a
      settled future holds the outcome of its own request's function, begun before. */
  lemma BegunOnceAndOwnOutcome(es: seq<Event>, n: int)
    requires CanRun(Initial(), es, n)
    ensures var w := Run(Initial(), es, n);
            && (forall a, b | 0 <= a < b < |w.starts| :: w.starts[a] != w.starts[b])
            && |w.s.workers| <= WorkerCount(n)
            && (forall i | i in w.requests :: i in w.s.futures
                 && (w.s.futures[i].Settled? ==> w.s.futures[i].func == w.requests[i].func && i in w.starts))
  {
    InitiallyInv(n);
    InvOverRuns(Initial(), es, n);
  }

  /** No request is forgotten: one whose future is pending has its function registered and its entry in
      the queue or held by a worker, or runs, or its function ended with CancelledError. */
  lemma NoRequestForgotten(es: seq<Event>, n: int)
    requires CanRun(Initial(), es, n)
    ensures var w := Run(Initial(), es, n);
            forall i | i in w.s.futures && w.s.futures[i].Pending? ::
              || (i in w.s.tasks && i in w.requests
                  && (w.requests[i].entry in w.s.queue || IsHeld(w.s, w.requests[i].entry)))
              || IsRunning(w.s, i) || i in w.killed
  {
    InitiallyInv(n);
    InvOverRuns(Initial(), es, n);
    var w := Run(Initial(), es, n);
    forall i | i in w.s.futures && w.s.futures[i].Pending? ensures i in w.requests {
    }
  }

  /** A request whose function ended with CancelledError is never settled, run or registered again, and
      each has cost one worker for good. */
  lemma KilledIsLost(es: seq<Event>, n: int)
    requires CanRun(Initial(), es, n)
    ensures var w := Run(Initial(), es, n);
            && (forall i | i in w.killed ::
                  i in w.s.futures && !w.s.futures[i].Settled? && !IsRunning(w.s, i) && i !in w.s.tasks)
            && Deads(w.s.workers) == |w.killed|
  {
    InitiallyInv(n);
    InvOverRuns(Initial(), es, n);
  }

  lemma {:induction false} KilledStays(w: World, es: seq<Event>, n: int)
    requires CanRun(w, es, n)
    ensures w.killed <= Run(w, es, n).killed
    decreases |es|
  {
    if es != [] {
      KilledStays(Step(w, es[0], n), es[1..], n);
    }
  }

  /** And so it stays, whatever comes after. */
  lemma KilledNeverComesBack(w: World, es: seq<Event>, n: int, id: Id)
    requires Inv(w, n) && CanRun(w, es, n) && id in w.killed
    ensures var s := Run(w, es, n).s;
            id in s.futures && !s.futures[id].Settled? && !IsRunning(s, id) && id !in s.tasks
  {
    InvOverRuns(w, es, n);
    KilledStays(w, es, n);
    assert id in Run(w, es, n).killed;
  }

  /** Once settled or cancelled, a future never changes. */
  lemma {:induction false} SettledOnce(w: World, es: seq<Event>, n: int, id: Id)
    requires CanRun(w, es, n) && id in w.s.futures && !w.s.futures[id].Pending?
    ensures id in Run(w, es, n).s.futures && Run(w, es, n).s.futures[id] == w.s.futures[id]
    decreases |es|
  {
    if es != [] {
      SettledOnce(Step(w, es[0], n), es[1..], n, id);
    }
  }

  /* Order. */

  lemma {:induction false} RequestsStay(w: World, es: seq<Event>, n: int, id: Id)
    requires Inv(w, n) && CanRun(w, es, n) && id in w.requests
    ensures id in Run(w, es, n).requests && Run(w, es, n).requests[id] == w.requests[id]
    decreases |es|
  {
    if es != [] {
      InvStep(w, es[0], n);
      assert id in w.s.futures;
      RequestsStay(Step(w, es[0], n), es[1..], n, id);
    }
  }

  lemma {:induction false} GoneStaysGone(w: World, es: seq<Event>, n: int, gone: Entry)
    requires CanRun(w, es, n) && gone.counter <= w.s.counter && gone !in w.s.queue
    ensures gone !in Run(w, es, n).s.queue
    decreases |es|
  {
    if es != [] {
      GoneStep(w, es[0], n, gone);
      GoneStaysGone(Step(w, es[0], n), es[1..], n, gone);
    }
  }

  /** `waiting` is in the queue and will still be after the run. */
  ghost predicate Waits(w: World, es: seq<Event>, n: int, waiting: Entry) {
    Inv(w, n) && CanRun(w, es, n) && waiting in w.s.queue && waiting in Run(w, es, n).s.queue
  }

  lemma WaitsOn(w: World, es: seq<Event>, n: int, waiting: Entry)
    requires es != [] && Waits(w, es, n, waiting)
    ensures Can(w.s, es[0]) && Waits(Step(w, es[0], n), es[1..], n, waiting)
  {
    InvStep(w, es[0], n);
    assert waiting.counter <= w.s.counter <= Step(w, es[0], n).s.counter;
    if waiting !in Step(w, es[0], n).s.queue {
      GoneStaysGone(Step(w, es[0], n), es[1..], n, waiting);
    }
  }

  /** While a request stays in the queue, every entry taken from it has a lower priority number, or the
      same and came earlier. */
  lemma {:induction false} OnlyEarlierOnesAreTaken(w: World, es: seq<Event>, n: int, waiting: Entry)
    requires Waits(w, es, n, waiting)
    ensures w.taken <= Run(w, es, n).taken
    ensures forall k | |w.taken| <= k < |Run(w, es, n).taken| ::
              var e := Run(w, es, n).taken[k];
              e.priority < waiting.priority || (e.priority == waiting.priority && e.counter < waiting.counter)
    decreases |es|
  {
    if es != [] {
      var next := Step(w, es[0], n);
      WaitsOn(w, es, n, waiting);
      OnlyEarlierOnesAreTaken(next, es[1..], n, waiting);
    }
  }

  /** The entry comes before `waiting`, or a worker of state s0 held it. */
  ghost predicate Excused(s0: State, e: Entry, waiting: Entry) {
    Before(e, waiting) || IsHeld(s0, e)
  }

  ghost predicate HeldAreExcused(s0: State, s: State, waiting: Entry) {
    forall k | 0 <= k < |s.workers| && s.workers[k].Holding? :: Excused(s0, s.workers[k].entry, waiting)
  }

  lemma {:induction false} BegunAreExcused(s0: State, w: World, es: seq<Event>, n: int, waiting: Entry)
    requires Waits(w, es, n, waiting) && HeldAreExcused(s0, w.s, waiting)
    ensures w.starts <= Run(w, es, n).starts
    ensures forall k | |w.starts| <= k < |Run(w, es, n).starts| ::
              var id, t := Run(w, es, n).starts[k], Run(w, es, n);
              id in t.requests && Excused(s0, t.requests[id].entry, waiting)
    decreases |es|
  {
    hide Excused, Inv;
    if es != [] {
      var next := Step(w, es[0], n);
      WaitsOn(w, es, n, waiting);
      HeldAreExcusedStep(s0, w, es[0], n, waiting);
      BegunAreExcused(s0, next, es[1..], n, waiting);
      if Begins(w.s, es[0]) {
        var e := w.s.workers[es[0].worker].entry;
        HeldIsRequested(w, n, es[0].worker);
        assert next.starts[|w.starts|] == e.id;
        RequestsStay(next, es[1..], n, e.id);
      }
    }
  }

  lemma HeldIsRequested(w: World, n: int, k: nat)
    requires Inv(w, n) && k < |w.s.workers| && w.s.workers[k].Holding?
    ensures w.s.workers[k].entry.id in w.requests && w.requests[w.s.workers[k].entry.id].entry == w.s.workers[k].entry
  {
  }

  lemma TakenComesFirst(s: State, e: Event, n: int, waiting: Entry)
    requires Can(s, e) && e.Dequeue? && waiting in s.queue && waiting in Next(s, e, n).queue
    ensures Before(e.entry, waiting)
  {
  }

  lemma HeldAreExcusedStep(s0: State, w: World, e: Event, n: int, waiting: Entry)
    requires Inv(w, n) && Can(w.s, e) && HeldAreExcused(s0, w.s, waiting)
    requires waiting in w.s.queue && waiting in Step(w, e, n).s.queue
    ensures HeldAreExcused(s0, Step(w, e, n).s, waiting)
  {
    hide Next, Queued, HeldApart, Registered, BegunOnce, Running, Accounted, KilledForEver, IsHeld;
    var t := Step(w, e, n);
    forall k | 0 <= k < |t.s.workers| && t.s.workers[k].Holding? ensures Excused(s0, t.s.workers[k].entry, waiting) {
      HeldBefore(w, e, n, k);
      if e.Dequeue? { TakenComesFirst(w.s, e, n, waiting); }
    }
  }

  /** The entries workers hold. */
  function HeldEntries(workers: seq<Worker>): (held: set<Entry>)
    ensures |held| <= |workers|
  {
    if workers == [] then {}
    else
      var before := HeldEntries(workers[..|workers| - 1]);
      if workers[|workers| - 1].Holding? then before + {workers[|workers| - 1].entry} else before
  }

  lemma OneMoreHolds(workers: seq<Worker>, last: Worker, e: Entry)
    ensures SomeHolds(workers + [last], e) <==> SomeHolds(workers, e) || last == Holding(e)
  {
    if k :| 0 <= k < |workers| && workers[k] == Holding(e) {
      assert (workers + [last])[k] == Holding(e);
    }
    assert (workers + [last])[|workers|] == last;
  }

  lemma {:induction false} HeldEntriesAre(workers: seq<Worker>, e: Entry)
    ensures e in HeldEntries(workers) <==> SomeHolds(workers, e)
  {
    hide SomeHolds;
    if workers == [] {
      NobodyHolds(e);
    } else {
      var n := |workers| - 1;
      HeldEntriesAre(workers[..n], e);
      OneMoreHolds(workers[..n], workers[n], e);
      assert workers == workers[..n] + [workers[n]];
    }
  }

  lemma NobodyHolds(e: Entry)
    ensures !SomeHolds([], e)
  {
  }

  /** While a request stays in the queue, every request begun has a lower priority number, or the same and
      came earlier, except for those whose entries workers held at the start: no more than there are
      workers. */
  lemma LateBeginsAreHeldOnes(w: World, es: seq<Event>, n: int, waiting: Entry)
    requires Waits(w, es, n, waiting)
    ensures w.starts <= Run(w, es, n).starts && |HeldEntries(w.s.workers)| <= WorkerCount(n)
    ensures forall k | |w.starts| <= k < |Run(w, es, n).starts| ::
              var id, t := Run(w, es, n).starts[k], Run(w, es, n);
              && id in t.requests
              && var e := t.requests[id].entry;
                 || e.priority < waiting.priority
                 || (e.priority == waiting.priority && e.counter < waiting.counter)
                 || e in HeldEntries(w.s.workers)
  {
    BegunAreExcused(w.s, w, es, n, waiting);
    forall e | IsHeld(w.s, e) ensures e in HeldEntries(w.s.workers) {
      HeldEntriesAre(w.s.workers, e);
    }
  }

  /* Requests of one priority are taken in the order in which they were executed. */

  /** What was requested is queued or was taken. */
  ghost predicate QueuedOrTaken(w: World) {
    forall i | i in w.requests :: w.requests[i].entry in w.s.queue || w.requests[i].entry in w.taken
  }

  /** Nothing is taken before what came earlier and is no less urgent. */
  ghost predicate TakenInTurn(w: World) {
    forall i, j, y | i in w.requests && j in w.requests && 0 <= y < |w.taken| && w.taken[y] == w.requests[j].entry ::
      InTurn(w.requests[i].entry, w.requests[j].entry) ==> w.requests[i].entry in w.taken[..y]
  }

  /** The first entry came earlier and is no less urgent. */
  predicate InTurn(a: Entry, b: Entry) {
    a.counter < b.counter && a.priority <= b.priority
  }

  lemma QueuedOrTakenStep(w: World, e: Event, n: int)
    requires Queued(w) && QueuedOrTaken(w) && Can(w.s, e)
    ensures QueuedOrTaken(Step(w, e, n))
  {
    var t := Step(w, e, n);
    assert e.Dequeue? ==> t.taken[|w.taken|] == e.entry;
    forall i | i in t.requests ensures t.requests[i].entry in t.s.queue || t.requests[i].entry in t.taken {
      if i in w.requests { RequestKept(w, e, n, i); }
    }
  }

  lemma TakenInTurnStep(w: World, e: Event, n: int)
    requires Queued(w) && QueuedOrTaken(w) && TakenInTurn(w) && Can(w.s, e)
    requires forall x | x in w.taken :: x.counter <= w.s.counter
    ensures TakenInTurn(Step(w, e, n))
    ensures forall x | x in Step(w, e, n).taken :: x.counter <= Step(w, e, n).s.counter
  {
    var t := Step(w, e, n);
    if e.Dequeue? {
      assert t.requests == w.requests && t.taken == w.taken + [e.entry];
      assert forall y | 0 <= y <= |w.taken| :: t.taken[..y] == w.taken[..y];
    } else {
      OnlyDequeuesTake(w, e, n);
    }
  }

  lemma OnlyDequeuesTake(w: World, e: Event, n: int)
    requires Can(w.s, e) && !e.Dequeue?
    ensures Step(w, e, n).taken == w.taken && Step(w, e, n).s.counter >= w.s.counter
    ensures !e.Execute? ==> Step(w, e, n).requests == w.requests
    ensures e.Execute? ==> Step(w, e, n).requests.Keys == w.requests.Keys + {e.newId}
                           && Step(w, e, n).requests[e.newId].entry.counter == w.s.counter + 1
                           && forall i | i in w.requests && i != e.newId :: Step(w, e, n).requests[i] == w.requests[i]
  {
  }

  ghost predicate Ordered(w: World) {
    Queued(w) && QueuedOrTaken(w) && TakenInTurn(w) && forall x | x in w.taken :: x.counter <= w.s.counter
  }

  lemma {:induction false} OrderedOverRuns(w: World, es: seq<Event>, n: int)
    requires Ordered(w) && CanRun(w, es, n)
    ensures Ordered(Run(w, es, n))
    decreases |es|
  {
    hide Queued, QueuedOrTaken, TakenInTurn, Can, Step;
    if es != [] {
      QueuedStep(w, es[0], n);
      QueuedOrTakenStep(w, es[0], n);
      TakenInTurnStep(w, es[0], n);
      OrderedOverRuns(Step(w, es[0], n), es[1..], n);
    }
  }

  /** A request executed later has a higher number. */
  lemma {:induction false} LaterNumber(w: World, es: seq<Event>, n: int, id: Id)
    requires Inv(w, n) && CanRun(w, es, n) && id !in w.requests && id in Run(w, es, n).requests
    ensures Run(w, es, n).requests[id].entry.counter > w.s.counter
    decreases |es|
  {
    hide Inv;
    var next := Step(w, es[0], n);
    InvStep(w, es[0], n);
    if id in next.requests {
      RequestsStay(next, es[1..], n, id);
    } else {
      LaterNumber(next, es[1..], n, id);
    }
  }

  /** Of two requests the one executed first is taken first, unless the other has a lower priority number.
      So requests of one priority are taken in the order in which they were executed. */
  lemma FirstComeFirstTaken(es: seq<Event>, more: seq<Event>, n: int, first: Id, second: Id)
    requires CanRun(Initial(), es, n) && CanRun(Run(Initial(), es, n), more, n)
    requires first in Run(Initial(), es, n).requests && second !in Run(Initial(), es, n).requests
    requires first in Run(Run(Initial(), es, n), more, n).requests
    requires second in Run(Run(Initial(), es, n), more, n).requests
    ensures var t := Run(Run(Initial(), es, n), more, n);
            var a, b := t.requests[first].entry, t.requests[second].entry;
            a.priority <= b.priority ==> forall y | 0 <= y < |t.taken| && t.taken[y] == b :: a in t.taken[..y]
  {
    hide Inv, CanRun, Run;
    var w := Run(Initial(), es, n);
    InitiallyInv(n);
    InvOverRuns(Initial(), es, n);
    RequestsStay(w, more, n, first);
    LaterNumber(w, more, n, second);
    FirstNumber(w, n, first);
    InitiallyOrdered();
    OrderedOverRuns(Initial(), es, n);
    OrderedOverRuns(w, more, n);
  }

  lemma FirstNumber(w: World, n: int, id: Id)
    requires Inv(w, n) && id in w.requests
    ensures w.requests[id].entry.counter <= w.s.counter
  {
  }

  lemma InitiallyOrdered()
    ensures Ordered(Initial())
  {
  }

  /** While something is queued, an idle worker can be given an entry. */
  lemma SomeoneIsNext(es: seq<Event>, n: int, k: nat) returns (e: Entry)
    requires CanRun(Initial(), es, n) && k < |Run(Initial(), es, n).s.workers|
    requires Run(Initial(), es, n).s.workers[k].Idle? && Run(Initial(), es, n).s.queue != {}
    ensures Can(Run(Initial(), es, n).s, Dequeue(k, e))
  {
    InitiallyInv(n);
    InvOverRuns(Initial(), es, n);
    e := LeastOf(Run(Initial(), es, n).s.queue);
  }

  lemma {:induction false} LeastOf(queue: set<Entry>) returns (e: Entry)
    requires queue != {} && forall a, b | a in queue && b in queue && a != b :: a.counter != b.counter
    ensures Least(e, queue)
  {
    var x :| x in queue;
    if queue == {x} {
      e := x;
    } else {
      var rest := queue - {x};
      assert queue != {x} && rest != {};
      var y := LeastOf(rest);
      e := if Before(x, y) then x else y;
      assert forall o | o in queue :: o == x || o in rest;
    }
  }

  /* Runs in which it happens. */

  lemma RunNone(w: World, n: int)
    ensures CanRun(w, [], n) && Run(w, [], n) == w
  {
  }

  lemma RunOne(w: World, e: Event, es: seq<Event>, n: int)
    requires Can(w.s, e) && CanRun(Step(w, e, n), es, n)
    ensures CanRun(w, [e] + es, n) && Run(w, [e] + es, n) == Run(Step(w, e, n), es, n)
  {
    assert ([e] + es)[1..] == es;
  }

  ghost predicate Reaches(w: World, t: World, n: int) {
    exists es :: CanRun(w, es, n) && Run(w, es, n) == t
  }

  lemma ReachesItself(w: World, n: int)
    ensures Reaches(w, w, n)
  {
    RunNone(w, n);
  }

  lemma ReachesThrough(w: World, e: Event, t: World, n: int)
    requires Can(w.s, e) && Reaches(Step(w, e, n), t, n)
    ensures Reaches(w, t, n)
  {
    var es :| CanRun(Step(w, e, n), es, n) && Run(Step(w, e, n), es, n) == t;
    RunOne(w, e, es, n);
  }

  /** One worker; request 1 of priority 5 has been dequeued but not begun. */
  lemma OneIsHeld(n: int) returns (t: World)
    requires n == 1
    ensures forall u | Reaches(t, u, n) :: Reaches(Initial(), u, n)
    ensures t == World(State(true, map[1 := 7], {}, [Holding(Entry(5, 1, 1))], 1, map[1 := Pending], {}),
                       map[1 := Request(7, Entry(5, 1, 1))], [Entry(5, 1, 1)], [], [])
  {
    hide Reaches;
    var w1 := Step(Initial(), Execute(1, 7, 5), n);
    assert w1.s.workers == [Idle];
    assert Least(Entry(5, 1, 1), w1.s.queue);
    t := Step(w1, Dequeue(0, Entry(5, 1, 1)), n);
    assert t.s.queue == {};
    forall u | Reaches(t, u, n) ensures Reaches(Initial(), u, n) {
      ReachesThrough(w1, Dequeue(0, Entry(5, 1, 1)), u, n);
      ReachesThrough(Initial(), Execute(1, 7, 5), u, n);
    }
  }

  /** A more urgent request that arrives between the two steps waits while the held one begins. */
  lemma HeldOneBeginsFirst() returns (t: World)
    ensures Reaches(Initial(), t, 1)
    ensures t.starts == [1] && Entry(0, 2, 2) in t.s.queue
    ensures 1 in t.requests && t.requests[1].entry.priority == 5
  {
    hide Reaches;
    var w := OneIsHeld(1);
    var w1 := Step(w, Execute(2, 8, 0), 1);
    t := Step(w1, Begin(0), 1);
    ReachesItself(t, 1);
    ReachesThrough(w1, Begin(0), t, 1);
    ReachesThrough(w, Execute(2, 8, 0), t, 1);
  }

  /** A request whose caller was cancelled may still be run, before the caller withdraws it. */
  lemma CancelledMayBegin() returns (t: World)
    ensures Reaches(Initial(), t, 1)
    ensures 1 in t.s.futures && t.s.futures[1] == Cancelled && IsRunning(t.s, 1)
  {
    hide Reaches;
    var w := OneIsHeld(1);
    var w1 := Step(w, CancelFuture(1), 1);
    t := Step(w1, Begin(0), 1);
    assert t.s.workers[0] == Busy(1, 7);
    ReachesItself(t, 1);
    ReachesThrough(w1, Begin(0), t, 1);
    ReachesThrough(w, CancelFuture(1), t, 1);
  }

  /** A caller left waiting: its function ended with CancelledError, its future is pending, and with
      the only worker gone nothing will ever be dequeued. */
  lemma KilledLeavesTheCallerWaiting() returns (t: World)
    ensures Reaches(Initial(), t, 1)
    ensures 1 in t.killed && 1 in t.s.futures && t.s.futures[1].Pending? && t.s.workers == [Dead]
    ensures forall w, e :: !Can(t.s, Dequeue(w, e))
  {
    hide Reaches;
    var w := OneIsHeld(1);
    var w1 := Step(w, Begin(0), 1);
    t := Step(w1, Finish(0, Killed), 1);
    assert t.killed == [1];
    ReachesItself(t, 1);
    ReachesThrough(w1, Finish(0, Killed), t, 1);
    ReachesThrough(w, Begin(0), t, 1);
  }
}
