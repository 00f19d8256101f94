/**
 The hand-over between libuv callbacks and the event loop (main.cpp:19-21 and
 main.cpp:36-81): a mutex-protected queue, a second queue local to the drain, and
 a `uv_async_t` whose sends may coalesce.  Each event is one atomic action: a
 critical section of `queue_mutex`, one `uv_async_send`, or one step of the drain.
 */
module CompletionQueue {

  type Thread = nat
  type Entry = nat

  /** Where the event loop is inside `OnFibersToResume`. */
  datatype Phase = Idle | Entered | Draining

  datatype Queue = Queue(
    shared: seq<Entry>,       // resumable_fibers
    local: seq<Entry>,        // local_queue
    signalled: bool,          // a uv_async_send not yet turned into a callback
    sending: set<Thread>,     // threads past their push but not past their send
    phase: Phase)

  const EMPTY := Queue([], [], false, {}, Idle)

  datatype Event =
    | Push(pusher: Thread, entry: Entry)
    | Send(sender: Thread)
    | Enter
    | Swap
    | Pop
    | Leave

  predicate Enabled(q: Queue, e: Event) {
    match e
    case Push(t, _) => t !in q.sending
    case Send(t) => t in q.sending
    case Enter => q.signalled && q.phase == Idle
    case Swap => q.phase == Entered
    case Pop => q.phase == Draining && q.local != []
    case Leave => q.phase == Draining && q.local == []
  }

  function Apply(q: Queue, e: Event): Queue
    requires Enabled(q, e)
  {
    match e
    case Push(t, c) => q.(shared := q.shared + [c], sending := q.sending + {t})
    case Send(t) => q.(signalled := true, sending := q.sending - {t})
    case Enter => q.(signalled := false, local := [], phase := Entered)
    case Swap => q.(shared := q.local, local := q.shared, phase := Draining)
    case Pop => q.(local := q.local[1..])
    case Leave => q.(phase := Idle)
  }

  predicate Legal(q: Queue, es: seq<Event>)
    decreases es
  {
    es == [] || (Enabled(q, es[0]) && Legal(Apply(q, es[0]), es[1..]))
  }

  function Exec(q: Queue, es: seq<Event>): Queue
    requires Legal(q, es)
    decreases es
  {
    if es == [] then q else Exec(Apply(q, es[0]), es[1..])
  }

  /** The one FIFO queue that the two C++ queues implement. */
  function Contents(q: Queue): seq<Entry> {
    q.local + q.shared
  }

  function Pushed(es: seq<Event>): seq<Entry> {
    if es == [] then []
    else if es[0].Push? then [es[0].entry] + Pushed(es[1..])
    else Pushed(es[1..])
  }

  function Popped(q: Queue, es: seq<Event>): seq<Entry>
    requires Legal(q, es)
    decreases es
  {
    if es == [] then []
    else if es[0].Pop? then [q.local[0]] + Popped(Apply(q, es[0]), es[1..])
    else Popped(Apply(q, es[0]), es[1..])
  }

  /** The local queue only lives while a drain is looping. */
  predicate LocalScoped(q: Queue) {
    q.phase != Draining ==> q.local == []
  }

  /** Some event that needs no new completion will lead the loop to the shared queue. */
  predicate WakeupPending(q: Queue) {
    q.shared != [] ==> q.signalled || q.sending != {} || q.phase == Entered
  }

  predicate Inv(q: Queue) {
    LocalScoped(q) && WakeupPending(q)
  }

  lemma StepKeepsInv(q: Queue, e: Event)
    requires Inv(q) && Enabled(q, e)
    ensures Inv(Apply(q, e))
  {
    if e.Push? {
      assert e.pusher in Apply(q, e).sending;
    }
  }

  /** No wakeup is lost, whatever the interleaving of pushers, sends and drains. */
  lemma {:induction false} NoLostWakeup(q: Queue, es: seq<Event>)
    requires Inv(q) && Legal(q, es)
    ensures Inv(Exec(q, es))
    decreases es
  {
    if es != [] {
      StepKeepsInv(q, es[0]);
      NoLostWakeup(Apply(q, es[0]), es[1..]);
    }
  }

  /** Over a whole run the swapped pair of queues is one FIFO queue. */
  lemma {:induction false} RunIsFifo(q: Queue, es: seq<Event>)
    requires LocalScoped(q) && Legal(q, es)
    ensures Popped(q, es) + Contents(Exec(q, es)) == Contents(q) + Pushed(es)
    decreases es
  {
    if es != [] {
      var e, q', rest := es[0], Apply(q, es[0]), es[1..];
      RunIsFifo(q', rest);
      var taken, left := Popped(q', rest), Contents(Exec(q', rest));
      assert taken + left == Contents(q') + Pushed(rest);
      match e {
        case Push(_, c) =>
          assert Contents(q') == Contents(q) + [c];
          assert Contents(q) + [c] + Pushed(rest) == Contents(q) + Pushed(es);
        case Pop =>
          assert Contents(q) == [q.local[0]] + Contents(q');
          assert Popped(q, es) + left == [q.local[0]] + (taken + left);
        case _ =>
          assert Contents(q') == Contents(q);
      }
    }
  }

  /**
   An entry with k others ahead of it is taken out after exactly k other
   removals, however many new entries are pushed meanwhile.
   */
  lemma KAheadMeansKResumesFirst(q: Queue, es: seq<Event>, k: nat)
    requires LocalScoped(q) && Legal(q, es) && k < |Contents(q)|
    ensures k < |Popped(q, es)| ==> Popped(q, es)[k] == Contents(q)[k]
    ensures k >= |Popped(q, es)| ==>
              k - |Popped(q, es)| < |Contents(Exec(q, es))| &&
              Contents(Exec(q, es))[k - |Popped(q, es)|] == Contents(q)[k]
  {
    RunIsFifo(q, es);
    var left := Popped(q, es) + Contents(Exec(q, es));
    assert left[k] == (Contents(q) + Pushed(es))[k];
  }

  /** While a drain loops, its local queue shrinks by its own removals and nothing else. */
  lemma {:induction false} LoopConsumesLocal(q: Queue, es: seq<Event>)
    requires q.phase == Draining && Legal(q, es) && Leave !in es
    ensures Exec(q, es).phase == Draining
    ensures q.local == Popped(q, es) + Exec(q, es).local
    decreases es
  {
    if es != [] {
      var e, q', rest := es[0], Apply(q, es[0]), es[1..];
      assert e in es;
      LoopConsumesLocal(q', rest);
      if e.Pop? {
        assert q.local == [q.local[0]] + q'.local;
      }
    }
  }

  lemma {:induction false} ExecSnoc(q: Queue, es: seq<Event>, e: Event)
    requires Legal(q, es + [e])
    ensures Legal(q, es) && Enabled(Exec(q, es), e)
    ensures Exec(q, es + [e]) == Apply(Exec(q, es), e)
    ensures Popped(q, es + [e]) == Popped(q, es) + if e.Pop? then [Exec(q, es).local[0]] else []
    decreases es
  {
    if es == [] {
      assert [e][1..] == [];
    } else {
      assert (es + [e])[1..] == es[1..] + [e];
      ExecSnoc(Apply(q, es[0]), es[1..], e);
    }
  }

  /** A drain removes exactly the entries present at its swap, in their order, then leaves. */
  lemma DrainHandlesItsSwap(q: Queue, body: seq<Event>)
    requires q.phase == Entered && LocalScoped(q)
    requires Leave !in body && Legal(q, [Swap] + body + [Leave])
    ensures Popped(q, [Swap] + body + [Leave]) == q.shared
    ensures Exec(q, [Swap] + body + [Leave]).phase == Idle
  {
    var es := [Swap] + body;
    assert es[1..] == body;
    ExecSnoc(q, es, Leave);
    LoopConsumesLocal(Apply(q, Swap), body);
  }

  /** Steps still owed when no further completion arrives. */
  function Debt(q: Queue): nat {
    4 * |q.sending| + (if q.signalled then 3 else 0)
    + (match q.phase case Idle => 0 case Entered => 2 case Draining => 1)
    + |q.local| + |q.shared|
  }

  lemma StepPaysDebt(q: Queue, e: Event)
    requires Inv(q) && Enabled(q, e) && !e.Push?
    ensures Debt(Apply(q, e)) < Debt(q)
  {
  }

  /** Once completions stop, the loop stops too, within `Debt` steps ... */
  lemma {:induction false} QuietRunsAreBounded(q: Queue, es: seq<Event>)
    requires Inv(q) && Legal(q, es) && Pushed(es) == []
    ensures |es| + Debt(Exec(q, es)) <= Debt(q)
    decreases es
  {
    if es != [] {
      assert !es[0].Push?;
      StepKeepsInv(q, es[0]);
      StepPaysDebt(q, es[0]);
      QuietRunsAreBounded(Apply(q, es[0]), es[1..]);
    }
  }

  /** ... and it can only stop with both queues empty: nothing is ever left behind. */
  lemma StoppedMeansDelivered(q: Queue)
    requires Inv(q)
    requires forall e: Event :: Enabled(q, e) ==> e.Push?
    ensures Contents(q) == []
  {
    assert !Enabled(q, Enter) && !Enabled(q, Swap) && !Enabled(q, Pop) && !Enabled(q, Leave);
    if q.sending != {} {
      var t :| t in q.sending;
      assert Enabled(q, Send(t));
    }
  }
}
