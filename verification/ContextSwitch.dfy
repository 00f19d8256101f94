/**
 The saved contexts behind Fiber::yield and Fiber::resume (fiber.cpp:95-137, POSIX).
 `swapcontext(&a, &b)` stores the running stack's continuation in slot `a` and continues
 with what slot `b` holds; `resume` always stores into the main fiber's slot, whoever
 calls it.  This is why every other module lets only main run or resume fibers.
 */
module ContextSwitch {

  type Fiber = nat

  const MAIN: Fiber := 0

  /** `running` is the fiber whose stack executes; `slots[f]` is whose continuation f's ucontext holds. */
  datatype Machine = Machine(running: Fiber, current: Fiber, slots: map<Fiber, Fiber>)

  const INIT := Machine(MAIN, MAIN, map[MAIN := MAIN])

  datatype Switch = Create(f: Fiber) | Resume(to: Fiber) | Yield | Finish

  predicate Enabled(m: Machine, w: Switch) {
    match w
    case Create(f) => f !in m.slots
    case Resume(f) => f in m.slots && f != MAIN && f != m.current
    case Yield => m.current in m.slots && MAIN in m.slots
    case Finish => m.running != MAIN && MAIN in m.slots
  }

  function Apply(m: Machine, w: Switch): Machine
    requires Enabled(m, w)
  {
    match w
    case Create(f) => m.(slots := m.slots[f := f])                       // makecontext
    case Resume(f) =>                                                    // swapcontext(main, f)
      m.(current := f, running := m.slots[f], slots := m.slots[MAIN := m.running])
    case Yield =>                                                        // swapcontext(current, main)
      var slots := m.slots[m.current := m.running];
      Machine(slots[MAIN], MAIN, slots)
    case Finish =>                                                       // uc_link, then delete
      Machine(m.slots[MAIN], MAIN, m.slots - {m.running})
  }

  predicate Legal(m: Machine, ws: seq<Switch>)
    decreases ws
  {
    ws == [] || (Enabled(m, ws[0]) && Legal(Apply(m, ws[0]), ws[1..]))
  }

  function Exec(m: Machine, ws: seq<Switch>): Machine
    requires Legal(m, ws)
    decreases ws
  {
    if ws == [] then m else Exec(Apply(m, ws[0]), ws[1..])
  }

  /** current_fiber_ is the one that runs, and every fiber's slot continues that fiber. */
  ghost predicate Coherent(m: Machine) {
    && MAIN in m.slots && m.current in m.slots && m.running == m.current
    && forall f :: f in m.slots ==> m.slots[f] == f
  }

  /** Some continuation of the event loop still exists. */
  ghost predicate MainAlive(m: Machine) {
    m.running == MAIN || exists f :: f in m.slots && m.slots[f] == MAIN
  }

  /** Fibers are resumed only while main is current. */
  predicate ResumesFromMain(m: Machine, ws: seq<Switch>)
    requires Legal(m, ws)
    decreases ws
  {
    ws == [] || ((ws[0].Resume? ==> m.current == MAIN) && ResumesFromMain(Apply(m, ws[0]), ws[1..]))
  }

  ghost predicate AlwaysCoherent(m: Machine, ws: seq<Switch>)
    requires Legal(m, ws)
    decreases ws
  {
    Coherent(m) && (ws == [] || AlwaysCoherent(Apply(m, ws[0]), ws[1..]))
  }

  /** The one step that can break things is a resume by a fiber other than main. */
  lemma StepIsCoherentIff(m: Machine, w: Switch)
    requires Coherent(m) && Enabled(m, w)
    ensures Coherent(Apply(m, w)) <==> (w.Resume? ==> m.current == MAIN)
  {
    if w.Resume? && m.current != MAIN {
      assert Apply(m, w).slots[MAIN] == m.current;
    }
  }

  /** Exactly the runs in which only main resumes fibers keep every fiber's continuation in place. */
  lemma {:induction false} CoherentIffOnlyMainResumes(m: Machine, ws: seq<Switch>)
    requires Coherent(m) && Legal(m, ws)
    ensures AlwaysCoherent(m, ws) <==> ResumesFromMain(m, ws)
    decreases ws
  {
    if ws != [] {
      StepIsCoherentIff(m, ws[0]);
      var m' := Apply(m, ws[0]);
      if ws[0].Resume? && m.current != MAIN {
        assert !AlwaysCoherent(m', ws[1..]);
      } else {
        CoherentIffOnlyMainResumes(m', ws[1..]);
      }
    }
  }

  /** In such runs control returns to main after a resume: a yield or an end always lands there. */
  lemma YieldLandsInMain(m: Machine, w: Switch)
    requires Coherent(m) && Enabled(m, w) && (w.Yield? || w.Finish?)
    ensures var m' := Apply(m, w);
            && m'.running == m'.current == MAIN && Coherent(m')
            && (w.Yield? ==> m'.slots.Keys == m.slots.Keys)
            && (w.Finish? ==> m'.slots.Keys == m.slots.Keys - {m.current})
  {
    StepIsCoherentIff(m, w);
  }

  lemma {:induction false} DeadMainStaysDead(m: Machine, ws: seq<Switch>)
    requires !MainAlive(m) && Legal(m, ws) && MAIN in m.slots
    ensures !MainAlive(Exec(m, ws))
    decreases ws
  {
    if ws != [] {
      var m' := Apply(m, ws[0]);
      assert forall f :: f in m'.slots ==> f in m.slots || ws[0] == Create(f) || (ws[0].Resume? && f == MAIN);
      DeadMainStaysDead(m', ws[1..]);
    }
  }

  /** A fiber that resumes another overwrites the event loop's only continuation: main never runs again. */
  lemma NestedResumeLosesMain(m: Machine, f: Fiber, ws: seq<Switch>)
    requires Coherent(m) && Enabled(m, Resume(f)) && Legal(Apply(m, Resume(f)), ws)
    ensures m.current != MAIN ==> Exec(Apply(m, Resume(f)), ws).running != MAIN
    ensures m.current == MAIN ==> MainAlive(Apply(m, Resume(f)))
  {
    var m' := Apply(m, Resume(f));
    if m.current != MAIN {
      DeadMainStaysDead(m', ws);
    } else {
      assert m'.slots[MAIN] == MAIN;
    }
  }

  /** It takes no more than a fiber that runs another: the event loop is lost. */
  lemma NestedRunIsPossible()
    ensures var ws := [Create(1), Resume(1), Create(2), Resume(2)];
            && Legal(INIT, ws) && !ResumesFromMain(INIT, ws)
            && !Coherent(Exec(INIT, ws)) && !MainAlive(Exec(INIT, ws))
  {
    var m1 := Machine(1, 1, map[MAIN := MAIN, 1 := 1]);
    var m2 := Machine(2, 2, map[MAIN := 1, 1 := 1, 2 := 2]);
    var m1' := Machine(1, 1, map[MAIN := MAIN, 1 := 1, 2 := 2]);
    assert Apply(Apply(INIT, Create(1)), Resume(1)) == m1;
    assert Apply(m1, Create(2)) == m1' && Apply(m1', Resume(2)) == m2;
    var ws := [Create(1), Resume(1), Create(2), Resume(2)];
    assert ws[1..] == [Resume(1), Create(2), Resume(2)] && ws[1..][1..] == [Create(2), Resume(2)];
    assert ws[1..][1..][1..] == [Resume(2)] && ws[1..][1..][1..][1..] == [];
  }
}
