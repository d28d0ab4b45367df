/**
 * The runner: how the engine decides whether an action may run now, how it
 * executes one, and how `run_until_unable` drains the three action queues
 * of the combat state (src/simulation.rs:138-274).
 *
 * Concrete actions live outside this model. An action is known only
 * through `ActionRules`: its determinism in a state, and what executing it
 * does. Executing an action yields the new game state (the three queues
 * are not part of it) and the list of runner calls it makes, in order:
 * `action_now`, `action_top` or `action_bottom` on some other action.
 *
 * The functional model (`Applied`, `AfterNow`, `AfterCalls`, `Iteration`,
 * `RunLoop`) works on a `Machine` value; the `Runner` class and the method
 * `RunUntilUnable` do the same work in place and are proved equal to it.
 */
module Engine {
  import opened Wrappers
  import opened Distributions
  import opened SimulationState
  import opened Combat

  /** How an action resolves: by a player choice, by chance, or determinately. */
  datatype Determinism = Choice | Random(distribution: Distribution) | Deterministic

  /** One runner call made while an action executes. */
  datatype Call = ActNow(action: Action) | ActTop(action: Action) | ActBottom(action: Action)

  /** What executing an action does: the new game state and its runner calls, in order. */
  datatype Effect = Effect(state: CombatState, calls: seq<Call>)

  /**
   * The behaviour of every action. `sample` is the random source: given the
   * distribution and the number of draws so far it names an entry; the
   * chosen value is the one at that index modulo the number of entries.
   */
  datatype ActionRules = ActionRules(
    determinism: (Action, CombatState) -> Determinism,
    execute: (Action, CombatState) -> Effect,
    executeRandom: (Action, CombatState, int) -> Effect,
    sample: (Distribution, nat) -> nat)

  /** The fixed part of a runner. */
  datatype Config = Config(allowRandom: bool, rules: ActionRules)

  /** `Panicked`: the program would have aborted; `DepthExhausted`: nesting went past the bound. */
  datatype Halt = Running | Panicked | DepthExhausted

  /**
   * The runner's changing part: the combat state, the actions applied so
   * far in the order they started, the number of random draws made, and
   * whether execution has halted.
   */
  datatype Machine = Machine(state: CombatState, trace: seq<Action>, draws: nat, halt: Halt)

  /** Why `run_until_unable` returned. */
  datatype Exit = CombatEnded | Blocked | Drained | Stopped | StepsExhausted

  /** One pass of the `run_until_unable` loop: go round again, or return. */
  datatype Turn = Continue(next: Machine) | Stop(last: Machine, exit: Exit)

  datatype Outcome = Outcome(final: Machine, exit: Exit)

  // ----- queues -----

  function Reverse<T>(xs: seq<T>): (r: seq<T>)
    ensures |r| == |xs|
    ensures forall i :: 0 <= i < |xs| ==> r[i] == xs[|xs| - 1 - i]
  {
    if xs == [] then [] else [xs[|xs| - 1]] + Reverse(xs[..|xs| - 1])
  }

  lemma ReverseAppend<T>(xs: seq<T>, ys: seq<T>)
    ensures Reverse(xs + ys) == Reverse(ys) + Reverse(xs)
  {
    assert forall i :: 0 <= i < |xs + ys| ==> Reverse(xs + ys)[i] == (Reverse(ys) + Reverse(xs))[i];
  }

  /**
   * The work still to do, in the order the runner will take it: the fresh
   * subactions in the order they were deferred, then the stale stack from
   * its top down, then the top-level actions from the front.
   */
  function Work(s: CombatState): seq<Action>
  {
    s.freshSubactionQueue + Reverse(s.staleSubactionStack) + s.actions
  }

  /** The inner `while let` loop of `run_until_unable`: pop every fresh action and push it on the stale stack. */
  function MoveFresh(s: CombatState): (r: CombatState)
    ensures r.freshSubactionQueue == []
    ensures r == s.(freshSubactionQueue := [], staleSubactionStack := r.staleSubactionStack)
  {
    s.(freshSubactionQueue := [], staleSubactionStack := s.staleSubactionStack + Reverse(s.freshSubactionQueue))
  }

  /**
   * Moving fresh actions to the stale stack changes no order of work: the
   * older stale entries stay at the bottom, and the earliest deferred fresh
   * action ends up on top.
   */
  lemma MoveFreshKeepsWork(s: CombatState)
    ensures Work(MoveFresh(s)) == Work(s)
    ensures s.staleSubactionStack <= MoveFresh(s).staleSubactionStack
    ensures s.freshSubactionQueue != [] ==>
      var stale := MoveFresh(s).staleSubactionStack;
      stale[|stale| - 1] == s.freshSubactionQueue[0]
  {
    var queued, stale := s.freshSubactionQueue, s.staleSubactionStack;
    assert MoveFresh(s).staleSubactionStack == stale + Reverse(queued);
    MovedInOrder(queued, stale);
    assert Work(MoveFresh(s)) == [] + (queued + Reverse(stale)) + s.actions;
    if queued != [] {
      MovedTop(queued, stale);
    }
  }

  /** Pushing the reversed queue on the stack: read top down, the queue comes first, in order. */
  lemma MovedInOrder<T>(queued: seq<T>, stale: seq<T>)
    ensures Reverse(stale + Reverse(queued)) == queued + Reverse(stale)
  {
    ReverseAppend(stale, Reverse(queued));
    ReverseReverse(queued);
  }

  /** Pushing the reversed queue on the stack puts the queue's first element on top. */
  lemma MovedTop<T>(queued: seq<T>, stale: seq<T>)
    requires queued != []
    ensures (stale + Reverse(queued))[|stale| + |queued| - 1] == queued[0]
  {
  }

  lemma ReverseReverse<T>(xs: seq<T>)
    ensures Reverse(Reverse(xs)) == xs
  {
    assert forall i :: 0 <= i < |xs| ==> Reverse(Reverse(xs))[i] == xs[i];
  }

  /** The executed action's new game state, with the runner's queues left as they were. */
  function Commit(s: CombatState, next: CombatState): (r: CombatState)
    ensures r.actions == s.actions
    ensures r.freshSubactionQueue == s.freshSubactionQueue
    ensures r.staleSubactionStack == s.staleSubactionStack
    ensures r.hand == next.hand && r.player == next.player && r.monsters == next.monsters
    ensures r == next.(actions := r.actions, freshSubactionQueue := r.freshSubactionQueue, staleSubactionStack := r.staleSubactionStack)
  {
    next.(actions := s.actions, freshSubactionQueue := s.freshSubactionQueue, staleSubactionStack := s.staleSubactionStack)
  }

  // ----- applicability -----

  /** `can_apply_impl`: whether the determinism of `a` lets it run without a decision. */
  function CanApplyImpl(cfg: Config, s: CombatState, a: Action): (r: bool)
    ensures r <==> (cfg.rules.determinism(a, s).Deterministic?
                    || (cfg.rules.determinism(a, s).Random?
                        && (cfg.allowRandom || |cfg.rules.determinism(a, s).distribution.pairs| == 1)))
    ensures cfg.rules.determinism(a, s).Choice? ==> !r
  {
    match cfg.rules.determinism(a, s)
    case Deterministic => true
    case Random(d) => cfg.allowRandom || |d.pairs| == 1
    case Choice => false
  }

  /** `can_apply`: applicable, and the combat is not over. */
  function CanApply(cfg: Config, s: CombatState, a: Action): (r: bool)
    ensures r <==> CanApplyImpl(cfg, s, a) && !CombatOver(s)
    ensures r ==> !cfg.rules.determinism(a, s).Choice?
  {
    CanApplyImpl(cfg, s, a) && !CombatOver(s)
  }

  /** The value a random action executes with: one of the distribution's values. */
  function Sampled(cfg: Config, d: Distribution, draws: nat): (v: int)
    requires d.pairs != []
    ensures v in Values(d.pairs)
    ensures |d.pairs| == 1 ==> v == d.pairs[0].value
  {
    var i := cfg.rules.sample(d, draws) % |d.pairs|;
    assert Values(d.pairs)[i] == d.pairs[i].value;
    d.pairs[i].value
  }

  // ----- executing actions -----

  /**
   * `apply_impl`: record `a` as started, execute it by its determinism,
   * commit its game state and make its runner calls. `depth` bounds how
   * many further applications may nest inside this one.
   */
  function Applied(cfg: Config, m: Machine, a: Action, depth: nat): (r: Machine)
    decreases depth, 2
  {
    if m.halt != Running then m
    else
      var started := m.(trace := m.trace + [a]);
      match cfg.rules.determinism(a, m.state)
      case Choice => started.(halt := Panicked)
      case Deterministic =>
        var e := cfg.rules.execute(a, m.state);
        AfterCalls(cfg, started.(state := Commit(m.state, e.state)), e.calls, depth)
      case Random(d) =>
        if d.pairs == [] then started.(halt := Panicked)
        else
          var e := cfg.rules.executeRandom(a, m.state, Sampled(cfg, d, m.draws));
          AfterCalls(cfg, started.(state := Commit(m.state, e.state), draws := m.draws + 1), e.calls, depth)
  }

  /**
   * `action_now`: run `a` inline when nothing is deferred yet and it can be
   * applied; otherwise defer it to the end of the fresh queue and change
   * nothing else.
   */
  function AfterNow(cfg: Config, m: Machine, a: Action, depth: nat): (r: Machine)
    ensures m.halt == Running && (m.state.freshSubactionQueue != [] || !CanApply(cfg, m.state, a)) ==>
      r == m.(state := m.state.(freshSubactionQueue := m.state.freshSubactionQueue + [a]))
    ensures m.halt == Running && m.state.freshSubactionQueue == [] && CanApply(cfg, m.state, a) && depth > 0 ==>
      r == Applied(cfg, m, a, depth - 1)
    ensures m.halt != Running ==> r == m
    decreases depth, 0
  {
    if m.halt != Running then m
    else if m.state.freshSubactionQueue == [] && CanApply(cfg, m.state, a) then
      if depth == 0 then m.(halt := DepthExhausted) else Applied(cfg, m, a, depth - 1)
    else
      m.(state := m.state.(freshSubactionQueue := m.state.freshSubactionQueue + [a]))
  }

  /** `action_top`: push to the front of the top-level deque. */
  function AfterTop(m: Machine, a: Action): (r: Machine)
    ensures r.state.actions == [a] + m.state.actions
    ensures r == m.(state := m.state.(actions := r.state.actions))
  {
    m.(state := m.state.(actions := [a] + m.state.actions))
  }

  /** `action_bottom`: push to the back of the top-level deque. */
  function AfterBottom(m: Machine, a: Action): (r: Machine)
    ensures r.state.actions == m.state.actions + [a]
    ensures r == m.(state := m.state.(actions := r.state.actions))
  {
    m.(state := m.state.(actions := m.state.actions + [a]))
  }

  /** The runner calls an executing action makes, in order, until one halts. */
  function AfterCalls(cfg: Config, m: Machine, calls: seq<Call>, depth: nat): (r: Machine)
    decreases depth, 1, |calls|
  {
    if calls == [] || m.halt != Running then m
    else
      var next := match calls[0]
        case ActNow(a) => AfterNow(cfg, m, a, depth)
        case ActTop(a) => AfterTop(m, a)
        case ActBottom(a) => AfterBottom(m, a);
      AfterCalls(cfg, next, calls[1..], depth)
  }

  // ----- what inline execution may change -----

  /** `inner` occurs in `outer` as a contiguous run. */
  ghost predicate Infix(inner: seq<Action>, outer: seq<Action>)
  {
    exists t: nat :: t + |inner| <= |outer| && Window(outer, t, |inner|) == inner
  }

  /** The `n` elements of `xs` from index `t` on. */
  function Window(xs: seq<Action>, t: nat, n: nat): (r: seq<Action>)
    requires t + n <= |xs|
    ensures |r| == n && forall i :: 0 <= i < n ==> r[i] == xs[t + i]
  {
    xs[t..t + n]
  }

  /** `inner` occurs in `outer` in order, not necessarily contiguously. */
  ghost predicate Subseq<T>(inner: seq<T>, outer: seq<T>)
    decreases |outer|
  {
    inner == [] || (outer != [] && (Subseq(inner, outer[1..]) || (inner[0] == outer[0] && Subseq(inner[1..], outer[1..]))))
  }

  lemma {:induction false} SubseqRefl<T>(xs: seq<T>)
    ensures Subseq(xs, xs)
    decreases |xs|
  {
    if xs != [] {
      SubseqRefl(xs[1..]);
    }
  }

  lemma {:induction false} SubseqTrans<T>(a: seq<T>, b: seq<T>, c: seq<T>)
    requires Subseq(a, b) && Subseq(b, c)
    ensures Subseq(a, c)
    decreases |c|
  {
    if a != [] {
      if Subseq(b, c[1..]) {
        SubseqTrans(a, b, c[1..]);
      } else if Subseq(a, b[1..]) {
        SubseqTrans(a, b[1..], c[1..]);
      } else {
        SubseqTrans(a[1..], b[1..], c[1..]);
      }
    }
  }

  /** Anything in front of the outer sequence may be skipped. */
  lemma {:induction false} SubseqDropFront<T>(a: seq<T>, front: seq<T>, b: seq<T>)
    requires Subseq(a, b)
    ensures Subseq(a, front + b)
    decreases |front|
  {
    if front == [] {
      assert front + b == b;
    } else if a != [] {
      assert (front + b)[1..] == front[1..] + b;
      SubseqDropFront(a, front[1..], b);
    }
  }

  /** Anything behind the outer sequence may be skipped. */
  lemma {:induction false} SubseqDropBack<T>(a: seq<T>, b: seq<T>, back: seq<T>)
    requires Subseq(a, b)
    ensures Subseq(a, b + back)
    decreases |b|
  {
    if a != [] {
      assert (b + back)[1..] == b[1..] + back;
      if Subseq(a, b[1..]) {
        SubseqDropBack(a, b[1..], back);
      } else {
        SubseqDropBack(a[1..], b[1..], back);
      }
    }
  }

  /** A common front may be added to both sequences. */
  lemma {:induction false} SubseqCommonFront<T>(front: seq<T>, a: seq<T>, b: seq<T>)
    requires Subseq(a, b)
    ensures Subseq(front + a, front + b)
    decreases |front|
  {
    if front == [] {
      assert front + a == a && front + b == b;
    } else {
      SubseqCommonFront(front[1..], a, b);
      assert (front + a)[0] == (front + b)[0];
      assert (front + a)[1..] == front[1..] + a;
      assert (front + b)[1..] == front[1..] + b;
    }
  }

  lemma InfixSubseq(inner: seq<Action>, outer: seq<Action>)
    requires Infix(inner, outer)
    ensures Subseq(inner, outer)
  {
    var t: nat :| t + |inner| <= |outer| && Window(outer, t, |inner|) == inner;
    SubseqRefl(inner);
    SubseqDropBack(inner, inner, outer[t + |inner|..]);
    SubseqDropFront(inner, outer[..t], inner + outer[t + |inner|..]);
    assert outer == outer[..t] + (inner + outer[t + |inner|..]);
  }

  /**
   * What executing an action inline may do to the runner: the stale stack
   * is untouched, fresh actions are only appended, top-level actions are
   * only added at either end, and the trace only grows.
   */
  ghost predicate Frame(m: Machine, r: Machine)
  {
    && r.state.staleSubactionStack == m.state.staleSubactionStack
    && m.state.freshSubactionQueue <= r.state.freshSubactionQueue
    && Infix(m.state.actions, r.state.actions)
    && m.trace <= r.trace
  }

  lemma FrameRefl(m: Machine)
    ensures Frame(m, m)
  {
    assert Window(m.state.actions, 0, |m.state.actions|) == m.state.actions;
  }

  lemma FrameTrans(a: Machine, b: Machine, c: Machine)
    requires Frame(a, b) && Frame(b, c)
    ensures Frame(a, c)
  {
    var xs, ys, zs := a.state.actions, b.state.actions, c.state.actions;
    var t1: nat :| t1 + |xs| <= |ys| && Window(ys, t1, |xs|) == xs;
    var t2: nat :| t2 + |ys| <= |zs| && Window(zs, t2, |ys|) == ys;
    assert Window(zs, t2 + t1, |xs|) == xs;
  }

  lemma FrameOfTop(m: Machine, a: Action)
    ensures Frame(m, AfterTop(m, a))
  {
    assert Window(AfterTop(m, a).state.actions, 1, |m.state.actions|) == m.state.actions;
  }

  lemma FrameOfBottom(m: Machine, a: Action)
    ensures Frame(m, AfterBottom(m, a))
  {
    assert Window(AfterBottom(m, a).state.actions, 0, |m.state.actions|) == m.state.actions;
  }

  /** Applying an action starts by recording it, and stays within `Frame`. */
  lemma {:induction false} AppliedFrame(cfg: Config, m: Machine, a: Action, depth: nat)
    ensures Frame(m, Applied(cfg, m, a, depth))
    ensures m.halt == Running ==> m.trace + [a] <= Applied(cfg, m, a, depth).trace
    decreases depth, 2
  {
    if m.halt != Running {
      FrameRefl(m);
    } else {
      var started := m.(trace := m.trace + [a]);
      FrameRefl(m);
      assert Frame(m, started);
      match cfg.rules.determinism(a, m.state)
      case Choice =>
      case Deterministic =>
        var e := cfg.rules.execute(a, m.state);
        var committed := started.(state := Commit(m.state, e.state));
        assert Frame(m, committed);
        AfterCallsFrame(cfg, committed, e.calls, depth);
        FrameTrans(m, committed, AfterCalls(cfg, committed, e.calls, depth));
      case Random(d) =>
        if d.pairs != [] {
          var e := cfg.rules.executeRandom(a, m.state, Sampled(cfg, d, m.draws));
          var committed := started.(state := Commit(m.state, e.state), draws := m.draws + 1);
          assert Frame(m, committed);
          AfterCallsFrame(cfg, committed, e.calls, depth);
          FrameTrans(m, committed, AfterCalls(cfg, committed, e.calls, depth));
        }
    }
  }

  lemma {:induction false} AfterNowFrame(cfg: Config, m: Machine, a: Action, depth: nat)
    ensures Frame(m, AfterNow(cfg, m, a, depth))
    decreases depth, 0
  {
    FrameRefl(m);
    if m.halt == Running && m.state.freshSubactionQueue == [] && CanApply(cfg, m.state, a) && depth > 0 {
      AppliedFrame(cfg, m, a, depth - 1);
    }
  }

  lemma {:induction false} AfterCallsFrame(cfg: Config, m: Machine, calls: seq<Call>, depth: nat)
    ensures Frame(m, AfterCalls(cfg, m, calls, depth))
    decreases depth, 1, |calls|
  {
    if calls == [] || m.halt != Running {
      FrameRefl(m);
    } else {
      var next := match calls[0]
        case ActNow(a) => AfterNow(cfg, m, a, depth)
        case ActTop(a) => AfterTop(m, a)
        case ActBottom(a) => AfterBottom(m, a);
      match calls[0] {
        case ActNow(a) => AfterNowFrame(cfg, m, a, depth);
        case ActTop(a) => FrameOfTop(m, a);
        case ActBottom(a) => FrameOfBottom(m, a);
      }
      AfterCallsFrame(cfg, next, calls[1..], depth);
      FrameTrans(m, next, AfterCalls(cfg, next, calls[1..], depth));
    }
  }

  // ----- run_until_unable -----

  /** The top of the stale stack cannot be applied once it is popped. */
  predicate Stuck(cfg: Config, s: CombatState)
  {
    var stale := s.staleSubactionStack;
    stale != [] && !CanApply(cfg, s.(staleSubactionStack := stale[..|stale| - 1]), stale[|stale| - 1])
  }

  /**
   * One pass of the `run_until_unable` loop. It returns when the runner
   * has halted or the combat is over; otherwise it moves the fresh actions
   * to the stale stack, then pops the stale top and runs it if it can be
   * applied (returning with the stack as it was if not), or, with the stale
   * stack empty, takes the front top-level action, or returns when there is
   * none.
   */
  function Iteration(cfg: Config, m: Machine, depth: nat): Turn
  {
    if m.halt != Running then Stop(m, Stopped)
    else if CombatOver(m.state) then Stop(m, CombatEnded)
    else
      var s := MoveFresh(m.state);
      var stale := s.staleSubactionStack;
      if stale != [] then
        var popped := s.(staleSubactionStack := stale[..|stale| - 1]);
        if CanApply(cfg, popped, stale[|stale| - 1]) then
          Continue(AfterNow(cfg, m.(state := popped), stale[|stale| - 1], depth))
        else
          Stop(m.(state := s), Blocked)
      else if s.actions != [] then
        Continue(AfterNow(cfg, m.(state := s.(actions := s.actions[1..])), s.actions[0], depth))
      else
        Stop(m.(state := s), Drained)
  }

  /**
   * `run_until_unable`, with at most `steps` passes of its loop. It returns
   * only when the runner halted, the combat is over, the stale top is
   * blocked (and still on the stack), or every queue is empty.
   */
  function RunLoop(cfg: Config, m: Machine, steps: nat, depth: nat): Outcome
    decreases steps
  {
    if steps == 0 then Outcome(m, StepsExhausted)
    else
      match Iteration(cfg, m, depth)
      case Stop(last, exit) => Outcome(last, exit)
      case Continue(next) => RunLoop(cfg, next, steps - 1, depth)
  }

  /**
   * Why a pass stops: the runner halted, the combat is over, the stale top
   * is blocked (with the stack as the move left it), or there is no work.
   * A pass goes on only with work to take and nothing blocked.
   */
  lemma IterationStops(cfg: Config, m: Machine, depth: nat)
    ensures var r := Iteration(cfg, m, depth);
      && (r.Stop? ==> r.exit in {Stopped, CombatEnded, Blocked, Drained})
      && (r.Stop? && r.exit == Stopped <==> m.halt != Running)
      && (r.Stop? && r.exit == CombatEnded <==> m.halt == Running && CombatOver(m.state))
      && (r.Stop? ==> r.last.trace == m.trace && r.last.halt == m.halt)
      && (r.Stop? && r.exit == Blocked ==>
            && r.last == m.(state := MoveFresh(m.state))
            && Stuck(cfg, r.last.state)
            && !CombatOver(r.last.state)
            && r.last.state.freshSubactionQueue == [])
      && (r.Stop? && r.exit == Drained ==>
            r.last == m.(state := MoveFresh(m.state)) && Work(m.state) == [] && Work(r.last.state) == [])
      && (r.Continue? ==>
            m.halt == Running && !CombatOver(m.state) && Work(m.state) != [] && !Stuck(cfg, MoveFresh(m.state)))
  {
    MoveFreshKeepsWork(m.state);
    assert CombatOver(MoveFresh(m.state)) == CombatOver(m.state);
  }

  /**
   * The loop returns only at combat end, at a blocked stale top with the
   * fresh queue empty, with every queue empty, after a halt, or when the
   * step bound runs out.
   */
  lemma {:induction false} RunLoopExits(cfg: Config, m: Machine, steps: nat, depth: nat)
    ensures var r := RunLoop(cfg, m, steps, depth);
      && (r.exit == StepsExhausted || r.exit == Stopped || r.final.halt == Running)
      && (r.exit == Stopped ==> r.final.halt != Running)
      && (r.exit == CombatEnded ==> CombatOver(r.final.state))
      && (r.exit == Blocked ==>
            !CombatOver(r.final.state) && r.final.state.freshSubactionQueue == [] && Stuck(cfg, r.final.state))
      && (r.exit == Drained ==> Work(r.final.state) == [])
    decreases steps
  {
    if steps > 0 {
      IterationStops(cfg, m, depth);
      match Iteration(cfg, m, depth)
      case Stop(last, exit) =>
      case Continue(next) => RunLoopExits(cfg, next, steps - 1, depth);
    }
  }

  /**
   * One pass of the loop takes the head of the pending work. If it runs,
   * it is the next action in the trace; what it defers comes next, then
   * the older stale entries in their order, then the top-level actions,
   * which keep their order with new ones added only at either end. If it
   * cannot run (a top-level action that is deferred), the pending work is
   * unchanged.
   */
  lemma IterationTakesHeadOfWork(cfg: Config, m: Machine, depth: nat)
    requires depth > 0
    requires Iteration(cfg, m, depth).Continue?
    ensures Work(m.state) != []
    ensures var w, n := Work(m.state), Iteration(cfg, m, depth).next;
      n.trace == m.trace ==> Work(n.state) == w && n.halt == Running
    ensures var w, n := Work(m.state), Iteration(cfg, m, depth).next;
      n.trace != m.trace ==>
        && m.trace + [w[0]] <= n.trace
        && Reverse(n.state.staleSubactionStack) <= w[1..]
        && Infix(w[1 + |n.state.staleSubactionStack|..], n.state.actions)
  {
    MoveFreshKeepsWork(m.state);
    if MoveFresh(m.state).staleSubactionStack != [] {
      StaleTopRuns(cfg, m, depth);
    } else {
      FrontActionRuns(cfg, m, depth);
    }
  }

  /** A pass that goes on with stale actions after the move runs the popped stale top. */
  lemma IterationPopsStaleTop(cfg: Config, m: Machine, depth: nat)
    requires Iteration(cfg, m, depth).Continue?
    requires MoveFresh(m.state).staleSubactionStack != []
    ensures var s := MoveFresh(m.state); var stale := s.staleSubactionStack;
      && CanApply(cfg, s.(staleSubactionStack := stale[..|stale| - 1]), stale[|stale| - 1])
      && Iteration(cfg, m, depth).next
         == AfterNow(cfg, m.(state := s.(staleSubactionStack := stale[..|stale| - 1])), stale[|stale| - 1], depth)
  {
  }

  /** A pass that goes on with no stale actions after the move takes the front top-level action. */
  lemma IterationTakesFront(cfg: Config, m: Machine, depth: nat)
    requires Iteration(cfg, m, depth).Continue?
    requires MoveFresh(m.state).staleSubactionStack == []
    ensures var s := MoveFresh(m.state);
      && s.actions != []
      && Iteration(cfg, m, depth).next == AfterNow(cfg, m.(state := s.(actions := s.actions[1..])), s.actions[0], depth)
  {
  }

  /** `IterationTakesHeadOfWork` when the stale stack is not empty after the move. */
  lemma StaleTopRuns(cfg: Config, m: Machine, depth: nat)
    requires depth > 0
    requires Iteration(cfg, m, depth).Continue?
    requires MoveFresh(m.state).staleSubactionStack != []
    ensures var w, n := Work(m.state), Iteration(cfg, m, depth).next;
      && w != []
      && m.trace + [w[0]] <= n.trace
      && Reverse(n.state.staleSubactionStack) <= w[1..]
      && Infix(w[1 + |n.state.staleSubactionStack|..], n.state.actions)
  {
    var n := Iteration(cfg, m, depth).next;
    var s := MoveFresh(m.state);
    MoveFreshKeepsWork(m.state);
    var stale := s.staleSubactionStack;
    var top, rest := stale[|stale| - 1], stale[..|stale| - 1];
    var m' := m.(state := s.(staleSubactionStack := rest));
    IterationPopsStaleTop(cfg, m, depth);
    assert n == Applied(cfg, m', top, depth - 1);
    AppliedFrame(cfg, m', top, depth - 1);
    WorkOfStaleTop(s);
  }

  /** With nothing fresh, the pending work starts with the stale top, then the rest of the stack, then the top-level actions. */
  lemma WorkOfStaleTop(s: CombatState)
    requires s.freshSubactionQueue == [] && s.staleSubactionStack != []
    ensures var stale := s.staleSubactionStack; var rest := stale[..|stale| - 1]; var w := Work(s);
      && w != [] && w[0] == stale[|stale| - 1]
      && w[1..] == Reverse(rest) + s.actions
      && w[1 + |rest|..] == s.actions
  {
    var stale := s.staleSubactionStack;
    var top, rest := stale[|stale| - 1], stale[..|stale| - 1];
    assert stale == rest + [top];
    ReverseAppend(rest, [top]);
    var w := Work(s);
    assert w == [top] + (Reverse(rest) + s.actions);
    assert w[1..] == Reverse(rest) + s.actions;
  }

  /** `IterationTakesHeadOfWork` when the stale stack is empty after the move. */
  lemma FrontActionRuns(cfg: Config, m: Machine, depth: nat)
    requires depth > 0
    requires Iteration(cfg, m, depth).Continue?
    requires MoveFresh(m.state).staleSubactionStack == []
    ensures var w, n := Work(m.state), Iteration(cfg, m, depth).next;
      && w != []
      && (n.trace == m.trace ==> Work(n.state) == w && n.halt == Running)
      && (n.trace != m.trace ==>
            && m.trace + [w[0]] <= n.trace
            && n.state.staleSubactionStack == []
            && Infix(w[1..], n.state.actions))
  {
    var s := MoveFresh(m.state);
    MoveFreshKeepsWork(m.state);
    IterationTakesFront(cfg, m, depth);
    assert Work(m.state)[1..] == s.actions[1..];
    FrontAfterNow(cfg, m.(state := s.(actions := s.actions[1..])), s.actions[0], depth);
  }

  /** `FrontActionRuns` for the machine left once the front action is taken off the deque. */
  lemma FrontAfterNow(cfg: Config, m: Machine, a: Action, depth: nat)
    requires depth > 0 && m.halt == Running
    requires m.state.freshSubactionQueue == [] && m.state.staleSubactionStack == []
    ensures var n := AfterNow(cfg, m, a, depth);
      && (n.trace == m.trace ==> Work(n.state) == [a] + m.state.actions && n.halt == Running)
      && (n.trace != m.trace ==>
            && m.trace + [a] <= n.trace
            && n.state.staleSubactionStack == []
            && Infix(m.state.actions, n.state.actions))
  {
    if CanApply(cfg, m.state, a) {
      AppliedFrame(cfg, m, a, depth - 1);
    }
  }

  /** The loop and its inline executions only ever add to the trace. */
  lemma {:induction false} RunLoopExtendsTrace(cfg: Config, m: Machine, steps: nat, depth: nat)
    ensures m.trace <= RunLoop(cfg, m, steps, depth).final.trace
    decreases steps
  {
    if steps > 0 {
      IterationStops(cfg, m, depth);
      match Iteration(cfg, m, depth)
      case Stop(last, exit) =>
      case Continue(next) =>
        IterationExtendsTrace(cfg, m, depth);
        RunLoopExtendsTrace(cfg, next, steps - 1, depth);
    }
  }

  /** A pass that goes on only extends the trace. */
  lemma IterationExtendsTrace(cfg: Config, m: Machine, depth: nat)
    requires Iteration(cfg, m, depth).Continue?
    ensures m.trace <= Iteration(cfg, m, depth).next.trace
  {
    var s := MoveFresh(m.state);
    var stale := s.staleSubactionStack;
    if stale != [] {
      IterationPopsStaleTop(cfg, m, depth);
      AfterNowFrame(cfg, m.(state := s.(staleSubactionStack := stale[..|stale| - 1])), stale[|stale| - 1], depth);
    } else {
      IterationTakesFront(cfg, m, depth);
      AfterNowFrame(cfg, m.(state := s.(actions := s.actions[1..])), s.actions[0], depth);
    }
  }

  /**
   * What a pass leaves of the work behind the action it ran: the rest of
   * the stale stack in order, then the top-level actions inside the new
   * deque, is a subsequence of the new pending work.
   */
  lemma RestOfWorkKept(rest: seq<Action>, s: CombatState)
    requires Reverse(s.staleSubactionStack) <= rest
    requires Infix(rest[|s.staleSubactionStack|..], s.actions)
    ensures Subseq(rest, Work(s))
  {
    var st := Reverse(s.staleSubactionStack);
    InfixSubseq(rest[|st|..], s.actions);
    SubseqCommonFront(st, rest[|st|..], s.actions);
    assert rest == st + rest[|st|..];
    SubseqDropFront(rest, s.freshSubactionQueue, st + s.actions);
    assert Work(s) == s.freshSubactionQueue + (st + s.actions);
  }

  /**
   * `run_until_unable` takes its pending work in order: every action
   * pending at the start, including the subactions already deferred, is
   * either started during the run or still pending at its end, and in the
   * order it was pending.
   */
  lemma {:induction false} RunLoopKeepsWorkOrder(cfg: Config, m: Machine, steps: nat, depth: nat)
    requires depth > 0
    ensures var r := RunLoop(cfg, m, steps, depth);
      && m.trace <= r.final.trace
      && Subseq(Work(m.state), r.final.trace[|m.trace|..] + Work(r.final.state))
    decreases steps
  {
    if steps == 0 {
      StopKeepsWork(m, m);
    } else {
      match Iteration(cfg, m, depth)
      case Stop(last, exit) =>
        IterationStopKeepsWork(cfg, m, depth);
        StopKeepsWork(m, last);
      case Continue(next) =>
        RunLoopKeepsWorkOrder(cfg, next, steps - 1, depth);
        RunLoopContinues(cfg, m, steps, depth, next);
        var r := RunLoop(cfg, next, steps - 1, depth);
        PassKeepsWorkOrder(cfg, m, depth, next, r.final.trace, Work(r.final.state));
    }
  }

  /** A pass that stops starts nothing and leaves the pending work as it was. */
  lemma IterationStopKeepsWork(cfg: Config, m: Machine, depth: nat)
    requires Iteration(cfg, m, depth).Stop?
    ensures Iteration(cfg, m, depth).last.trace == m.trace
    ensures Work(Iteration(cfg, m, depth).last.state) == Work(m.state)
  {
    MoveFreshKeepsWork(m.state);
  }

  /** A run that ends where it began keeps its work in order. */
  lemma StopKeepsWork(m: Machine, last: Machine)
    requires last.trace == m.trace && Work(last.state) == Work(m.state)
    ensures m.trace <= last.trace
    ensures Subseq(Work(m.state), last.trace[|m.trace|..] + Work(last.state))
  {
    SubseqRefl(Work(m.state));
    assert last.trace[|m.trace|..] + Work(last.state) == Work(m.state);
  }

  /**
   * When the loop drains every queue, all the work pending at the start
   * was started, in that order; so what an action defers starts before the
   * top-level actions queued behind it.
   */
  lemma DrainedRunStartsWorkInOrder(cfg: Config, m: Machine, steps: nat, depth: nat)
    requires depth > 0
    requires RunLoop(cfg, m, steps, depth).exit == Drained
    ensures var r := RunLoop(cfg, m, steps, depth);
      m.trace <= r.final.trace && Subseq(Work(m.state), r.final.trace[|m.trace|..])
  {
    var r := RunLoop(cfg, m, steps, depth);
    RunLoopKeepsWorkOrder(cfg, m, steps, depth);
    RunLoopExits(cfg, m, steps, depth);
    var started := r.final.trace[|m.trace|..];
    assert started + Work(r.final.state) == started;
  }

  /** One pass followed by the rest of the run: the step of `RunLoopKeepsWorkOrder`. */
  lemma PassKeepsWorkOrder(cfg: Config, m: Machine, depth: nat, next: Machine, trace: seq<Action>, left: seq<Action>)
    requires depth > 0 && Iteration(cfg, m, depth) == Continue(next)
    requires next.trace <= trace
    requires Subseq(Work(next.state), trace[|next.trace|..] + left)
    ensures m.trace <= trace
    ensures Subseq(Work(m.state), trace[|m.trace|..] + left)
  {
    IterationTakesHeadOfWork(cfg, m, depth);
    IterationExtendsTrace(cfg, m, depth);
    var w := Work(m.state);
    if next.trace != m.trace {
      RestOfWorkKept(w[1..], next.state);
      assert w[1..][|next.state.staleSubactionStack|..] == w[1 + |next.state.staleSubactionStack|..];
      StartedThenKept(w, m.trace, next.trace, trace, Work(next.state), left);
    }
  }

  /**
   * The head of the work started right after `before`, and the rest of the
   * work is kept in what is still to be started or left: so all the work
   * is, in order.
   */
  lemma StartedThenKept(w: seq<Action>, before: seq<Action>, after: seq<Action>, trace: seq<Action>,
                        kept: seq<Action>, left: seq<Action>)
    requires w != [] && before + [w[0]] <= after && after <= trace
    requires Subseq(w[1..], kept) && Subseq(kept, trace[|after|..] + left)
    ensures Subseq(w, trace[|before|..] + left)
  {
    var k := |before|;
    var later := trace[|after|..] + left;
    SubseqTrans(w[1..], kept, later);
    SubseqDropFront(w[1..], trace[k + 1..|after|], later);
    SubseqCommonFront([w[0]], w[1..], trace[k + 1..|after|] + later);
    assert [w[0]] + w[1..] == w;
    assert trace[k] == w[0];
    assert trace[k..] + left == [w[0]] + (trace[k + 1..|after|] + later);
  }

  // ----- two runs worked through -----

  /** A one-monster battle with `actions` queued at top level and nothing deferred. */
  function Battle(actions: seq<Action>): (s: CombatState)
    ensures !CombatOver(s) && Work(s) == actions
  {
    var s := CombatState([], [], [], [], [], None,
      Player(Creature(10, 10, 0, []), 3),
      [Monster(MonsterId(0), None, 0, Creature(10, 10, 0, []), [0], false)],
      actions, [], []);
    assert !AllGone(s.monsters);
    s
  }

  /** With nothing deferred, a pass of a running, undecided combat takes the front top-level action. */
  lemma QuietIterationTakesFront(cfg: Config, m: Machine, depth: nat)
    requires m.halt == Running && !CombatOver(m.state)
    requires m.state.freshSubactionQueue == [] && m.state.staleSubactionStack == [] && m.state.actions != []
    ensures Iteration(cfg, m, depth)
         == Continue(AfterNow(cfg, m.(state := m.state.(actions := m.state.actions[1..])), m.state.actions[0], depth))
  {
    assert MoveFresh(m.state) == m.state;
  }

  /** A deterministic action whose execution keeps the game state runs its calls right after it is recorded. */
  lemma AppliedKeepingState(cfg: Config, m: Machine, a: Action, depth: nat, calls: seq<Call>)
    requires m.halt == Running
    requires cfg.rules.determinism(a, m.state) == Deterministic
    requires cfg.rules.execute(a, m.state) == Effect(m.state, calls)
    ensures Applied(cfg, m, a, depth) == AfterCalls(cfg, m.(trace := m.trace + [a]), calls, depth)
  {
    assert Commit(m.state, m.state) == m.state;
  }

  /**
   * Rules under which `Other(0)` calls `action_now` on `Other(1)` and then
   * on `Other(2)`; `Other(1)` has determinism `spawned`, every other action
   * is deterministic, and no other action makes runner calls or changes
   * the game state.
   */
  function SpawnRules(spawned: Determinism): ActionRules
  {
    ActionRules(
      (a, s) => if a == Other(1) then spawned else Deterministic,
      (a, s) => if a == Other(0) then Effect(s, [ActNow(Other(1)), ActNow(Other(2))]) else Effect(s, []),
      (a, s, v) => Effect(s, []),
      (d, n) => 0)
  }

  /**
   * With A queued before B, A spawning X and then Y, and X deterministic,
   * X and Y run inside A, so the order is A, X, Y, B and the loop returns
   * with every queue empty.
   */
  lemma SpawnedRunBeforeNextTopLevel()
    ensures var r := RunLoop(Config(false, SpawnRules(Deterministic)), Machine(Battle([Other(0), Other(3)]), [], 0, Running), 3, 2);
      r.exit == Drained && r.final.trace == [Other(0), Other(1), Other(2), Other(3)]
  {
    var cfg := Config(false, SpawnRules(Deterministic));
    var m0 := Machine(Battle([Other(0), Other(3)]), [], 0, Running);
    var my := Machine(Battle([Other(3)]), [Other(0), Other(1), Other(2)], 0, Running);
    var m3 := Machine(Battle([]), [Other(0), Other(1), Other(2), Other(3)], 0, Running);
    FirstPassRunsSpawnInside();
    SecondPassRunsNextTopLevel();
    assert MoveFresh(m3.state) == m3.state;
    assert Iteration(cfg, m3, 2) == Stop(m3, Drained);
    RunLoopContinues(cfg, m0, 3, 2, my);
    RunLoopContinues(cfg, my, 2, 2, m3);
    RunLoopStops(cfg, m3, 1, 2);
  }

  /** The first pass of `SpawnedRunBeforeNextTopLevel`: A runs, and X and Y inside it. */
  lemma FirstPassRunsSpawnInside()
    ensures Iteration(Config(false, SpawnRules(Deterministic)), Machine(Battle([Other(0), Other(3)]), [], 0, Running), 2)
         == Continue(Machine(Battle([Other(3)]), [Other(0), Other(1), Other(2)], 0, Running))
  {
    var cfg := Config(false, SpawnRules(Deterministic));
    var a, x, y, b := Other(0), Other(1), Other(2), Other(3);
    var m0 := Machine(Battle([a, b]), [], 0, Running);
    var m1 := m0.(state := Battle([b]));
    QuietIterationTakesFront(cfg, m0, 2);
    assert m0.state.(actions := [b]) == m1.state;
    assert AfterNow(cfg, m1, a, 2) == Applied(cfg, m1, a, 1);
    var started := m1.(trace := [a]);
    AppliedKeepingState(cfg, m1, a, 1, [ActNow(x), ActNow(y)]);
    assert AfterNow(cfg, started, x, 1) == Applied(cfg, started, x, 0);
    var mx := started.(trace := [a, x]);
    AppliedKeepingState(cfg, started, x, 0, []);
    assert AfterNow(cfg, mx, y, 1) == Applied(cfg, mx, y, 0);
    var my := mx.(trace := [a, x, y]);
    AppliedKeepingState(cfg, mx, y, 0, []);
    assert AfterCalls(cfg, started, [ActNow(x), ActNow(y)], 1) == AfterCalls(cfg, mx, [ActNow(y)], 1);
    assert AfterCalls(cfg, mx, [ActNow(y)], 1) == AfterCalls(cfg, my, [], 1) == my;
  }

  /** The second pass of `SpawnedRunBeforeNextTopLevel`: B runs. */
  lemma SecondPassRunsNextTopLevel()
    ensures Iteration(Config(false, SpawnRules(Deterministic)), Machine(Battle([Other(3)]), [Other(0), Other(1), Other(2)], 0, Running), 2)
         == Continue(Machine(Battle([]), [Other(0), Other(1), Other(2), Other(3)], 0, Running))
  {
    var cfg := Config(false, SpawnRules(Deterministic));
    var b := Other(3);
    var my := Machine(Battle([b]), [Other(0), Other(1), Other(2)], 0, Running);
    var m2 := my.(state := Battle([]));
    QuietIterationTakesFront(cfg, my, 2);
    assert my.state.(actions := []) == m2.state;
    assert AfterNow(cfg, m2, b, 2) == Applied(cfg, m2, b, 1);
    assert Applied(cfg, m2, b, 1) == AfterCalls(cfg, m2.(trace := my.trace + [b]), [], 1);
  }

  /**
   * The same, but X is a random action with two outcomes on a runner that
   * may not sample: X is deferred, and Y after it because X is; the loop
   * moves them to the stale stack with X on top, finds X blocked and
   * returns with X back on the stack and B still queued.
   */
  lemma BlockedSubactionStaysOnTop()
    ensures var spawned := Random(Distribution([Entry(1.0, 0), Entry(1.0, 1)]));
      var r := RunLoop(Config(false, SpawnRules(spawned)), Machine(Battle([Other(0), Other(3)]), [], 0, Running), 3, 2);
      && r.exit == Blocked
      && r.final.trace == [Other(0)]
      && r.final.state.staleSubactionStack == [Other(2), Other(1)]
      && r.final.state.actions == [Other(3)]
  {
    var spawned := Random(Distribution([Entry(1.0, 0), Entry(1.0, 1)]));
    var cfg := Config(false, SpawnRules(spawned));
    var a, x, y, b := Other(0), Other(1), Other(2), Other(3);
    var m0 := Machine(Battle([a, b]), [], 0, Running);
    var m1 := m0.(state := Battle([b]));
    QuietIterationTakesFront(cfg, m0, 2);
    assert m0.state.(actions := [b]) == m1.state;
    assert AfterNow(cfg, m1, a, 2) == Applied(cfg, m1, a, 1);
    var started := m1.(trace := [a]);
    AppliedKeepingState(cfg, m1, a, 1, [ActNow(x), ActNow(y)]);
    assert !CanApply(cfg, started.state, x);
    var mx := started.(state := started.state.(freshSubactionQueue := [x]));
    assert AfterNow(cfg, started, x, 1) == mx;
    var my := started.(state := started.state.(freshSubactionQueue := [x, y]));
    assert AfterNow(cfg, mx, y, 1) == my;
    assert AfterCalls(cfg, started, [ActNow(x), ActNow(y)], 1) == AfterCalls(cfg, mx, [ActNow(y)], 1);
    assert AfterCalls(cfg, mx, [ActNow(y)], 1) == AfterCalls(cfg, my, [], 1) == my;
    RunLoopContinues(cfg, m0, 3, 2, my);
    var moved := MoveFresh(my.state);
    assert Reverse([x, y]) == [y, x];
    assert moved.staleSubactionStack == [y, x];
    assert moved.actions == [b];
    assert Iteration(cfg, my, 2) == Stop(my.(state := moved), Blocked);
    RunLoopStops(cfg, my, 2, 2);
  }

  /** A pass that goes on leaves the rest of the loop to the next state, with one step less. */
  lemma RunLoopContinues(cfg: Config, m: Machine, steps: nat, depth: nat, next: Machine)
    requires steps > 0 && Iteration(cfg, m, depth) == Continue(next)
    ensures RunLoop(cfg, m, steps, depth) == RunLoop(cfg, next, steps - 1, depth)
  {
  }

  /** A pass that stops ends the loop there. */
  lemma RunLoopStops(cfg: Config, m: Machine, steps: nat, depth: nat)
    requires steps > 0 && Iteration(cfg, m, depth).Stop?
    ensures RunLoop(cfg, m, steps, depth) == Outcome(Iteration(cfg, m, depth).last, Iteration(cfg, m, depth).exit)
  {
  }

  // ----- the runner, in place -----

  /**
   * `Runner`: the combat state it drives and its settings. The log the
   * source keeps when `debug` is set is not modelled; `trace` records the
   * actions applied, `draws` the random draws made, `halt` whether it
   * stopped abnormally, and `maxDepth` bounds nested inline execution.
   */
  class Runner {
    var state: CombatState
    const allowRandom: bool
    const debug: bool
    const rules: ActionRules
    const maxDepth: nat
    ghost var trace: seq<Action>
    var draws: nat
    var halt: Halt

    ghost function Abs(): Machine
      reads this
    {
      Machine(state, trace, draws, halt)
    }

    function Cfg(): Config
    {
      Config(allowRandom, rules)
    }

    constructor(state: CombatState, allowRandom: bool, debug: bool, rules: ActionRules, maxDepth: nat)
      ensures Abs() == Machine(state, [], 0, Running)
      ensures this.allowRandom == allowRandom && this.debug == debug
      ensures this.rules == rules && this.maxDepth == maxDepth
    {
      this.state := state;
      this.allowRandom := allowRandom;
      this.debug := debug;
      this.rules := rules;
      this.maxDepth := maxDepth;
      this.trace := [];
      this.draws := 0;
      this.halt := Running;
    }

    method ApplyImpl(a: Action, depth: nat)
      modifies this
      ensures Abs() == Applied(Cfg(), old(Abs()), a, depth)
      decreases depth, 2
    {
      if halt != Running {
        return;
      }
      trace := trace + [a];
      match rules.determinism(a, state) {
        case Choice =>
          halt := Panicked;
        case Deterministic =>
          var e := rules.execute(a, state);
          state := Commit(state, e.state);
          RunCalls(e.calls, depth);
        case Random(d) =>
          if d.pairs == [] {
            halt := Panicked;
          } else {
            var value := Sampled(Cfg(), d, draws);
            var e := rules.executeRandom(a, state, value);
            state := Commit(state, e.state);
            draws := draws + 1;
            RunCalls(e.calls, depth);
          }
      }
    }

    method ActionNow(a: Action, depth: nat)
      modifies this
      ensures Abs() == AfterNow(Cfg(), old(Abs()), a, depth)
      decreases depth, 0
    {
      if halt != Running {
        return;
      }
      if state.freshSubactionQueue == [] && CanApply(Cfg(), state, a) {
        if depth == 0 {
          halt := DepthExhausted;
        } else {
          ApplyImpl(a, depth - 1);
        }
      } else {
        state := state.(freshSubactionQueue := state.freshSubactionQueue + [a]);
      }
    }

    method ActionTop(a: Action)
      modifies this
      ensures Abs() == AfterTop(old(Abs()), a)
    {
      state := state.(actions := [a] + state.actions);
    }

    method ActionBottom(a: Action)
      modifies this
      ensures Abs() == AfterBottom(old(Abs()), a)
    {
      state := state.(actions := state.actions + [a]);
    }

    /** Makes an executing action's runner calls in order, stopping once the runner halts. */
    method RunCalls(calls: seq<Call>, depth: nat)
      modifies this
      ensures Abs() == AfterCalls(Cfg(), old(Abs()), calls, depth)
      decreases depth, 1
    {
      var i := 0;
      while i < |calls| && halt == Running
        invariant 0 <= i <= |calls|
        invariant AfterCalls(Cfg(), Abs(), calls[i..], depth) == AfterCalls(Cfg(), old(Abs()), calls, depth)
      {
        assert calls[i..][1..] == calls[i + 1..];
        match calls[i] {
          case ActNow(a) => ActionNow(a, depth);
          case ActTop(a) => ActionTop(a);
          case ActBottom(a) => ActionBottom(a);
        }
        i := i + 1;
      }
    }

    /** Pops every fresh action and pushes it on the stale stack. */
    method MoveFreshToStale()
      modifies this
      ensures Abs() == old(Abs()).(state := MoveFresh(old(state)))
    {
      while state.freshSubactionQueue != []
        invariant state == old(state).(freshSubactionQueue := state.freshSubactionQueue,
                                       staleSubactionStack := state.staleSubactionStack)
        invariant state.staleSubactionStack + Reverse(state.freshSubactionQueue)
               == old(state.staleSubactionStack) + Reverse(old(state.freshSubactionQueue))
        invariant trace == old(trace) && draws == old(draws) && halt == old(halt)
        decreases |state.freshSubactionQueue|
      {
        var queued := state.freshSubactionQueue;
        var a := queued[|queued| - 1];
        var stale := state.staleSubactionStack;
        state := state.(freshSubactionQueue := queued[..|queued| - 1], staleSubactionStack := stale + [a]);
        assert Reverse(queued) == [a] + Reverse(queued[..|queued| - 1]);
      }
    }
  }

  /** One pass of the `run_until_unable` loop on a runner; `done` says whether the loop returns. */
  method RunOnce(runner: Runner) returns (done: bool, exit: Exit)
    modifies runner
    ensures done ==> Iteration(runner.Cfg(), old(runner.Abs()), runner.maxDepth) == Stop(runner.Abs(), exit)
    ensures !done ==> Iteration(runner.Cfg(), old(runner.Abs()), runner.maxDepth) == Continue(runner.Abs())
  {
    exit := Stopped;
    if runner.halt != Running {
      return true, Stopped;
    }
    if CombatOver(runner.state) {
      return true, CombatEnded;
    }
    runner.MoveFreshToStale();
    var stale := runner.state.staleSubactionStack;
    if stale != [] {
      var a := stale[|stale| - 1];
      runner.state := runner.state.(staleSubactionStack := stale[..|stale| - 1]);
      if CanApply(runner.Cfg(), runner.state, a) {
        runner.ActionNow(a, runner.maxDepth);
        done := false;
      } else {
        runner.state := runner.state.(staleSubactionStack := runner.state.staleSubactionStack + [a]);
        assert stale[..|stale| - 1] + [a] == stale;
        return true, Blocked;
      }
    } else if runner.state.actions != [] {
      var a := runner.state.actions[0];
      runner.state := runner.state.(actions := runner.state.actions[1..]);
      runner.ActionNow(a, runner.maxDepth);
      done := false;
    } else {
      return true, Drained;
    }
  }

  /** `run_until_unable` on a runner, with at most `steps` passes of its loop. */
  method RunUntilUnable(runner: Runner, steps: nat) returns (exit: Exit)
    modifies runner
    ensures Outcome(runner.Abs(), exit) == RunLoop(runner.Cfg(), old(runner.Abs()), steps, runner.maxDepth)
  {
    var remaining := steps;
    while true
      invariant RunLoop(runner.Cfg(), runner.Abs(), remaining, runner.maxDepth)
             == RunLoop(runner.Cfg(), old(runner.Abs()), steps, runner.maxDepth)
      decreases remaining
    {
      if remaining == 0 {
        return StepsExhausted;
      }
      var done;
      done, exit := RunOnce(runner);
      if done {
        return;
      }
      remaining := remaining - 1;
    }
  }
}
