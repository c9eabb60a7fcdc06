/** The discrete event engine: pop the earliest event, hand it to every handler. */
module Engines {
  import opened Events

  /** What a handler does: the world it leaves and the events it schedules. */
  datatype Reaction<W> = Reaction(world: W, followUps: seq<ScheduledEvent>)

  type Handler<!W> = (Event, nat, W) -> Reaction<W>

  /** The world, the simulation time and the scheduled events. */
  datatype Simulation<W> = Simulation(world: W, time: nat, queue: multiset<ScheduledEvent>)

  datatype TimeMode = Logical | WallClock

  // ----- One step -----

  /** All handlers see the event in turn, each in the world the previous one left. */
  function React<W>(handlers: seq<Handler<W>>, event: Event, time: nat, world: W): Reaction<W> {
    if handlers == [] then Reaction(world, [])
    else
      var r := React(handlers[..|handlers| - 1], event, time, world);
      var last := handlers[|handlers| - 1](event, time, r.world);
      Reaction(last.world, r.followUps + last.followUps)
  }

  lemma {:induction false} ReactAppend<W>(a: seq<Handler<W>>, b: seq<Handler<W>>, event: Event, time: nat, world: W)
    ensures var first := React(a, event, time, world);
            var second := React(b, event, time, first.world);
            React(a + b, event, time, world) == Reaction(second.world, first.followUps + second.followUps)
  {
    if b == [] {
      assert a + b == a;
    } else {
      assert (a + b)[..|a + b| - 1] == a + b[..|b| - 1];
      ReactAppend(a, b[..|b| - 1], event, time, world);
    }
  }

  /** No other event fires before this one; ties are broken arbitrarily. */
  predicate Earliest(queue: multiset<ScheduledEvent>, e: ScheduledEvent) {
    e in queue && forall f | f in queue :: e.time <= f.time
  }

  ghost predicate Steps<W>(handlers: seq<Handler<W>>, s: Simulation<W>, e: ScheduledEvent, s': Simulation<W>) {
    && Earliest(s.queue, e)
    && var r := React(handlers, e.event, e.time, s.world);
       s' == Simulation(r.world, e.time, s.queue - multiset{e} + multiset(r.followUps))
  }

  lemma {:induction false} SomeEarliest(queue: multiset<ScheduledEvent>)
    requires queue != multiset{}
    ensures exists e :: Earliest(queue, e)
    decreases |queue|
  {
    var e :| e in queue;
    var rest := queue - multiset{e};
    if rest == multiset{} {
      assert queue == multiset{e};
      assert Earliest(queue, e);
    } else {
      SomeEarliest(rest);
      var f :| Earliest(rest, f);
      assert queue == rest + multiset{e};
      assert Earliest(queue, if e.time <= f.time then e else f);
    }
  }

  // ----- Time -----

  /** No event is scheduled before the current time. */
  ghost predicate NothingOverdue<W>(s: Simulation<W>) {
    forall e :: e in s.queue ==> s.time <= e.time
  }

  ghost predicate NotBefore(events: seq<ScheduledEvent>, time: nat) {
    forall e :: e in events ==> time <= e.time
  }

  /** No handler schedules into the past. */
  ghost predicate Causal<W(!new)>(handlers: seq<Handler<W>>) {
    forall i, event, time, world :: 0 <= i < |handlers| ==> NotBefore(handlers[i](event, time, world).followUps, time)
  }

  lemma {:induction false} CausalReact<W(!new)>(handlers: seq<Handler<W>>, event: Event, time: nat, world: W)
    requires Causal(handlers)
    ensures NotBefore(React(handlers, event, time, world).followUps, time)
  {
    if handlers != [] {
      var front := handlers[..|handlers| - 1];
      assert forall i :: 0 <= i < |front| ==> front[i] == handlers[i];
      CausalReact(front, event, time, world);
    }
  }

  /** A step moves time forward, and leaves nothing overdue exactly when the
      handlers scheduled nothing into the past. */
  lemma StepTime<W>(handlers: seq<Handler<W>>, s: Simulation<W>, e: ScheduledEvent, s': Simulation<W>)
    requires Steps(handlers, s, e, s') && NothingOverdue(s)
    ensures s.time <= s'.time == e.time
    ensures NothingOverdue(s') <==> NotBefore(React(handlers, e.event, e.time, s.world).followUps, e.time)
  {
    var followUps := React(handlers, e.event, e.time, s.world).followUps;
    forall f
      ensures f in s'.queue <==> f in s.queue - multiset{e} || f in followUps
    {
      assert f in multiset(followUps) <==> f in followUps;
    }
    assert forall f :: f in s.queue - multiset{e} ==> f in s.queue;
  }

  // ----- Runs -----

  datatype Run<W> = Run(states: seq<Simulation<W>>, events: seq<ScheduledEvent>)

  ghost predicate IsRun<W>(handlers: seq<Handler<W>>, run: Run<W>) {
    && |run.states| == |run.events| + 1
    && forall i :: 0 <= i < |run.events| ==> Steps(handlers, run.states[i], run.events[i], run.states[i + 1])
  }

  /** Over every run of causal handlers, time never goes back and events fire in
      the order of their times. */
  lemma {:induction false} TimeNeverDecreases<W(!new)>(handlers: seq<Handler<W>>, run: Run<W>, i: nat, j: nat)
    requires Causal(handlers) && IsRun(handlers, run) && NothingOverdue(run.states[0])
    requires i <= j < |run.states|
    ensures run.states[i].time <= run.states[j].time && NothingOverdue(run.states[j])
    ensures 0 < i ==> run.events[i - 1].time <= run.events[j - 1].time
  {
    if j > 0 {
      TimeNeverDecreases(handlers, run, if i < j then i else j - 1, j - 1);
      var e := run.events[j - 1];
      StepTime(handlers, run.states[j - 1], e, run.states[j]);
      CausalReact(handlers, e.event, e.time, run.states[j - 1].world);
      if 0 < i {
        assert Steps(handlers, run.states[i - 1], run.events[i - 1], run.states[i]);
      }
    }
  }

  /** Everything the handlers scheduled during the first `n` steps. */
  ghost function Scheduled<W>(handlers: seq<Handler<W>>, run: Run<W>, n: nat): multiset<ScheduledEvent>
    requires n <= |run.events| < |run.states|
  {
    if n == 0 then multiset{}
    else
      var e := run.events[n - 1];
      Scheduled(handlers, run, n - 1) + multiset(React(handlers, e.event, e.time, run.states[n - 1].world).followUps)
  }

  lemma StepConserves<W>(handlers: seq<Handler<W>>, s: Simulation<W>, e: ScheduledEvent, s': Simulation<W>)
    requires Steps(handlers, s, e, s')
    ensures multiset{e} + s'.queue == s.queue + multiset(React(handlers, e.event, e.time, s.world).followUps)
  {
    hide React;
    assert s.queue == s.queue - multiset{e} + multiset{e};
  }

  lemma Rebalance<T>(
    fired: multiset<T>, e: T, q: multiset<T>, q': multiset<T>, q0: multiset<T>, sent: multiset<T>, more: multiset<T>)
    requires fired + q == q0 + sent && multiset{e} + q' == q + more
    ensures fired + multiset{e} + q' == q0 + (sent + more)
  {
    var left, right := fired + multiset{e} + q', q0 + (sent + more);
    forall x: T
      ensures left[x] == right[x]
    {
      assert (fired + q)[x] == (q0 + sent)[x];
      assert (multiset{e} + q')[x] == (q + more)[x];
    }
  }

  /** No event is lost or invented: what has fired and what is still queued is
      what was queued at the start and what handlers have scheduled since. */
  lemma {:induction false} EventsConserved<W>(handlers: seq<Handler<W>>, run: Run<W>, n: nat)
    requires IsRun(handlers, run) && n <= |run.events|
    ensures multiset(run.events[..n]) + run.states[n].queue == run.states[0].queue + Scheduled(handlers, run, n)
  {
    hide Steps, React;
    if n == 0 {
      assert run.events[..0] == [];
      assert Scheduled(handlers, run, 0) == multiset{};
    } else {
      var k := n - 1;
      EventsConserved(handlers, run, k);
      EventsConservedStep(handlers, run, k);
      assert k + 1 == n;
    }
  }

  lemma EventsConservedStep<W>(handlers: seq<Handler<W>>, run: Run<W>, n: nat)
    requires IsRun(handlers, run) && n < |run.events|
    requires multiset(run.events[..n]) + run.states[n].queue == run.states[0].queue + Scheduled(handlers, run, n)
    ensures multiset(run.events[..n + 1]) + run.states[n + 1].queue ==
            run.states[0].queue + Scheduled(handlers, run, n + 1)
  {
    hide Steps, React;
    var e, s, s' := run.events[n], run.states[n], run.states[n + 1];
    var more := multiset(React(handlers, e.event, e.time, s.world).followUps);
    StepConserves(handlers, s, e, s');
    var fired, sent := multiset(run.events[..n]), Scheduled(handlers, run, n);
    assert multiset(run.events[..n + 1]) == fired + multiset{e} by {
      assert run.events[..n + 1] == run.events[..n] + [e];
    }
    assert Scheduled(handlers, run, n + 1) == sent + more;
    hide Scheduled;
    Rebalance(fired, e, s.queue, s'.queue, run.states[0].queue, sent, more);
  }

  lemma RunStarts<W>(handlers: seq<Handler<W>>, s: Simulation<W>)
    ensures IsRun(handlers, Run([s], []))
  {
  }

  lemma RunGrows<W>(handlers: seq<Handler<W>>, run: Run<W>, e: ScheduledEvent, s: Simulation<W>)
    requires IsRun(handlers, run) && Steps(handlers, run.states[|run.events|], e, s)
    ensures IsRun(handlers, Run(run.states + [s], run.events + [e]))
  {
    hide Steps;
  }

  /** Whichever earliest event is popped, it fires at the earliest time. */
  lemma SameTime<W>(
    handlers: seq<Handler<W>>, s: Simulation<W>, e: ScheduledEvent, s': Simulation<W>, next: ScheduledEvent)
    requires Steps(handlers, s, e, s') && Earliest(s.queue, next)
    ensures e.time == next.time
  {
  }

  // ----- The engine object -----

  /** The wall-clock check happens every thousand events; `expired` says what it finds. */
  predicate TimedOut(expired: nat -> bool, count: nat) {
    count % 1000 == 0 && count > 0 && expired(count)
  }

  /** An engine together with the state its methods borrow. */
  class Engine<W(!new)> {
    var queue: multiset<ScheduledEvent>
    var handlers: seq<Handler<W>>
    var world: W
    var time: nat
    const timeMode: TimeMode

    ghost function Model(): Simulation<W>
      reads this
    {
      Simulation(world, time, queue)
    }

    constructor (timeMode: TimeMode, world: W, time: nat)
      ensures Model() == Simulation(world, time, multiset{}) && handlers == [] && this.timeMode == timeMode
    {
      this.timeMode := timeMode;
      this.world, this.time, queue, handlers := world, time, multiset{}, [];
    }

    method AddHandler(handler: Handler<W>)
      modifies this`handlers
      ensures handlers == old(handlers) + [handler]
    {
      handlers := handlers + [handler];
    }

    method Schedule(at: nat, event: Event)
      modifies this`queue
      ensures queue == old(queue) + multiset{At(at, event)}
    {
      queue := queue + multiset{At(at, event)};
    }

    /** In logical mode the delay is ignored. Nothing becomes overdue. */
    method ScheduleRelative(delay: nat, event: Event)
      modifies this`queue
      ensures queue == old(queue) + multiset{At(time + (if timeMode.Logical? then 1 else delay), event)}
      ensures old(NothingOverdue(Model())) ==> NothingOverdue(Model())
    {
      match timeMode {
        case Logical => Schedule(time + 1, event);
        case WallClock => Schedule(time + delay, event);
      }
    }

    /** Hand the event to every handler; push what they schedule. */
    method Dispatch(e: ScheduledEvent)
      modifies this`queue, this`world
      ensures var r := React(handlers, e.event, e.time, old(world));
              world == r.world && queue == old(queue) + multiset(r.followUps)
    {
      for i := 0 to |handlers|
        invariant var r := React(handlers[..i], e.event, e.time, old(world));
                  world == r.world && queue == old(queue) + multiset(r.followUps)
      {
        assert handlers[..i + 1][..i] == handlers[..i];
        var r := handlers[i](e.event, e.time, world);
        world, queue := r.world, queue + multiset(r.followUps);
      }
      assert handlers[..|handlers|] == handlers;
    }

    method Step() returns (processed: bool)
      modifies this`queue, this`world, this`time
      ensures processed == (old(queue) != multiset{})
      ensures !processed ==> Model() == old(Model())
      ensures processed ==> exists e :: Steps(handlers, old(Model()), e, Model())
    {
      if queue == multiset{} {
        return false;
      }
      SomeEarliest(queue);
      var e :| Earliest(queue, e);
      queue, time := queue - multiset{e}, e.time;
      Dispatch(e);
      assert Steps(handlers, old(Model()), e, Model());
      processed := true;
    }

    /** Process events up to a time and a budget. The method stops early only
        when the wall clock says so. */
    method RunUntilWithBudget(until: nat, maxEvents: nat, expired: nat -> bool) returns (count: nat, ghost run: Run<W>)
      modifies this`queue, this`world, this`time
      ensures count == |run.events| == |run.states| - 1 && count <= maxEvents && IsRun(handlers, run)
      ensures run.states[0] == old(Model()) && run.states[count] == Model()
      ensures forall e :: e in run.events ==> e.time <= until
      ensures (forall e :: e in queue ==> until < e.time) || count == maxEvents || TimedOut(expired, count)
    {
      hide IsRun, Steps;
      count, run := 0, Run([Model()], []);
      RunStarts(handlers, Model());
      while queue != multiset{}
        invariant count == |run.events| == |run.states| - 1 && count <= maxEvents && IsRun(handlers, run)
        invariant run.states[0] == old(Model()) && run.states[count] == Model()
        invariant forall e :: e in run.events ==> e.time <= until
        decreases maxEvents - count
      {
        SomeEarliest(queue);
        var next :| Earliest(queue, next);
        if next.time > until || count >= maxEvents || TimedOut(expired, count) {
          break;
        }
        ghost var before := Model();
        var _ := Step();
        ghost var e :| Steps(handlers, before, e, Model());
        SameTime(handlers, before, e, Model(), next);
        RunGrows(handlers, run, e, Model());
        run := Run(run.states + [Model()], run.events + [e]);
        count := count + 1;
      }
    }
  }
}
