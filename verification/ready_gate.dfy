/** The activity's ready gate: work that needs the navigation engine is
    submitted before the engine has started, held back in a first-in
    first-out list, and run once the engine reports that it is ready.

    The gate is described twice. `Step` and `Run` are the reference
    definition: the gate's state after a history of events, as a value.
    `Gate` is the object the activity owns, with the handle slot and the
    pending list updated in place; its invariant `Valid` says that its
    fields are, between calls, `Run` of the events it has seen. The
    lemmas about `Run` therefore hold of every reachable `Gate`.

    Actions are opaque identifiers: what a closure does is not modelled,
    only which action ran, in which order, with which handle (the ghost
    `trace`). */
module NavReadyGate {
  import opened NavCallbacks

  datatype Option<T> = None | Some(value: T)

  /** A submitted action; its body is not part of the model. */
  type ActionId = nat

  /** What the gate sees: a submitted action, the engine's ready callback
      with its handle, or the engine's error callback. */
  datatype Event<H> = SubmitEvent(action: ActionId) | Ready(handle: H) | InitFailed(code: InitErrorCode)

  /** The gate as a value: the handle slot, the pending actions in
      submission order, and every action run so far with the handle it ran
      with, in the order they ran. */
  datatype GateState<H> = GateState(handle: Option<H>, pending: seq<ActionId>, trace: seq<(ActionId, H)>)

  /** Each action of `actions`, in order, paired with the handle `h`. */
  function Tag<H>(actions: seq<ActionId>, h: H): (r: seq<(ActionId, H)>)
    ensures |r| == |actions|
    ensures forall i :: 0 <= i < |r| ==> r[i] == (actions[i], h)
  {
    if actions == [] then [] else [(actions[0], h)] + Tag(actions[1..], h)
  }

  /** The actions of a trace, in the order they ran. */
  function Ids<H>(t: seq<(ActionId, H)>): (r: seq<ActionId>)
    ensures |r| == |t|
    ensures forall i :: 0 <= i < |r| ==> r[i] == t[i].0
  {
    if t == [] then [] else [t[0].0] + Ids(t[1..])
  }

  function Last<T>(s: seq<T>): T
    requires s != []
  {
    s[|s| - 1]
  }

  function Front<T>(s: seq<T>): seq<T>
    requires s != []
  {
    s[..|s| - 1]
  }

  /** Every action submitted in `evs`, in submission order. */
  function Submitted<H>(evs: seq<Event<H>>): seq<ActionId>
  {
    if evs == [] then []
    else Submitted(Front(evs)) + (if Last(evs).SubmitEvent? then [Last(evs).action] else [])
  }

  /** True when no event of `evs` is the ready callback. */
  predicate NeverReady<H>(evs: seq<Event<H>>)
  {
    forall i :: 0 <= i < |evs| ==> !evs[i].Ready?
  }

  /** One event. A submit runs the action at once with the stored handle
      if there is one and queues it otherwise; the ready callback stores
      the handle, runs every pending action in order with it and empties
      the list; the error callback leaves the gate alone. */
  function Step<H>(s: GateState<H>, e: Event<H>): GateState<H>
  {
    match e
    case SubmitEvent(a) =>
      if s.handle.Some? then s.(trace := s.trace + [(a, s.handle.value)])
      else s.(pending := s.pending + [a])
    case Ready(h) => GateState(Some(h), [], s.trace + Tag(s.pending, h))
    case InitFailed(_) => s
  }

  /** The gate after the history `evs`, starting from the empty gate the
      activity creates. */
  function Run<H>(evs: seq<Event<H>>): GateState<H>
  {
    if evs == [] then GateState(None, [], []) else Step(Run(Front(evs)), Last(evs))
  }

  lemma TagAppend<H>(a: seq<ActionId>, b: seq<ActionId>, h: H)
    ensures Tag(a + b, h) == Tag(a, h) + Tag(b, h)
  {
  }

  lemma IdsAppend<H>(t: seq<(ActionId, H)>, u: seq<(ActionId, H)>)
    ensures Ids(t + u) == Ids(t) + Ids(u)
  {
  }

  lemma IdsOfTag<H>(a: seq<ActionId>, h: H)
    ensures Ids(Tag(a, h)) == a
  {
  }

  /** Appending events to a history runs them from the state the history
      reached. */
  lemma {:induction false} RunAppend<H>(evs: seq<Event<H>>, more: seq<Event<H>>)
    ensures Run(evs + more) == RunFrom(Run(evs), more)
    ensures Submitted(evs + more) == Submitted(evs) + Submitted(more)
    decreases |more|
  {
    if more == [] {
      assert evs + more == evs;
    } else {
      assert Front(evs + more) == evs + Front(more);
      assert Last(evs + more) == Last(more);
      RunAppend(evs, Front(more));
    }
  }

  /** `Run` started from an arbitrary state. */
  function RunFrom<H>(s: GateState<H>, evs: seq<Event<H>>): GateState<H>
  {
    if evs == [] then s else Step(RunFrom(s, Front(evs)), Last(evs))
  }

  /** Conservation: every action ever submitted has either run exactly
      once or is still pending, never both, and the ones that ran come
      first, in submission order. Before the ready callback nothing has
      run; after it nothing is pending. */
  lemma {:induction false} Conservation<H>(evs: seq<Event<H>>)
    ensures Ids(Run(evs).trace) + Run(evs).pending == Submitted(evs)
    ensures Run(evs).handle.None? ==> Run(evs).trace == []
    ensures Run(evs).handle.Some? ==> Run(evs).pending == []
  {
    if evs != [] {
      Conservation(Front(evs));
      var s := Run(Front(evs));
      match Last(evs)
      case SubmitEvent(a) =>
        if s.handle.Some? {
          IdsAppend(s.trace, [(a, s.handle.value)]);
        }
      case Ready(h) =>
        IdsAppend(s.trace, Tag(s.pending, h));
        IdsOfTag(s.pending, h);
      case InitFailed(_) =>
    }
  }

  /** Once stored, the handle is never cleared: whatever events follow,
      the gate stays ready. */
  lemma {:induction false} HandleNeverCleared<H>(evs: seq<Event<H>>, more: seq<Event<H>>)
    requires Run(evs).handle.Some?
    ensures Run(evs + more).handle.Some?
    decreases |more|
  {
    RunAppend(evs, more);
    if more != [] {
      HandleNeverCleared(evs, Front(more));
      RunAppend(evs, Front(more));
    }
  }

  /** If the engine never becomes ready (in particular when it reports a
      start-up error instead), no submitted action ever runs: all of them
      stay queued, in submission order. */
  lemma {:induction false} NeverReadyRunsNothing<H>(evs: seq<Event<H>>)
    requires NeverReady(evs)
    ensures Run(evs) == GateState(None, Submitted(evs), [])
  {
    if evs != [] {
      assert NeverReady(Front(evs));
      NeverReadyRunsNothing(Front(evs));
      assert !Last(evs).Ready?;
    }
  }

  /** Submits after the handle is stored run at once, in order, with the
      stored handle; the pending list and the handle do not change. */
  lemma {:induction false} ReadySubmitsRunAtOnce<H>(s: GateState<H>, evs: seq<Event<H>>)
    requires s.handle.Some?
    requires NeverReady(evs)
    ensures RunFrom(s, evs) == s.(trace := s.trace + Tag(Submitted(evs), s.handle.value))
  {
    if evs == [] {
      assert s.trace + Tag([], s.handle.value) == s.trace;
    } else {
      assert NeverReady(Front(evs));
      ReadySubmitsRunAtOnce(s, Front(evs));
      assert !Last(evs).Ready?;
      var h := s.handle.value;
      if Last(evs).SubmitEvent? {
        TagAppend(Submitted(Front(evs)), [Last(evs).action], h);
      } else {
        assert Submitted(evs) == Submitted(Front(evs));
      }
    }
  }

  /** The whole contract of the gate for a session in which the engine
      becomes ready once, with handle `h`: every action, whether submitted
      before or after, runs exactly once, with `h`, in submission order,
      and nothing is left pending. */
  lemma SingleReady<H>(before: seq<Event<H>>, h: H, after: seq<Event<H>>)
    requires NeverReady(before) && NeverReady(after)
    ensures Run(before + [Ready(h)] + after)
         == GateState(Some(h), [], Tag(Submitted(before + [Ready(h)] + after), h))
  {
    NeverReadyRunsNothing(before);
    var ready := Run(before + [Ready(h)]);
    assert Front(before + [Ready(h)]) == before;
    assert ready == GateState(Some(h), [], Tag(Submitted(before), h));
    RunAppend(before + [Ready(h)], after);
    ReadySubmitsRunAtOnce(ready, after);
    TagAppend(Submitted(before), Submitted(after), h);
    assert Submitted(before + [Ready(h)]) == Submitted(before);
  }

  /** A second ready callback replays nothing: the list was emptied by the
      first, so the trace is unchanged (only the handle is replaced). */
  lemma {:induction false} ReadyAgainReplaysNothing<H>(evs: seq<Event<H>>, h: H)
    requires Run(evs).handle.Some?
    ensures Run(evs + [Ready(h)]).trace == Run(evs).trace
    ensures Run(evs + [Ready(h)]).pending == []
  {
    Conservation(evs);
    assert Front(evs + [Ready(h)]) == evs;
  }

  /** The activity's gate object: `handle` is `navigatorScope`, `pending`
      is `pendingNavActions`. The ghost `trace` records the actions run
      and `history` the events seen. */
  class Gate<H> {
    var handle: Option<H>
    var pending: seq<ActionId>
    ghost var trace: seq<(ActionId, H)>
    ghost var history: seq<Event<H>>

    ghost predicate Valid()
      reads this
    {
      GateState(handle, pending, trace) == Run(history)
    }

    /** The gate a new activity starts with: no handle, nothing pending. */
    constructor ()
      ensures Valid()
      ensures handle == None && pending == [] && trace == [] && history == []
    {
      handle := None;
      pending := [];
      trace := [];
      history := [];
    }

    /** Runs action `a` with handle `h`: what the closure does is not
        modelled, only that it ran. It is used only inside `Submit` and
        `MarkReady`, as the code runs a block only there; called on its own
        it would leave the trace ahead of the history and break `Valid()`. */
    method Invoke(a: ActionId, h: H)
      modifies this`trace
      ensures trace == old(trace) + [(a, h)]
    {
      trace := trace + [(a, h)];
    }

    /** Submits `a`: runs it at once with the stored handle if the engine
        is ready, appends it to the pending list otherwise. */
    method Submit(a: ActionId)
      requires Valid()
      modifies this
      ensures Valid() && history == old(history) + [SubmitEvent(a)]
      ensures handle == old(handle)
      ensures old(handle).Some? ==> pending == old(pending) && trace == old(trace) + [(a, old(handle).value)]
      ensures old(handle).None? ==> pending == old(pending) + [a] && trace == old(trace)
    {
      var scope := handle;
      if scope.Some? {
        Invoke(a, scope.value);
      } else {
        pending := pending + [a];
      }
      history := history + [SubmitEvent(a)];
      assert Front(history) == old(history);
    }

    /** The ready callback: stores the handle first, then runs every
        pending action in order with it, then empties the list. Because the
        handle is stored before the loop, the list is the same throughout
        the loop: a submit made while it runs would run at once. */
    method MarkReady(h: H)
      requires Valid()
      modifies this
      ensures Valid() && history == old(history) + [Ready(h)]
      ensures handle == Some(h) && pending == []
      ensures trace == old(trace) + Tag(old(pending), h)
    {
      handle := Some(h);
      var i := 0;
      while i < |pending|
        invariant 0 <= i <= |pending|
        invariant handle == Some(h) && pending == old(pending) && history == old(history)
        invariant trace == old(trace) + Tag(pending[..i], h)
      {
        TagAppend(pending[..i], [pending[i]], h);
        assert pending[..i + 1] == pending[..i] + [pending[i]];
        Invoke(pending[i], h);
        i := i + 1;
      }
      assert pending[..i] == pending;
      pending := [];
      history := history + [Ready(h)];
      assert Front(history) == old(history);
    }

    /** The error callback: the gate is left as it is, so it stays not
        ready; the notice for the code is returned. */
    method OnInitError(e: InitErrorCode) returns (n: InitNotice)
      requires Valid()
      modifies this`history
      ensures Valid() && history == old(history) + [InitFailed(e)]
      ensures n == InitErrorNotice(e)
    {
      n := InitErrorNotice(e);
      history := history + [InitFailed(e)];
      assert Front(history) == old(history);
    }
  }

  /** A session that submits A, B and C, becomes ready with `h`, then
      submits D: the four run in that order, each with `h`. */
  lemma ScenarioFourActions<H>(h: H)
    ensures Run([SubmitEvent(1), SubmitEvent(2), SubmitEvent(3), Ready(h), SubmitEvent(4)])
         == GateState(Some(h), [], [(1, h), (2, h), (3, h), (4, h)])
  {
    var before: seq<Event<H>> := [SubmitEvent(1), SubmitEvent(2), SubmitEvent(3)];
    var after: seq<Event<H>> := [SubmitEvent(4)];
    assert [SubmitEvent(1), SubmitEvent(2), SubmitEvent(3), Ready(h), SubmitEvent(4)] == before + [Ready(h)] + after;
    SingleReady(before, h, after);
    RunAppend(before, [Ready(h)] + after);
    assert Submitted(before + [Ready(h)] + after) == [1, 2, 3, 4] by {
      RunAppend(before + [Ready(h)], after);
      RunAppend(before, [Ready(h)]);
      assert Submitted(before) == [1, 2, 3] by {
        assert Front(before) == [SubmitEvent(1), SubmitEvent(2)];
        assert Front(Front(before)) == [SubmitEvent(1)];
      }
    }
  }
}
