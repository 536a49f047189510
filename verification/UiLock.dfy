/** Redirecting the deployment UI from stdout to stderr behind a chain of promises
    (contracts/scripts/ignition-ui-output.ts).

Between two awaits a call runs without interruption, so a call is three atomic parts: it queues
itself, it enters once the previous call's promise is resolved, and it leaves when its deployment
returns or throws. Promise 0 is the one resolved at load time; call `i` creates promise `i + 1`. */
module UiLock {

  /** What process.stdout.write is bound to. */
  datatype Writer = Original | ToStderr(call: nat)

  datatype Phase = Queued | Inside(saved: Writer) | Done(threw: bool)

  datatype Call = Call(previous: nat, own: nat, phase: Phase)

  datatype Ui = Ui(calls: seq<Call>, pending: nat, resolved: set<nat>, write: Writer)

  const Loaded := Ui([], 0, {0}, Original)

  // ----- the three parts of a call -----

  function Queue(ui: Ui): Ui {
    ui.(calls := ui.calls + [Call(ui.pending, |ui.calls| + 1, Queued)], pending := |ui.calls| + 1)
  }

  predicate CanEnter(ui: Ui, i: nat) {
    i < |ui.calls| && ui.calls[i].phase.Queued? && ui.calls[i].previous in ui.resolved
  }

  function Enter(ui: Ui, i: nat): Ui
    requires CanEnter(ui, i)
  {
    ui.(calls := ui.calls[i := ui.calls[i].(phase := Inside(ui.write))], write := ToStderr(i))
  }

  predicate CanLeave(ui: Ui, i: nat) {
    i < |ui.calls| && ui.calls[i].phase.Inside?
  }

  function Leave(ui: Ui, i: nat, threw: bool): Ui
    requires CanLeave(ui, i)
  {
    ui.(calls := ui.calls[i := ui.calls[i].(phase := Done(threw))],
        write := ui.calls[i].phase.saved, resolved := ui.resolved + {ui.calls[i].own})
  }

  /** The module's variables, updated in place. */
  class Redirector {
    var calls: seq<Call>
    var pending: nat
    var resolved: set<nat>
    var write: Writer

    function View(): Ui
      reads this
    {
      Ui(calls, pending, resolved, write)
    }

    constructor ()
      ensures View() == Loaded
    {
      calls, pending, resolved, write := [], 0, {0}, Original;
    }

    method Begin() returns (i: nat)
      modifies this
      ensures View() == Queue(old(View())) && i == |old(calls)|
    {
      var previous := pending;
      pending := |calls| + 1;
      i := |calls|;
      calls := calls + [Call(previous, pending, Queued)];
    }

    method EnterCall(i: nat)
      requires CanEnter(View(), i)
      modifies this
      ensures View() == Enter(old(View()), i)
    {
      var saved := write;
      write := ToStderr(i);
      calls := calls[i := calls[i].(phase := Inside(saved))];
    }

    method LeaveCall(i: nat, threw: bool)
      requires CanLeave(View(), i)
      modifies this
      ensures View() == Leave(old(View()), i, threw)
    {
      write := calls[i].phase.saved;
      resolved := resolved + {calls[i].own};
      calls := calls[i := calls[i].(phase := Done(threw))];
    }
  }

  // ----- runs -----

  datatype Event = Begins | Enters(i: nat) | Leaves(i: nat, threw: bool)

  datatype History = Start | Then(before: History, event: Event)

  ghost predicate Feasible(h: History)
    decreases h, 0
  {
    match h
    case Start => true
    case Then(before, event) =>
      && Feasible(before)
      && match event
         case Begins => true
         case Enters(i) => CanEnter(State(before), i)
         case Leaves(i, _) => CanLeave(State(before), i)
  }

  ghost function State(h: History): Ui
    requires Feasible(h)
    decreases h, 1
  {
    match h
    case Start => Loaded
    case Then(before, Begins) => Queue(State(before))
    case Then(before, Enters(i)) => Enter(State(before), i)
    case Then(before, Leaves(i, threw)) => Leave(State(before), i, threw)
  }

  /** The calls that have entered, in the order they did. */
  ghost function Entered(h: History): seq<nat> {
    match h
    case Start => []
    case Then(before, event) => Entered(before) + if event.Enters? then [event.i] else []
  }

  /** Calls are linked one behind the other. */
  ghost predicate Linked(ui: Ui) {
    && ui.pending == |ui.calls| && 0 in ui.resolved && (forall p :: p in ui.resolved ==> p <= |ui.calls|)
    && forall i :: 0 <= i < |ui.calls| ==>
         && ui.calls[i].previous == i && ui.calls[i].own == i + 1
         && (i + 1 in ui.resolved <==> ui.calls[i].phase.Done?)
  }

  /** Whoever is past the queue has everyone before it done. */
  ghost predicate InTurn(ui: Ui) {
    forall i, j :: 0 <= i < j < |ui.calls| && !ui.calls[j].phase.Queued? ==> ui.calls[i].phase.Done?
  }

  /** The redirected writer belongs to the call inside, which saved the original one. */
  ghost predicate WriterOk(ui: Ui) {
    && (forall i :: 0 <= i < |ui.calls| && ui.calls[i].phase.Inside? ==>
          ui.calls[i].phase.saved == Original && ui.write == ToStderr(i))
    && ((forall i :: 0 <= i < |ui.calls| ==> !ui.calls[i].phase.Inside?) ==> ui.write == Original)
  }

  ghost predicate Sound(ui: Ui) {
    Linked(ui) && InTurn(ui) && WriterOk(ui)
  }

  lemma QueueSound(ui: Ui)
    requires Sound(ui)
    ensures Sound(Queue(ui))
  {
    var ui' := Queue(ui);
    assert forall i :: 0 <= i < |ui.calls| ==> ui'.calls[i] == ui.calls[i];
    if forall i :: 0 <= i < |ui'.calls| ==> !ui'.calls[i].phase.Inside? {
      assert forall i :: 0 <= i < |ui.calls| ==> !ui.calls[i].phase.Inside?;
    }
  }

  /** A call can enter only when all earlier ones are done, so nobody is inside. */
  lemma EnterAlone(ui: Ui, i: nat)
    requires Sound(ui) && CanEnter(ui, i)
    ensures forall j :: 0 <= j < i ==> ui.calls[j].phase.Done?
    ensures forall j :: i <= j < |ui.calls| ==> ui.calls[j].phase.Queued?
    ensures ui.write == Original
  {
    if i > 0 {
      assert ui.calls[i - 1].phase.Done?;
      assert forall j :: 0 <= j < i - 1 ==> ui.calls[j].phase.Done?;
    }
  }

  lemma EnterSound(ui: Ui, i: nat)
    requires Sound(ui) && CanEnter(ui, i)
    ensures Sound(Enter(ui, i))
  {
    EnterAlone(ui, i);
    var ui' := Enter(ui, i);
    assert ui'.calls[i].phase.Inside?;
  }

  lemma LeaveSound(ui: Ui, i: nat, threw: bool)
    requires Sound(ui) && CanLeave(ui, i)
    ensures Sound(Leave(ui, i, threw))
  {
    var ui' := Leave(ui, i, threw);
    forall j | 0 <= j < |ui'.calls| ensures !ui'.calls[j].phase.Inside? {
      if j != i { assert j < i ==> ui.calls[j].phase.Done?; }
    }
  }

  lemma {:induction false} AlwaysSound(h: History)
    requires Feasible(h)
    ensures Sound(State(h))
  {
    if h.Then? {
      AlwaysSound(h.before);
      match h.event
      case Begins => QueueSound(State(h.before));
      case Enters(i) => EnterSound(State(h.before), i);
      case Leaves(i, threw) => LeaveSound(State(h.before), i, threw);
    }
  }

  /** For any number of overlapping calls and any mix of success and failure: at most one is inside,
      it saved the original writer, and the original writer is back whenever nobody is inside. */
  lemma RedirectionIsExclusive(h: History, i: nat, j: nat)
    requires Feasible(h) && i < |State(h).calls| && j < |State(h).calls|
    ensures State(h).calls[i].phase.Inside? && State(h).calls[j].phase.Inside? ==> i == j
    ensures State(h).calls[i].phase.Inside? ==> State(h).calls[i].phase.saved == Original && State(h).write == ToStderr(i)
    ensures (forall k :: 0 <= k < |State(h).calls| ==> !State(h).calls[k].phase.Inside?) ==> State(h).write == Original
  {
    AlwaysSound(h);
  }

  /** The number of calls past the queue. */
  ghost predicate PastQueue(ui: Ui, n: nat) {
    n <= |ui.calls| && forall i :: 0 <= i < |ui.calls| ==> (i < n <==> !ui.calls[i].phase.Queued?)
  }

  lemma NextIsFirst(ui: Ui, i: nat, n: nat)
    requires Sound(ui) && CanEnter(ui, i) && PastQueue(ui, n)
    ensures i == n && PastQueue(Enter(ui, i), n + 1)
  {
    EnterAlone(ui, i);
    assert ui.calls[i].phase.Queued? && (n < |ui.calls| ==> ui.calls[n].phase.Queued?);
  }

  /** Calls enter exactly in the order in which they were made. */
  lemma {:induction false} EntersInCallOrder(h: History)
    requires Feasible(h)
    ensures PastQueue(State(h), |Entered(h)|)
    ensures forall k :: 0 <= k < |Entered(h)| ==> Entered(h)[k] == k
  {
    if h.Then? {
      EntersInCallOrder(h.before);
      AlwaysSound(h.before);
      if h.event.Enters? { NextIsFirst(State(h.before), h.event.i, |Entered(h.before)|); }
    }
  }

  /** Nobody is left behind: while nobody is inside, the first queued call can enter, whether or not
      the calls before it threw. */
  lemma FirstInLineCanEnter(h: History, i: nat)
    requires Feasible(h) && i < |State(h).calls| && State(h).calls[i].phase.Queued?
    requires forall j :: 0 <= j < i ==> State(h).calls[j].phase.Done?
    ensures CanEnter(State(h), i)
  {
    AlwaysSound(h);
    if i > 0 { assert State(h).calls[i - 1].phase.Done?; }
  }
}
