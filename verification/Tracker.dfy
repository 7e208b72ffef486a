/**
 * `directory_tracker`: the worker thread, `run` and `shutdown` as an interleaved protocol.
 *
 * `shutdown_` is set without the mutex, so the notification can be lost; waits can also end
 * spuriously or by timeout. Every such interleaving is a step of `Next`.
 */
module Tracker {

  /**
   * Where the worker stands in its loop. `Starting` is the way from the last look at `shutdown_`
   * to the next `reindex`; `Blocking` is between finding the flag unset and actually waiting.
   */
  datatype Worker =
    | NoThread | Starting | Reindexing(left: nat) | Locking | Testing | Blocking | Waiting | LastTesting | Leaving | Exited

  /** Where the owner of the tracker stands in `run` or `shutdown`. */
  datatype Owner = Idle | Spawning | Setting | Notifying | Joining | Forgetting

  /**
   * `thread` says that `thread_` is not null. `lateStarts` counts the reindexes started since the
   * flag was set, and `setAt` remembers where the worker stood at that moment.
   */
  datatype State = State(worker: Worker, owner: Owner, flag: bool, thread: bool, connected: bool,
                         lateStarts: nat, setAt: Worker)

  ghost predicate Init(s: State) {
    s == State(NoThread, Idle, s.flag, false, false, 0, NoThread)
  }

  // ---------------------------------------------------------------- the worker

  /** The connection is opened if it is not open yet; `reindex` has up to `cap` steps to make. */
  ghost predicate Starts(s: State, t: State, cap: nat) {
    && s.worker.Starting? && t.worker.Reindexing? && t.worker.left <= cap
    && (s.connected ==> t.connected) && (!t.connected ==> t.worker.left == 0)
    && t == s.(worker := t.worker, connected := t.connected, lateStarts := s.lateStarts + (if s.flag then 1 else 0))
  }

  /** A step of `reindex`; it may also throw, and then the connection is closed. */
  ghost predicate Reindexes(s: State, t: State) {
    && s.worker.Reindexing?
    && (|| (s.worker.left > 0 && t == s.(worker := Reindexing(s.worker.left - 1)))
        || (s.worker.left == 0 && s.connected && t == s.(worker := Locking))
        || t == s.(worker := Locking, connected := false))
  }

  /** The predicate of `wait_until` is looked at before each wait and after each wake-up. */
  ghost predicate Tests(s: State, t: State) {
    s.worker.Testing? && t == s.(worker := if s.flag then Leaving else Blocking)
  }

  /** A notification, a spurious wake-up or the deadline. */
  ghost predicate Wakes(s: State, t: State) {
    s.worker.Waiting? && (t == s.(worker := Testing) || t == s.(worker := LastTesting))
  }

  ghost predicate WorkerStep(s: State, t: State, cap: nat) {
    || Starts(s, t, cap)
    || Reindexes(s, t)
    || (s.worker.Locking? && t == s.(worker := Testing))
    || Tests(s, t)
    || (s.worker.Blocking? && t == s.(worker := Waiting))
    || Wakes(s, t)
    || (s.worker.LastTesting? && t == s.(worker := if s.flag then Leaving else Starting))
    || (s.worker.Leaving? && t == s.(worker := Exited, connected := false))
  }

  // ---------------------------------------------------------------- the owner

  ghost predicate RunStep(s: State, t: State) {
    || (s.owner.Idle? && !s.thread && t == s.(owner := Spawning, flag := false, lateStarts := 0))
    || (s.owner.Spawning? && t == s.(owner := Idle, thread := true, worker := Starting))
  }

  /** `notify_one` wakes the worker only if it is waiting, and even then the wake-up may be seen late. */
  ghost predicate ShutdownStep(s: State, t: State) {
    || (s.owner.Idle? && t == (if s.thread then s.(owner := Setting) else s))
    || (s.owner.Setting? && t == s.(owner := Notifying, flag := true, lateStarts := 0, setAt := s.worker))
    || (s.owner.Notifying? && (t == s.(owner := Joining) || (s.worker.Waiting? && t == s.(owner := Joining, worker := Testing))))
    || (s.owner.Joining? && s.worker.Exited? && t == s.(owner := Forgetting))
    || (s.owner.Forgetting? && t == s.(owner := Idle, thread := false, worker := NoThread))
  }

  ghost predicate Next(s: State, t: State, cap: nat) {
    WorkerStep(s, t, cap) || RunStep(s, t) || ShutdownStep(s, t)
  }

  ghost predicate Trace(states: seq<State>, cap: nat) {
    && states != [] && Init(states[0])
    && forall i :: 0 <= i < |states| - 1 ==> Next(states[i], states[i + 1], cap)
  }

  // ---------------------------------------------------------------- safety

  /** The flag is set and stays set until the worker is gone. */
  predicate ShuttingDown(s: State) {
    s.owner.Notifying? || s.owner.Joining? || s.owner.Forgetting?
  }

  ghost predicate Invariant(s: State) {
    && (s.thread <==> !s.worker.NoThread?)
    && (s.owner.Spawning? ==> !s.thread && !s.flag)
    && (s.owner.Setting? || ShuttingDown(s) ==> s.thread)
    && (s.thread ==> (s.flag <==> ShuttingDown(s)))
    && (s.worker.Leaving? || s.worker.Exited? ==> ShuttingDown(s))
    && (s.worker.Exited? || s.worker.NoThread? ==> !s.connected)
    && (s.worker.Reindexing? && !s.connected ==> s.worker.left == 0)
    && (s.owner.Forgetting? ==> s.worker.Exited?)
    && (ShuttingDown(s) ==> s.lateStarts == if s.setAt.Starting? && !s.worker.Starting? then 1 else 0)
    && (ShuttingDown(s) && s.worker.Starting? ==> s.setAt.Starting?)
  }

  lemma InvariantHolds(s: State, t: State, cap: nat)
    requires Invariant(s) && Next(s, t, cap)
    ensures Invariant(t)
  {
  }

  lemma {:induction false} Reachable(states: seq<State>, cap: nat, i: nat)
    requires Trace(states, cap) && i < |states|
    ensures Invariant(states[i])
    decreases i
  {
    if i > 0 {
      Reachable(states, cap, i - 1);
      InvariantHolds(states[i - 1], states[i], cap);
    }
  }

  /**
   * In every interleaving at most one more reindex starts once the flag is set: exactly one if the
   * worker was then between its last look at the flag and its next reindex, and otherwise none.
   */
  lemma OneLateReindexAtMost(states: seq<State>, cap: nat, i: nat)
    requires Trace(states, cap) && i < |states| && ShuttingDown(states[i])
    ensures states[i].flag && states[i].lateStarts <= 1
    ensures states[i].worker.Exited? ==> (states[i].lateStarts == 1 <==> states[i].setAt.Starting?)
  {
    Reachable(states, cap, i);
  }

  /** `shutdown` returns only when the worker is gone, and the connection with it. */
  lemma ReturnsAfterExit(states: seq<State>, cap: nat, i: nat)
    requires Trace(states, cap) && i + 1 < |states| && states[i].owner.Forgetting? && states[i + 1].owner.Idle?
    ensures states[i].worker.Exited? && !states[i + 1].thread && !states[i + 1].connected
    ensures states[i + 1].flag
  {
    Reachable(states, cap, i);
    Reachable(states, cap, i + 1);
  }

  /** A second `shutdown` finds no thread and does nothing. */
  lemma ShutdownTwice(states: seq<State>, cap: nat, i: nat, t: State)
    requires Trace(states, cap) && i + 1 < |states| && states[i].owner.Forgetting? && states[i + 1].owner.Idle?
    requires ShutdownStep(states[i + 1], t)
    ensures t == states[i + 1]
  {
    ReturnsAfterExit(states, cap, i);
  }

  // ---------------------------------------------------------------- progress

  /** While `shutdown` waits for the thread something can always happen: the worker's next step or the end of the wait. */
  lemma NeverStuck(states: seq<State>, cap: nat, i: nat) returns (t: State)
    requires Trace(states, cap) && i < |states| && states[i].owner.Joining?
    ensures Next(states[i], t, cap)
    ensures if states[i].worker.Exited? then t.owner.Forgetting? else WorkerStep(states[i], t, cap)
  {
    var s := states[i];
    Reachable(states, cap, i);
    match s.worker
    case Starting => t := s.(worker := Reindexing(0), lateStarts := s.lateStarts + 1);
    case Reindexing(left) => t := if left > 0 then s.(worker := Reindexing(left - 1)) else s.(worker := Locking, connected := false);
    case Locking => t := s.(worker := Testing);
    case Testing => t := s.(worker := Leaving);
    case Blocking => t := s.(worker := Waiting);
    case Waiting => t := s.(worker := LastTesting);
    case LastTesting => t := s.(worker := Leaving);
    case Leaving => t := s.(worker := Exited, connected := false);
    case Exited => t := s.(owner := Forgetting);
    case NoThread => t := s;
  }

  /** How far the worker is from its exit once the flag is set. */
  function Distance(w: Worker, cap: nat): nat {
    match w
    case Starting => cap + 6
    case Reindexing(left) => left + 5
    case Blocking => 4
    case Locking | Waiting => 3
    case Testing | LastTesting => 2
    case Leaving => 1
    case Exited | NoThread => 0
  }

  lemma CloserEachStep(s: State, t: State, cap: nat)
    requires Invariant(s) && Next(s, t, cap) && s.owner.Joining? && t.owner.Joining?
    ensures Distance(t.worker, cap) < Distance(s.worker, cap)
  {
  }

  /** `shutdown` waits for a bounded number of steps, whatever the interleaving. */
  lemma {:induction false} JoinIsBounded(states: seq<State>, cap: nat, i: nat, n: nat)
    requires Trace(states, cap) && i + n < |states|
    requires forall j :: i <= j <= i + n ==> states[j].owner.Joining?
    ensures n + Distance(states[i + n].worker, cap) <= Distance(states[i].worker, cap)
    decreases n
  {
    hide Next; hide Invariant; hide Distance; hide Init;
    if n > 0 {
      JoinIsBounded(states, cap, i, n - 1);
      Reachable(states, cap, i + n - 1);
      CloserEachStep(states[i + n - 1], states[i + n], cap);
    }
  }

  // ---------------------------------------------------------------- the worker works again

  /** After a wait that ended with the flag unset the worker's next move is to start a reindex, whatever comes in between. */
  lemma DeadlineStartsReindex(states: seq<State>, cap: nat, i: nat, k: nat)
    requires Trace(states, cap) && i + 1 < k < |states|
    requires states[i].worker.LastTesting? && !states[i].flag && !states[i + 1].worker.LastTesting?
    requires (forall j :: i + 1 < j < k ==> states[j].worker == states[i + 1].worker) && states[k].worker != states[i + 1].worker
    ensures states[i + 1].worker.Starting? && states[k].worker.Reindexing?
  {
    hide Invariant; hide Next;
    Reachable(states, cap, i);
    LastTestStep(states[i], states[i + 1], cap);
    assert k - 1 == i + 1 || states[k - 1].worker == states[i + 1].worker;
    Reachable(states, cap, k - 1);
    StartingStep(states[k - 1], states[k], cap);
  }

  lemma LastTestStep(s: State, t: State, cap: nat)
    requires Invariant(s) && Next(s, t, cap) && s.worker.LastTesting? && !s.flag && t.worker != s.worker
    ensures t.worker.Starting?
  {
  }

  lemma StartingStep(s: State, t: State, cap: nat)
    requires Invariant(s) && Next(s, t, cap) && s.worker.Starting? && t.worker != s.worker
    ensures t.worker.Reindexing?
  {
  }

  /** A reindex that throws with statements still to run leaves no connection behind. */
  lemma ThrowDisconnects(states: seq<State>, cap: nat, i: nat)
    requires Trace(states, cap) && i + 1 < |states|
    requires states[i].worker.Reindexing? && states[i].worker.left > 0 && states[i + 1].worker.Locking?
    ensures !states[i + 1].connected
  {
    assert Next(states[i], states[i + 1], cap);
  }

  /** How many steps a worker that is left alone has to make to the start of its next reindex. */
  function ToNextStart(w: Worker): nat {
    match w
    case Reindexing(left) => left + 7
    case Locking => 6
    case Testing => 5
    case Blocking => 4
    case Waiting => 3
    case LastTesting => 2
    case Starting => 1
    case _ => 0
  }

  /** The worker's next step when its wait ends at the deadline and the connection can be opened. */
  function Onward(s: State): State {
    match s.worker
    case Reindexing(left) => if left > 0 then s.(worker := Reindexing(left - 1)) else s.(worker := Locking)
    case Locking => s.(worker := Testing)
    case Testing => s.(worker := Blocking)
    case Blocking => s.(worker := Waiting)
    case Waiting => s.(worker := LastTesting)
    case LastTesting => s.(worker := Starting)
    case _ => s
  }

  lemma OnwardIsStep(s: State, cap: nat)
    requires Invariant(s) && s.thread && !s.flag && !s.worker.Starting?
    ensures WorkerStep(s, Onward(s), cap) && ToNextStart(Onward(s).worker) < ToNextStart(s.worker)
    ensures Onward(s).thread && !Onward(s).flag
  {
  }

  lemma Extended(states: seq<State>, cap: nat, t: State)
    requires Trace(states, cap) && Next(states[|states| - 1], t, cap)
    ensures Trace(states + [t], cap)
  {
    hide Init; hide WorkerStep; hide RunStep; hide ShutdownStep;
    var all := states + [t];
    forall i | 0 <= i < |all| - 1
      ensures Next(all[i], all[i + 1], cap)
    {
      assert i < |states| - 1 ==> Next(states[i], states[i + 1], cap);
    }
  }

  /** `more` continues the trace by steps of the worker alone, the last of which starts a reindex over an open connection. */
  ghost predicate StartsAgain(states: seq<State>, cap: nat, more: seq<State>) {
    && states != [] && more != [] && Trace(states + more, cap)
    && (forall i :: |states| <= i < |states + more| ==> WorkerStep((states + more)[i - 1], (states + more)[i], cap))
    && (states + more)[|states + more| - 2].worker.Starting?
    && more[|more| - 1].worker == Reindexing(cap) && more[|more| - 1].connected
  }

  lemma OneMoreStep(states: seq<State>, cap: nat, t: State, rest: seq<State>)
    requires states != [] && WorkerStep(states[|states| - 1], t, cap) && StartsAgain(states + [t], cap, rest)
    ensures StartsAgain(states, cap, [t] + rest)
  {
    hide Trace; hide WorkerStep;
    var all := states + ([t] + rest);
    assert all == states + [t] + rest;
    forall i | |states| <= i < |all|
      ensures WorkerStep(all[i - 1], all[i], cap)
    {
      if i > |states| {
        assert |states + [t]| <= i;
      }
    }
  }

  /**
   * From every reachable state with a thread and no shutdown under way the worker gets to a further
   * reindex by steps of its own, as many as `ToNextStart` counts.
   */
  lemma {:induction false} WorksAgain(states: seq<State>, cap: nat) returns (more: seq<State>)
    requires Trace(states, cap) && states[|states| - 1].thread && !states[|states| - 1].flag
    ensures StartsAgain(states, cap, more) && |more| <= ToNextStart(states[|states| - 1].worker)
    decreases ToNextStart(states[|states| - 1].worker)
  {
    var s := states[|states| - 1];
    Reachable(states, cap, |states| - 1);
    if s.worker.Starting? {
      var t := s.(worker := Reindexing(cap), connected := true);
      Extended(states, cap, t);
      more := [t];
    } else {
      OnwardIsStep(s, cap);
      hide Invariant; hide WorkerStep; hide ToNextStart; hide Onward;
      Extended(states, cap, Onward(s));
      var rest := WorksAgain(states + [Onward(s)], cap);
      OneMoreStep(states, cap, Onward(s), rest);
      more := [Onward(s)] + rest;
    }
  }

  /** Steps of the worker, none of which is a wake-up before the deadline, and none of which starts a reindex. */
  ghost predicate OnTheWay(states: seq<State>, cap: nat, i: nat) {
    && 0 < i < |states| && WorkerStep(states[i - 1], states[i], cap) && !states[i].flag
    && !states[i - 1].worker.Starting? && !(states[i - 1].worker.Waiting? && states[i].worker.Testing?)
  }

  lemma NearerEachStep(s: State, t: State, cap: nat)
    requires Invariant(s) && WorkerStep(s, t, cap) && !t.flag && !s.worker.Starting? && !(s.worker.Waiting? && t.worker.Testing?)
    ensures ToNextStart(t.worker) < ToNextStart(s.worker)
  {
  }

  /** Whatever the worker does, it cannot put off its next reindex for longer, except by waking up early. */
  lemma {:induction false} NextStartIsBounded(states: seq<State>, cap: nat, i: nat, n: nat)
    requires Trace(states, cap) && i + n < |states|
    requires forall j :: i < j <= i + n ==> OnTheWay(states, cap, j)
    ensures n + ToNextStart(states[i + n].worker) <= ToNextStart(states[i].worker)
    decreases n
  {
    hide Trace; hide Invariant; hide ToNextStart;
    if n > 0 {
      NextStartIsBounded(states, cap, i, n - 1);
      Reachable(states, cap, i + n - 1);
      assert OnTheWay(states, cap, i + n);
      NearerEachStep(states[i + n - 1], states[i + n], cap);
    }
  }

  // ---------------------------------------------------------------- the owner can always go on

  /** `run`, or what is left of it. */
  lemma RunStartsThread(states: seq<State>, cap: nat) returns (more: seq<State>)
    requires Trace(states, cap) && !states[|states| - 1].thread
    ensures Trace(states + more, cap) && 1 <= |more| <= 2
    ensures var t := more[|more| - 1];
            t.owner.Idle? && t.thread && !t.flag && t.worker.Starting? && !t.connected
  {
    var s := states[|states| - 1];
    Reachable(states, cap, |states| - 1);
    var t := s.(owner := Spawning, flag := false, lateStarts := if s.owner.Idle? then 0 else s.lateStarts);
    var u := t.(owner := Idle, thread := true, worker := Starting);
    if s.owner.Idle? {
      Extended(states, cap, t);
      Extended(states + [t], cap, u);
      assert states + [t] + [u] == states + [t, u];
      more := [t, u];
    } else {
      Extended(states, cap, u);
      more := [u];
    }
  }

  /** The next step on the way through `shutdown`, the worker going on where it stands. */
  function Winding(s: State): State {
    match s.owner
    case Idle => s.(owner := Setting)
    case Setting => s.(owner := Notifying, flag := true, lateStarts := 0, setAt := s.worker)
    case Notifying => s.(owner := Joining)
    case Forgetting => s.(owner := Idle, thread := false, worker := NoThread)
    case Spawning => s
    case Joining =>
      match s.worker
      case Starting => s.(worker := Reindexing(0), lateStarts := s.lateStarts + 1)
      case Testing => s.(worker := Leaving)
      case LastTesting => s.(worker := Leaving)
      case Leaving => s.(worker := Exited, connected := false)
      case Exited => s.(owner := Forgetting)
      case _ => Onward(s)
  }

  /** How many of these steps there are. */
  function ToReturn(s: State, cap: nat): nat {
    match s.owner
    case Idle => if s.thread then Distance(s.worker, cap) + 5 else 0
    case Setting => Distance(s.worker, cap) + 4
    case Notifying => Distance(s.worker, cap) + 3
    case Joining => Distance(s.worker, cap) + 2
    case Forgetting => 1
    case Spawning => 0
  }

  lemma WindingIsStep(s: State, cap: nat)
    requires Invariant(s) && s.thread
    ensures Next(s, Winding(s), cap) && ToReturn(Winding(s), cap) < ToReturn(s, cap)
    ensures Winding(s).thread || (Winding(s).owner.Idle? && Winding(s).flag && !Winding(s).connected)
  {
  }

  /** From every reachable state with a thread `shutdown` can be called, or gone on with, and return with the thread gone. */
  lemma {:induction false} ShutdownReturns(states: seq<State>, cap: nat) returns (more: seq<State>)
    requires Trace(states, cap) && states[|states| - 1].thread
    ensures Trace(states + more, cap) && more != [] && |more| <= ToReturn(states[|states| - 1], cap)
    ensures var t := more[|more| - 1];
            t.owner.Idle? && !t.thread && t.flag && !t.connected
    decreases ToReturn(states[|states| - 1], cap)
  {
    var s := states[|states| - 1];
    Reachable(states, cap, |states| - 1);
    WindingIsStep(s, cap);
    hide Invariant; hide Next; hide ToReturn; hide Winding;
    Extended(states, cap, Winding(s));
    more := [Winding(s)];
    if Winding(s).thread {
      var rest := ShutdownReturns(states + [Winding(s)], cap);
      assert states + [Winding(s)] + rest == states + ([Winding(s)] + rest);
      more := [Winding(s)] + rest;
    }
  }
}
