/**
 * `directory_reader::read` (the Windows branch): a traversal with an explicit stack of suspended
 * search handles, proved against the recursive `Preorder`.
 */
module Reader {
  import opened Common
  import opened Tree

  /** What the manipulator does when it is called: nothing special, set `abort_`, or throw. */
  datatype Reaction = Continues | Aborts | Throws

  datatype OpenResult = Opens | PathNotFound | OpenError

  /**
   * The world of one traversal: what each directory lists, which of them fail to open or to be
   * read to the end, what the manipulator does on its n-th call, and whether a stale error code
   * is seen after the n-th call.
   */
  datatype World = World(list: Path -> seq<Node>, open: Path -> OpenResult, breaks: Path -> bool,
                         reacts: nat -> Reaction, stale: nat -> bool)

  datatype Exit = Returned | Vanished | Threw

  /** `world` lists the tree below `dir`, whose own listing is `kids`. */
  ghost predicate Lists(world: World, kids: seq<Node>, dir: Path)
    decreases kids
  {
    kids != [] ==>
      && Lists(world, kids[1..], dir)
      && (kids[0].Dir? && !Skipped(kids[0].name) ==>
            world.list(dir + [kids[0].name]) == kids[0].kids && Lists(world, kids[0].kids, dir + [kids[0].name]))
  }

  /** A bound on the work left in a listing. */
  ghost function Weight(kids: seq<Node>): nat
    decreases kids
  {
    if kids == [] then 0
    else (if kids[0].Dir? then Weight(kids[0].kids) else 0) + 2 + Weight(kids[1..])
  }

  /** The search handles of the operating system: what each open one has still to deliver. */
  class Handles {
    var pending: map<nat, seq<Node>>
    var last: nat

    ghost predicate Valid()
      reads this
    {
      forall h :: h in pending ==> h <= last
    }

    constructor ()
      ensures Valid() && pending == map[]
    {
      pending := map[];
      last := 0;
    }

    /** A handle never seen before, positioned on the first entry. */
    method FindFirst(world: World, path: Path) returns (handle: Option<nat>, entry: Option<Node>)
      requires Valid()
      modifies this
      ensures Valid()
      ensures world.open(path).Opens? && world.list(path) != [] ==>
                && handle.Some? && handle.value !in old(pending) && entry == Some(world.list(path)[0])
                && pending == old(pending)[handle.value := world.list(path)[1..]]
      ensures !(world.open(path).Opens? && world.list(path) != []) ==>
                handle.None? && entry.None? && pending == old(pending)
    {
      var kids := world.list(path);
      if world.open(path).Opens? && kids != [] {
        last := last + 1;
        pending := pending[last := kids[1..]];
        return Some(last), Some(kids[0]);
      }
      return None, None;
    }

    method FindNext(handle: nat) returns (entry: Option<Node>)
      requires Valid() && handle in pending
      modifies this
      ensures Valid()
      ensures var left := old(pending)[handle];
              if left == [] then entry.None? && pending == old(pending)
              else entry == Some(left[0]) && pending == old(pending)[handle := left[1..]]
    {
      var left := pending[handle];
      if left == [] {
        return None;
      }
      pending := pending[handle := left[1..]];
      return Some(left[0]);
    }

    /** Only an open handle can be closed, so none is closed twice. */
    method FindClose(handle: nat)
      requires Valid() && handle in pending
      modifies this
      ensures Valid() && pending == old(pending) - {handle}
    {
      pending := pending - {handle};
    }
  }

  datatype Frame = Frame(handle: nat, path: Path)

  /** The suspended directories, innermost first: each holds a handle of its own. */
  ghost predicate Suspended(stack: seq<Frame>, pending: map<nat, seq<Node>>, world: World)
    decreases |stack|
  {
    stack != [] ==>
      && stack[0].handle in pending && stack[0].handle !in StackHandles(stack[1..])
      && |stack[0].path| == |stack| && Lists(world, pending[stack[0].handle], stack[0].path)
      && Suspended(stack[1..], pending, world)
  }

  ghost function StackHandles(stack: seq<Frame>): set<nat>
    decreases |stack|
  {
    if stack == [] then {} else {stack[0].handle} + StackHandles(stack[1..])
  }

  ghost function PendingOf(f: Frame, pending: map<nat, seq<Node>>): seq<Node> {
    if f.handle in pending then pending[f.handle] else []
  }

  ghost function StackVisits(stack: seq<Frame>, pending: map<nat, seq<Node>>, opts: Options): seq<Visit>
    decreases |stack|
  {
    if stack == [] then []
    else Preorder(PendingOf(stack[0], pending), stack[0].path, opts) + StackVisits(stack[1..], pending, opts)
  }

  ghost function StackWeight(stack: seq<Frame>, pending: map<nat, seq<Node>>): nat
    decreases |stack|
  {
    if stack == [] then 0 else Weight(PendingOf(stack[0], pending)) + 1 + StackWeight(stack[1..], pending)
  }

  /** Two handle tables that agree on the suspended handles are the same for the stack. */
  lemma {:induction false} StackSame(stack: seq<Frame>, a: map<nat, seq<Node>>, b: map<nat, seq<Node>>, opts: Options, world: World)
    requires Suspended(stack, a, world)
    requires forall h :: h in StackHandles(stack) && h in a ==> h in b && a[h] == b[h]
    ensures Suspended(stack, b, world) && StackHandles(stack) <= a.Keys
    ensures StackVisits(stack, a, opts) == StackVisits(stack, b, opts)
    ensures StackWeight(stack, a) == StackWeight(stack, b)
    decreases |stack|
  {
    if stack != [] {
      StackSame(stack[1..], a, b, opts, world);
    }
  }

  lemma ConcatAssoc(a: seq<Visit>, b: seq<Visit>, c: seq<Visit>)
    ensures a + (b + c) == a + b + c
  {
  }

  /** What pushing a directory does to the stack. */
  lemma StackPush(f: Frame, stack: seq<Frame>, pending: map<nat, seq<Node>>, opts: Options, world: World)
    ensures StackHandles([f] + stack) == {f.handle} + StackHandles(stack)
    ensures StackVisits([f] + stack, pending, opts) == Preorder(PendingOf(f, pending), f.path, opts) + StackVisits(stack, pending, opts)
    ensures StackWeight([f] + stack, pending) == Weight(PendingOf(f, pending)) + 1 + StackWeight(stack, pending)
    ensures Suspended([f] + stack, pending, world) <==>
              (f.handle in pending && f.handle !in StackHandles(stack) && |f.path| == |stack| + 1 &&
               Lists(world, pending[f.handle], f.path) && Suspended(stack, pending, world))
  {
    assert ([f] + stack)[1..] == stack;
  }

  /** The listing still to be read in the current directory, the entry in hand first. */
  function InHand(entry: Option<Node>, left: seq<Node>): seq<Node> {
    if entry.Some? then [entry.value] + left else left
  }

  lemma NothingSuspended(pending: map<nat, seq<Node>>, opts: Options)
    ensures StackVisits([], pending, opts) == []
  {
  }

  lemma RegroupVisits(a: seq<Visit>, b: seq<Visit>, c: seq<Visit>, d: seq<Visit>)
    ensures a + b + c + d == a + (b + (c + d))
  {
  }

  lemma FirstOfListing(n: Node, left: seq<Node>, dir: Path, opts: Options, world: World)
    requires !Skipped(n.name) && Lists(world, InHand(Some(n), left), dir)
    ensures Lists(world, left, dir)
    ensures Preorder(InHand(Some(n), left), dir, opts) ==
              (if Reported(n, opts) then [Visit(dir, |dir|, n)] else []) +
              (if Descends(n, |dir|, opts) then Preorder(n.kids, dir + [n.name], opts) else []) + Preorder(left, dir, opts)
    ensures n.Dir? ==> world.list(dir + [n.name]) == n.kids && Lists(world, n.kids, dir + [n.name])
    ensures Weight(InHand(Some(n), left)) == (if n.Dir? then Weight(n.kids) else 0) + 2 + Weight(left)
  {
    assert InHand(Some(n), left)[0] == n && InHand(Some(n), left)[1..] == left;
  }

  datatype Step = NextEntry | LastEntry | Descended | Raised

  class DirectoryReader {
    const world: World
    const opts: Options
    const handles: Handles

    var path: Path
    var level: nat
    var abort: bool
    var handle: Option<nat>
    var stack: seq<Frame>
    var calls: seq<Visit>

    constructor (world: World, opts: Options, handles: Handles)
      ensures this.world == world && this.opts == opts && this.handles == handles
    {
      this.world, this.opts, this.handles := world, opts, handles;
      path, level, abort, handle, stack, calls := [], 0, false, None, [], [];
    }

    ghost predicate Suspends()
      reads this, handles
    {
      && handles.Valid() && Suspended(stack, handles.pending, world)
      && |path| == |stack| + 1
    }

    /** Standing in a directory: its handle is open and is not one of the suspended ones. */
    ghost predicate Inside(entry: Option<Node>)
      reads this, handles
    {
      && Suspends() && level == |path|
      && handle.Some? && handle.value in handles.pending && handle.value !in StackHandles(stack)
      && Lists(world, InHand(entry, handles.pending[handle.value]), path)
    }

    /** The calls still to come, standing in a directory with `entry` in hand. */
    ghost function ToCome(entry: Option<Node>): seq<Visit>
      requires Inside(entry)
      reads this, handles
    {
      Preorder(InHand(entry, handles.pending[handle.value]), path, opts) + StackVisits(stack, handles.pending, opts)
    }

    /** No call so far has asked to stop, except that the last one has if `abort` is set. */
    ghost predicate Quiet()
      reads this`abort, this`calls
    {
      && (forall i :: 0 <= i < |calls| - 1 ==> world.reacts(i).Continues?)
      && (abort ==> calls != [] && world.reacts(|calls| - 1).Aborts?)
      && (!abort && calls != [] ==> world.reacts(|calls| - 1).Continues?)
    }

    /** Calls the manipulator on entry `n` of the current directory. */
    method Report(n: Node) returns (threw: bool)
      requires Quiet() && !abort
      modifies this`calls, this`abort
      ensures calls == old(calls) + [Visit(path, level, n)]
      ensures threw <==> world.reacts(|old(calls)|).Throws?
      ensures abort <==> world.reacts(|old(calls)|).Aborts?
      ensures !threw ==> Quiet()
      ensures forall i :: 0 <= i < |calls| - 1 ==> world.reacts(i).Continues?
    {
      var reaction := world.reacts(|calls|);
      calls := calls + [Visit(path, level, n)];
      abort := reaction.Aborts?;
      threw := reaction.Throws?;
    }

    /** `list_directories_`, the mask and the exclusion decide whether the manipulator is called. */
    method Announce(n: Node) returns (threw: bool)
      requires Quiet() && !abort && level == |path|
      modifies this`calls, this`abort
      ensures calls == old(calls) + (if Reported(n, opts) then [Visit(path, |path|, n)] else [])
      ensures threw ==> calls != [] && !abort && world.reacts(|calls| - 1).Throws? && Reported(n, opts)
      ensures !threw ==> Quiet()
      ensures abort ==> calls != [] && calls[|calls| - 1].node == n
      ensures forall i :: 0 <= i < |calls| - 1 ==> world.reacts(i).Continues?
    {
      threw := false;
      if n.Dir? {
        if opts.listDirectories && opts.matches(n.name) {
          threw := Report(n);
        }
      } else if opts.matches(n.name) {
        threw := Report(n);
      }
    }

    /** The handles open now are those of `base`, untouched, and the traversal's own ones. */
    ghost predicate Owns(base: map<nat, seq<Node>>)
      reads this, handles
    {
      var own := StackHandles(stack) + (if handle.Some? then {handle.value} else {});
      && handles.pending.Keys == base.Keys + own && base.Keys !! own
      && (forall h :: h in base && h in handles.pending ==> handles.pending[h] == base[h])
    }

    /** Between two directories, or still holding the handle of the one just left. */
    ghost predicate Holds(base: map<nat, seq<Node>>)
      reads this, handles
    {
      && Suspends() && Owns(base)
      && (handle.Some? ==> handle.value in handles.pending && handle.value !in StackHandles(stack))
    }

    ghost function WorkInside(entry: Option<Node>): nat
      requires Inside(entry)
      reads this, handles
    {
      StackWeight(stack, handles.pending) + Weight(InHand(entry, handles.pending[handle.value]))
    }

    /** What is left to do, to show that the traversal ends. */
    ghost function Work(): nat
      requires Suspends()
      reads this, handles
    {
      StackWeight(stack, handles.pending) + (if handle.None? then Weight(world.list(path)) + 1 else 0)
    }

    /** The calls still to come, between two directories. */
    ghost function Planned(): seq<Visit>
      requires Suspends()
      reads this, handles
    {
      (if handle.None? then Preorder(world.list(path), path, opts) else []) + StackVisits(stack, handles.pending, opts)
    }

    /** Inside a directory, on the way to making the calls `plan` with no more than `work` to do. */
    ghost predicate At(entry: Option<Node>, plan: seq<Visit>, work: nat, base: map<nat, seq<Node>>)
      reads this, handles
    {
      Inside(entry) && Owns(base) && Quiet() && calls + ToCome(entry) == plan && WorkInside(entry) <= work
    }

    /** The same between two directories. */
    ghost predicate Between(plan: seq<Visit>, work: nat, base: map<nat, seq<Node>>)
      reads this, handles
    {
      && Holds(base) && Quiet() && calls + Planned() == plan && Work() <= work
      && (handle.None? ==> Lists(world, world.list(path), path))
    }

    /** The last call threw; everything is still held. */
    ghost predicate Broken(plan: seq<Visit>, base: map<nat, seq<Node>>)
      reads this, handles
    {
      && Holds(base) && calls <= plan && !abort && calls != [] && world.reacts(|calls| - 1).Throws?
      && (forall i :: 0 <= i < |calls| - 1 ==> world.reacts(i).Continues?)
    }

    /** Pushes the current directory, with its handle where it stands, and turns to a subdirectory. */
    method Suspend(n: Node, ghost plan: seq<Visit>, ghost work: nat, ghost base: map<nat, seq<Node>>)
      requires Inside(None) && Owns(base) && Quiet()
      requires n.Dir? && world.list(path + [n.name]) == n.kids && Lists(world, n.kids, path + [n.name])
      requires calls + (Preorder(n.kids, path + [n.name], opts) + ToCome(None)) == plan
      requires WorkInside(None) + Weight(n.kids) + 2 <= work
      modifies this`path, this`handle, this`stack
      ensures handle.None? && Between(plan, work, base)
    {
      StackPush(Frame(handle.value, path), stack, handles.pending, opts, world);
      stack := [Frame(handle.value, path)] + stack;
      path := path + [n.name];
      handle := None;
    }

    /** The calls an entry stands for come first, then those of the rest of the directory. */
    lemma EntryFirst(n: Node)
      requires Inside(Some(n)) && !Skipped(n.name)
      ensures Inside(None)
      ensures ToCome(Some(n)) == (if Reported(n, opts) then [Visit(path, |path|, n)] else []) +
                ((if Descends(n, |path|, opts) then Preorder(n.kids, path + [n.name], opts) else []) + ToCome(None))
      ensures n.Dir? ==> world.list(path + [n.name]) == n.kids && Lists(world, n.kids, path + [n.name])
      ensures WorkInside(Some(n)) == (if n.Dir? then Weight(n.kids) else 0) + 2 + WorkInside(None)
    {
      hide Suspended; hide StackVisits; hide StackWeight; hide StackHandles; hide Preorder; hide Weight; hide Lists;
      hide Descends; hide Reported;
      var left := handles.pending[handle.value];
      assert InHand(None, left) == left;
      FirstOfListing(n, left, path, opts, world);
      var here: seq<Visit> := if Reported(n, opts) then [Visit(path, |path|, n)] else [];
      var below: seq<Visit> := if n.Dir? && Descends(n, |path|, opts) then Preorder(n.kids, path + [n.name], opts) else [];
      RegroupVisits(here, below, Preorder(left, path, opts), StackVisits(stack, handles.pending, opts));
    }

    /** A traversal of unlimited depth that is still in the directory after an abort was on a file. */
    ghost predicate LastAbortIsFile()
      reads this`abort, this`calls
    {
      abort && opts.recursive && opts.maxLevel == 0 ==> calls != [] && calls[|calls| - 1].node.File?
    }

    /** One entry: report it, and suspend the current directory if it is one to descend into. */
    method Process(n: Node, ghost plan: seq<Visit>, ghost work: nat, ghost base: map<nat, seq<Node>>) returns (step: Step)
      requires At(Some(n), plan, work, base) && !abort && !Skipped(n.name)
      modifies this`calls, this`abort, this`path, this`handle, this`stack
      ensures !step.LastEntry?
      ensures step.NextEntry? ==> At(None, plan, work, base)
      ensures step.Descended? ==> handle.None? && Between(plan, work, base)
      ensures step.Raised? ==> Broken(plan, base)
      ensures !step.Descended? ==> handle == old(handle) && stack == old(stack) && path == old(path)
      ensures step.NextEntry? ==> LastAbortIsFile()
    {
      hide Preorder; hide Weight; hide Lists;
      EntryFirst(n);
      ghost var report := if Reported(n, opts) then [Visit(path, |path|, n)] else [];
      ghost var later := (if Descends(n, |path|, opts) then Preorder(n.kids, path + [n.name], opts) else []) + ToCome(None);
      ConcatAssoc(calls, report, later);
      var threw := Announce(n);
      if threw {
        return Raised;
      }
      if n.Dir? && opts.recursive && (opts.maxLevel == 0 || |stack| < opts.maxLevel) {
        Suspend(n, plan, work, base);
        return Descended;
      }
      assert later == ToCome(None);
      return NextEntry;
    }

    /** The next entry of the current directory, if there is one. */
    method Advance(ghost plan: seq<Visit>, ghost work: nat, ghost base: map<nat, seq<Node>>) returns (next: Option<Node>)
      requires At(None, plan, work, base)
      modifies handles
      ensures At(next, plan, work, base)
      ensures next.None? ==> handles.pending[handle.value] == []
      ensures next.Some? ==> |handles.pending[handle.value]| < |old(handles.pending[handle.value])|
    {
      ghost var before := handles.pending;
      next := handles.FindNext(handle.value);
      StackSame(stack, before, handles.pending, opts, world);
      assert InHand(next, handles.pending[handle.value]) == before[handle.value];
    }

    lemma NothingInHand(entry: Option<Node>)
      requires Inside(entry) && (entry.Some? ==> Skipped(entry.value.name))
      ensures Inside(None) && ToCome(entry) == ToCome(None) && WorkInside(None) <= WorkInside(entry)
    {
      if entry.Some? {
        assert InHand(entry, handles.pending[handle.value])[1..] == handles.pending[handle.value];
      }
    }

    /** One turn of the inner loop: deal with the entry in hand, then fetch the next one. */
    method Turn(entry: Option<Node>, ghost plan: seq<Visit>, ghost work: nat, ghost base: map<nat, seq<Node>>)
      returns (step: Step, next: Option<Node>)
      requires At(entry, plan, work, base) && !abort
      modifies this`calls, this`abort, this`path, this`handle, this`stack, handles
      ensures step.NextEntry? || step.LastEntry? ==> At(next, plan, work, base) && LastAbortIsFile()
      ensures step.NextEntry? ==> |handles.pending[handle.value]| < |old(handles.pending[handle.value])|
      ensures step.LastEntry? ==> next.None? && handles.pending[handle.value] == []
      ensures step.Descended? ==> handle.None? && Between(plan, work, base)
      ensures step.Raised? ==> Broken(plan, base)
      ensures !step.Descended? ==> path == old(path)
    {
      hide Preorder; hide Weight; hide Lists;
      next := None;
      if entry.Some? && entry.value.name != "" && entry.value.name != "." && entry.value.name != ".." {
        step := Process(entry.value, plan, work, base);
        if !step.NextEntry? {
          return;
        }
      } else {
        NothingInHand(entry);
      }
      next := Advance(plan, work, base);
      step := if next.None? then LastEntry else NextEntry;
    }

    /** The inner loop: the entries of one directory, up to its end or to the first one to descend into. */
    method ScanDirectory(first: Option<Node>, ghost plan: seq<Visit>, ghost work: nat, ghost base: map<nat, seq<Node>>)
      returns (threw: bool)
      requires At(first, plan, work, base) && !abort
      modifies this`calls, this`abort, this`path, this`handle, this`stack, handles
      ensures Holds(base) && calls <= plan && (forall i :: 0 <= i < |calls| - 1 ==> world.reacts(i).Continues?)
      ensures !threw || abort ==> Quiet()
      ensures !threw && !abort ==> Between(plan, work, base)
      ensures threw && abort ==> LastAbortIsFile()
      ensures threw ==> world.breaks(old(path)) || (calls != [] && !world.reacts(|calls| - 1).Continues?)
    {
      hide Lists;
      var entry := first;
      while true
        invariant At(entry, plan, work, base) && path == old(path) && LastAbortIsFile()
        decreases |handles.pending[handle.value]|
      {
        if abort {
          return world.stale(|calls|);
        }
        var step, next := Turn(entry, plan, work, base);
        if step.Descended? {
          return false;
        } else if step.Raised? {
          return true;
        } else if step.LastEntry? {
          return world.breaks(path);
        }
        entry := next;
      }
    }

    /** The head of the outer loop: every handle still open is a suspended one. */
    ghost predicate Head(plan: seq<Visit>, base: map<nat, seq<Node>>)
      reads this, handles
    {
      && Suspends() && OwnsStack(base) && Quiet() && calls <= plan
      && (!abort ==> calls + Planned() == plan && (handle.None? ==> Lists(world, world.list(path), path)))
    }

    ghost predicate OwnsStack(base: map<nat, seq<Node>>)
      reads this, handles
    {
      && handles.pending.Keys == base.Keys + StackHandles(stack) && base.Keys !! StackHandles(stack)
      && (forall h :: h in base && h in handles.pending ==> handles.pending[h] == base[h])
    }

    /** Opens the directory at `path`; on success the work left has gone down by one. */
    method OpenDirectory(ghost plan: seq<Visit>, ghost base: map<nat, seq<Node>>) returns (entry: Option<Node>)
      requires Head(plan, base) && !abort && handle.None?
      modifies this`handle, this`level, handles
      ensures handle.Some? ==> At(entry, plan, old(Work()) - 1, base)
      ensures handle.None? ==> Suspends() && OwnsStack(base)
      ensures handle.None? <==> !(world.open(path).Opens? && world.list(path) != [])
    {
      hide Preorder; hide Weight; hide Lists; hide PendingOf;
      ghost var before := handles.pending;
      level := |stack| + 1;
      handle, entry := handles.FindFirst(world, path);
      if handle.Some? {
        Positioned(before, entry);
      }
    }

    lemma Positioned(before: map<nat, seq<Node>>, entry: Option<Node>)
      requires handle.Some? && handle.value !in before && entry.Some? && handle.value in handles.pending
      requires handles.pending == before[handle.value := handles.pending[handle.value]]
      requires InHand(entry, handles.pending[handle.value]) == world.list(path)
      requires Suspended(stack, before, world)
      ensures StackHandles(stack) <= before.Keys && Suspended(stack, handles.pending, world)
      ensures StackVisits(stack, before, opts) == StackVisits(stack, handles.pending, opts)
      ensures StackWeight(stack, before) == StackWeight(stack, handles.pending)
    {
      StackSame(stack, before, before, opts, world);
      StackSame(stack, before, handles.pending, opts, world);
    }

    /** Goes back to the innermost suspended directory; there is no entry in hand yet. */
    method Resume(ghost plan: seq<Visit>, ghost base: map<nat, seq<Node>>)
      requires Head(plan, base) && !abort && handle.Some? && stack != []
      modifies this`handle, this`level, this`path, this`stack
      ensures At(None, plan, old(Work()) - 1, base)
    {
      hide Preorder; hide Weight; hide Lists;
      handle, path, stack := Some(stack[0].handle), stack[0].path, stack[1..];
      level := |stack| + 1;
    }

    /** The scope exit of one directory: its handle, if it is still held, is closed. */
    method LeaveDirectory(ghost plan: seq<Visit>, ghost work: nat, ghost base: map<nat, seq<Node>>)
      requires Holds(base)
      modifies handles
      ensures Suspends() && OwnsStack(base)
      ensures old(Between(plan, work, base)) ==> Head(plan, base) && Work() <= work
    {
      hide Preorder; hide Weight; hide Lists;
      ghost var before := handles.pending;
      if handle.Some? {
        handles.FindClose(handle.value);
        StackSame(stack, before, handles.pending, opts, world);
      }
    }

    /** The scope exit of the traversal: every suspended handle is closed. */
    method CloseSuspended(ghost base: map<nat, seq<Node>>)
      requires Suspends() && OwnsStack(base)
      modifies this`stack, handles
      ensures handles.Valid() && handles.pending == base
    {
      hide Preorder; hide Weight; hide Lists;
      while stack != []
        invariant handles.Valid() && Suspended(stack, handles.pending, world) && OwnsStack(base)
        decreases |stack|
      {
        ghost var before := handles.pending;
        handles.FindClose(stack[0].handle);
        stack := stack[1..];
        StackSame(stack, before, handles.pending, opts, world);
      }
      assert handles.pending.Keys == base.Keys;
    }

    /** One directory, or as much of it as comes before the first one to descend into. */
    method Round(ghost plan: seq<Visit>, ghost base: map<nat, seq<Node>>) returns (exit: Option<Exit>)
      requires Head(plan, base) && !abort
      modifies this, handles
      ensures Suspends() && OwnsStack(base) && calls <= plan
      ensures forall i :: 0 <= i < |calls| - 1 ==> world.reacts(i).Continues?
      ensures exit.None? ==> Head(plan, base) && (abort || Work() < old(Work()))
      ensures exit == Some(Returned) ==> Quiet() && !abort && calls == plan
      ensures abort ==> Quiet()
      ensures abort && exit.Some? ==> LastAbortIsFile()
      ensures exit == Some(Vanished) ==> world.open(path).PathNotFound?
      ensures exit == Some(Threw) ==> Failed()
    {
      hide Preorder; hide Weight; hide Lists; hide StackWeight; hide Suspended; hide StackVisits; hide StackHandles; hide PendingOf;
      ghost var work := Work();
      var entry := None;
      if handle.None? {
        entry := OpenDirectory(plan, base);
        if handle.None? {
          return Some(if world.open(path).PathNotFound? then Vanished else Threw);
        }
      } else if stack == [] {
        NothingSuspended(handles.pending, opts);
        return Some(Returned);
      } else {
        Resume(plan, base);
      }
      var threw := ScanDirectory(entry, plan, work - 1, base);
      LeaveDirectory(plan, work - 1, base);
      exit := if threw then Some(Threw) else None;
    }

    /** Something in the world went wrong, or the last call asked to stop. */
    ghost predicate Failed()
      reads this`calls
    {
      || (exists p :: world.open(p).OpenError? || (world.open(p).Opens? && world.list(p) == []) || world.breaks(p))
      || (calls != [] && !world.reacts(|calls| - 1).Continues?)
    }

    /**
     * The traversal. Whatever the world does, the calls made are a prefix of the recursive preorder,
     * none comes after an abort or an exception, and every handle opened has been closed once.
     */
    method Read(root: string) returns (exit: Exit)
      requires handles.Valid() && Lists(world, world.list([root]), [root])
      modifies this, handles
      ensures handles.Valid() && handles.pending == old(handles.pending)
      ensures calls <= Preorder(world.list([root]), [root], opts)
      ensures exit.Returned? && !abort ==> calls == Preorder(world.list([root]), [root], opts)
      ensures forall i :: 0 <= i < |calls| - 1 ==> world.reacts(i).Continues?
      ensures abort ==> calls != [] && world.reacts(|calls| - 1).Aborts?
      ensures abort && !exit.Returned? ==> LastAbortIsFile()
      ensures exit.Vanished? ==> world.open(path).PathNotFound?
      ensures exit.Threw? ==> Failed()
    {
      hide Preorder; hide Weight; hide Lists; hide PendingOf;
      ghost var base := handles.pending;
      ghost var plan := Preorder(world.list([root]), [root], opts);
      path, stack, handle, abort, calls := [root], [], None, false, [];
      while !abort
        invariant Head(plan, base)
        decreases if abort then 0 else 1, Work()
      {
        var over := Round(plan, base);
        if over.Some? {
          CloseSuspended(base);
          return over.value;
        }
      }
      CloseSuspended(base);
      return Returned;
    }
  }
}
