/**
 * A team run: the orchestrator's task statuses, and the service's event handler that
 * takes and drops file locks as statuses change.
 *
 * A handler pass is synchronous up to the first release, where it awaits a message
 * write; the rest of its task list is then resumed later, between other events.
 */
module TeamRun {
  import opened Prelude
  import opened TaskGraph
  import opened FileLocks

  datatype Status = Pending | Waiting | Running | Retrying | Blocked | Completed | Failed | Cancelled

  predicate Terminal(s: Status) {
    s.Completed? || s.Failed? || s.Cancelled? || s.Blocked?
  }

  type Statuses = map<Id, Status>

  /** What one run records about locks. */
  datatype Book = Book(locks: Locks, held: map<Id, seq<File>>, conflicts: map<Id, Option<Id>>)

  /** The body of the handler's loop for one task; the flag says it released and awaits. */
  function Visit(d: Declared, status: Statuses, b: Book, t: Id): (Book, bool)
    requires t in status
  {
    var files := d.Of(t);
    if status[t].Running? && files != [] && t !in b.held then
      if CanAcquire(b.locks, t, files)
      then (Book(Granted(b.locks, t, files), b.held[t := Dedup(files)], b.conflicts), false)
      else (b.(conflicts := b.conflicts[t := FirstHolder(b.locks, files)]), false)
    else if Terminal(status[t]) && t in b.held then
      (Book(Released(b.locks, t), b.held - {t}, b.conflicts), true)
    else
      (b, false)
  }

  /** A pass over `tasks`; the result holds the rest of the list when it was suspended. */
  function Pass(d: Declared, status: Statuses, b: Book, tasks: seq<Id>): (Book, Option<seq<Id>>)
    requires forall t | t in tasks :: t in status
    decreases |tasks|
  {
    if tasks == [] then (b, None)
    else
      var (b', released) := Visit(d, status, b, tasks[0]);
      if released then (b', Some(tasks[1..])) else Pass(d, status, b', tasks[1..])
  }

  /** The service's record of a live run. */
  class ActiveRun {
    const declared: Declared
    const registry: FileLockRegistry
    var held: map<Id, seq<File>>
    var conflicts: map<Id, Option<Id>>
    var settled: bool

    constructor (declared: Declared)
      ensures Contents() == Book(map[], map[], map[]) && !settled
      ensures this.declared == declared && fresh(registry)
    {
      this.declared := declared;
      registry := new FileLockRegistry();
      held, conflicts, settled := map[], map[], false;
    }

    ghost function Contents(): Book
      reads this, registry
    {
      Book(registry.locks, held, conflicts)
    }

    /** Runs the loop over a task list until it ends or awaits after a release. */
    method RunPass(status: Statuses, tasks: seq<Id>) returns (rest: Option<seq<Id>>)
      requires forall t | t in tasks :: t in status
      modifies this, registry
      ensures (Contents(), rest) == Pass(declared, status, old(Contents()), tasks)
      ensures settled == old(settled)
    {
      for i := 0 to |tasks|
        invariant settled == old(settled)
        invariant Pass(declared, status, old(Contents()), tasks) == Pass(declared, status, Contents(), tasks[i..])
      {
        var t := tasks[i];
        assert tasks[i..][0] == t && tasks[i..][1..] == tasks[i + 1..];
        var files := declared.Of(t);
        if status[t].Running? && files != [] && t !in held {
          var got := registry.Acquire(t, files);
          if got.Locked? {
            held := held[t := got.files];
          } else {
            var holder := registry.FindHolder(files);
            conflicts := conflicts[t := holder];
          }
        }
        if Terminal(status[t]) && t in held {
          registry.Release(t);
          held := held - {t};
          return Some(tasks[i + 1..]);
        }
      }
      return None;
    }

    /** The synchronous part of the event handler. */
    method OnOrchestratorEvent(status: Statuses, order: seq<Id>) returns (rest: Option<seq<Id>>)
      requires forall t | t in order :: t in status
      modifies this, registry
      ensures settled == old(settled)
      ensures old(settled) ==> Contents() == old(Contents()) && rest == None
      ensures !old(settled) ==> (Contents(), rest) == Pass(declared, status, old(Contents()), order)
    {
      if settled {
        return None;
      }
      rest := RunPass(status, order);
    }

    /** Drops the locks of every recorded holder. */
    method ReleaseAllRunLocks()
      modifies this, registry
      ensures held == map[] && conflicts == old(conflicts) && settled == old(settled)
      ensures Contents() == AllReleased(old(Contents()))
      ensures registry.locks == map f | f in old(registry.locks) && old(registry.locks)[f] !in old(held) :: old(registry.locks)[f]
    {
      var todo := held.Keys;
      while todo != {}
        invariant held == old(held) && conflicts == old(conflicts) && settled == old(settled)
        invariant todo <= held.Keys
        invariant registry.locks.Keys <= old(registry.locks).Keys
        invariant forall f | f in registry.locks :: registry.locks[f] == old(registry.locks)[f]
        invariant forall f | f in old(registry.locks) ::
            f in registry.locks <==> old(registry.locks)[f] !in held || old(registry.locks)[f] in todo
      {
        var t :| t in todo;
        registry.Release(t);
        todo := todo - {t};
      }
      held := map[];
    }
  }

  // ---- Runs -------------------------------------------------------------------

  /** A team: its graph, the order in which the graph lists tasks, and the declared files. */
  datatype Team = Team(g: Graph, order: seq<Id>, declared: Declared) {
    ghost predicate Valid() {
      && declared.Valid()
      && (forall t :: t in order <==> t in g)
      && (forall t | t in declared.ids :: t in g)
      && ConflictFree(g, declared)
    }
  }

  /**
   * `frames` are the tasks whose execution call has not returned, `agents` those a
   * cancellation can reach (a retried task is not among them), `suspended` the rest
   * lists of handler passes that are awaiting a write.
   */
  datatype State = State(status: Statuses, frames: set<Id>, agents: set<Id>, book: Book,
                         settled: bool, suspended: seq<seq<Id>>)

  datatype Step =
    | Start(t: Id)
    | Retry(t: Id)
    | Restart(t: Id)
    | Complete(t: Id)
    | Abort(t: Id)
    | Fail(t: Id, blocked: set<Id>)
    | Notify
    | Resume(i: nat)
    | CancelTeam
    | CancelRest
    | Finish

  /** Every orchestrator event runs the handler synchronously, unless the run is settled. */
  function Emit(team: Team, s: State): State
    requires forall t | t in team.order :: t in s.status
  {
    if s.settled then s
    else
      var (book, rest) := Pass(team.declared, s.status, s.book, team.order);
      s.(book := book, suspended := if rest.Some? then s.suspended + [rest.value] else s.suspended)
  }

  predicate DepsCompleted(g: Graph, status: Statuses, t: Id) {
    forall d | d in Deps(g, t) :: d in status && status[d].Completed?
  }

  predicate Enabled(team: Team, s: State, step: Step) {
    match step
    case Start(t) => !s.settled && t in s.status && s.status[t].Pending? && DepsCompleted(team.g, s.status, t)
    case Retry(t) => t in s.frames && t in s.status && (s.status[t].Running? || s.status[t].Cancelled?)
    case Restart(t) => t in s.frames && t in s.status && s.status[t].Retrying?
    case Complete(t) => t in s.frames && t in s.status && (s.status[t].Running? || s.status[t].Cancelled?)
    case Abort(t) => t in s.frames && t in s.status
    case Fail(t, blocked) =>
      && t in s.frames && t in s.status
      && forall x | x in blocked :: x in s.status && (s.status[x].Pending? || s.status[x].Waiting?)
    case Notify => true
    case Resume(i) => i < |s.suspended|
    case CancelTeam => !s.settled
    case CancelRest => s.settled
    case Finish => !s.settled && s.frames == {}
  }

  /** Gives each task of `ts` one status. */
  function Mark(status: Statuses, ts: set<Id>, to: Status): Statuses {
    map t | t in status :: if t in ts then to else status[t]
  }

  function Next(team: Team, s: State, step: Step): State
    requires Enabled(team, s, step)
    requires forall t | t in team.order :: t in s.status
    requires forall k | 0 <= k < |s.suspended| :: forall t | t in s.suspended[k] :: t in s.status
  {
    match step
    case Start(t) =>
      Emit(team, s.(status := s.status[t := Running], frames := s.frames + {t}, agents := s.agents + {t}))
    case Retry(t) =>
      Emit(team, s.(status := s.status[t := Retrying]))
    case Restart(t) =>
      Emit(team, s.(status := s.status[t := Running], agents := s.agents - {t}))
    case Complete(t) =>
      Emit(team, s.(status := s.status[t := Completed], frames := s.frames - {t}, agents := s.agents - {t}))
    case Abort(t) =>
      Emit(team, s.(status := s.status[t := Cancelled], frames := s.frames - {t}, agents := s.agents - {t}))
    case Fail(t, blocked) =>
      Emit(team, s.(status := Mark(s.status, blocked, Blocked)[t := Failed],
                    frames := s.frames - {t}, agents := s.agents - {t}))
    case Notify => Emit(team, s)
    case Resume(i) =>
      var (book, rest) := Pass(team.declared, s.status, s.book, s.suspended[i]);
      var others := s.suspended[..i] + s.suspended[i + 1..];
      s.(book := book, suspended := if rest.Some? then others + [rest.value] else others)
    case CancelTeam =>
      s.(settled := true, status := Mark(s.status, s.agents, Cancelled), agents := {}, book := AllReleased(s.book))
    case CancelRest =>
      s.(status := map t | t in s.status ::
           if s.status[t].Pending? || s.status[t].Waiting? then Cancelled else s.status[t])
    case Finish => s.(settled := true, book := AllReleased(s.book))
  }

  function AllReleased(b: Book): Book {
    Book(map f | f in b.locks && b.locks[f] !in b.held :: b.locks[f], map[], b.conflicts)
  }

  ghost predicate Init(team: Team, s: State) {
    && s.status == (map t | t in team.g :: Pending)
    && s.frames == {} && s.agents == {} && !s.settled && s.suspended == []
    && s.book == Book(map[], map[], map[])
  }

  // ---- Invariant ----------------------------------------------------------------

  ghost predicate Disjoint(d: Declared, ts: set<Id>) {
    forall a, b | a in ts && b in ts && a != b :: !Shares(d, a, b)
  }

  /** The lock table says exactly what the record of holders says, with no conflict ever seen. */
  ghost predicate Coherent(d: Declared, b: Book) {
    LocksAre(d, b.locks, b.held.Keys) && Recorded(d, b.held) && b.conflicts == map[]
  }

  /** Exactly the declared files of the holders are locked, each by its own. */
  ghost predicate LocksAre(d: Declared, locks: Locks, holders: set<Id>) {
    && (forall f | f in locks :: locks[f] in holders && f in d.Of(locks[f]))
    && (forall t, f | t in holders && f in d.Of(t) :: f in locks && locks[f] == t)
  }

  ghost predicate Recorded(d: Declared, held: map<Id, seq<File>>) {
    forall t | t in held :: d.Of(t) != [] && held[t] == Dedup(d.Of(t))
  }

  /** Task bookkeeping: whatever has started has all its dependencies completed. */
  ghost predicate TasksOk(g: Graph, status: Statuses, frames: set<Id>) {
    && status.Keys == g.Keys
    && frames <= status.Keys
    && (forall t | t in status :: status[t].Running? || status[t].Retrying? ==> t in frames)
    && (forall t | t in frames :: !status[t].Completed? && !status[t].Pending?)
    && (forall t | t in status && (t in frames || status[t].Completed?) :: DepsCompleted(g, status, t))
  }

  ghost predicate Known(status: Statuses, suspended: seq<seq<Id>>) {
    forall k | 0 <= k < |suspended| :: forall t | t in suspended[k] :: t in status
  }

  /** While the run is live, exactly the executing tasks with declared files hold locks. */
  ghost predicate InStep(d: Declared, status: Statuses, frames: set<Id>, held: set<Id>) {
    && (forall t | t in frames :: t in status && (status[t].Running? || status[t].Retrying?))
    && forall t :: t in held <==> t in frames && d.Of(t) != []
  }

  ghost predicate Inv(team: Team, s: State) {
    && TasksOk(team.g, s.status, s.frames) && s.agents <= s.frames
    && Known(s.status, s.suspended)
    && Coherent(team.declared, s.book)
    && Disjoint(team.declared, s.book.held.Keys + s.frames)
    && (!s.settled ==> InStep(team.declared, s.status, s.frames, s.book.held.Keys))
  }

  // ---- One task, one pass ---------------------------------------------------------

  lemma {:induction false} GrantCoherent(d: Declared, b: Book, t: Id)
    requires Coherent(d, b) && Disjoint(d, b.held.Keys + {t}) && t !in b.held && d.Of(t) != []
    ensures CanAcquire(b.locks, t, d.Of(t))
    ensures Coherent(d, Book(Granted(b.locks, t, d.Of(t)), b.held[t := Dedup(d.Of(t))], b.conflicts))
  {
    NoneLocked(d, b, t);
    hide Declared.Of, Granted, CanAcquire, Disjoint, Coherent;
    GrantedAt(b.locks, t, d.Of(t));
    Grants(d, b, t, Granted(b.locks, t, d.Of(t)));
  }

  lemma {:induction false} NoneLocked(d: Declared, b: Book, t: Id)
    requires Coherent(d, b) && Disjoint(d, b.held.Keys + {t}) && t !in b.held
    ensures forall f | f in b.locks :: f !in d.Of(t)
  {
    hide Declared.Of, Disjoint;
    forall f | f in b.locks ensures f !in d.Of(t) {
      NotShared(d, b.held.Keys + {t}, b.locks[f], t, f);
    }
  }

  lemma {:induction false} Grants(d: Declared, b: Book, t: Id, locks: Locks)
    requires Coherent(d, b) && t !in b.held && d.Of(t) != [] && forall f | f in b.locks :: f !in d.Of(t)
    requires forall f :: f in locks <==> f in b.locks || f in d.Of(t)
    requires (forall f | f in d.Of(t) :: locks[f] == t) && forall f | f in b.locks :: locks[f] == b.locks[f]
    ensures Coherent(d, Book(locks, b.held[t := Dedup(d.Of(t))], b.conflicts))
  {
    var held := b.held[t := Dedup(d.Of(t))];
    assert Recorded(d, held) by {
      hide Declared.Of, LocksAre;
    }
    assert held.Keys == b.held.Keys + {t};
    hide Recorded;
    LocksGrow(d, b.locks, b.held.Keys, t, locks);
  }

  lemma {:induction false} LocksGrow(d: Declared, locks: Locks, holders: set<Id>, t: Id, locks': Locks)
    requires LocksAre(d, locks, holders) && t !in holders && forall f | f in locks :: f !in d.Of(t)
    requires forall f :: f in locks' <==> f in locks || f in d.Of(t)
    requires (forall f | f in d.Of(t) :: locks'[f] == t) && forall f | f in locks :: locks'[f] == locks[f]
    ensures LocksAre(d, locks', holders + {t})
  {
    hide Declared.Of;
  }

  lemma {:induction false} NotShared(d: Declared, ts: set<Id>, a: Id, b: Id, f: File)
    requires Disjoint(d, ts) && a in ts && b in ts && a != b && f in d.Of(a)
    ensures f !in d.Of(b)
  {
    assert !Shares(d, a, b);
  }

  lemma {:induction false} GrantedAt(locks: Locks, t: Id, files: seq<File>)
    requires forall f | f in locks :: f !in files
    ensures CanAcquire(locks, t, files)
    ensures forall f :: f in Granted(locks, t, files) <==> f in locks || f in files
    ensures forall f | f in files :: Granted(locks, t, files)[f] == t
    ensures forall f | f in locks :: Granted(locks, t, files)[f] == locks[f]
  {
  }

  lemma {:induction false} ReleaseCoherent(d: Declared, b: Book, t: Id)
    requires Coherent(d, b)
    ensures Coherent(d, Book(Released(b.locks, t), b.held - {t}, b.conflicts))
  {
    assert Recorded(d, b.held - {t}) by {
      hide LocksAre;
    }
    assert (b.held - {t}).Keys == b.held.Keys - {t};
    hide Recorded, Released;
    LocksShrink(d, b.locks, b.held.Keys, t);
  }

  lemma {:induction false} LocksShrink(d: Declared, locks: Locks, holders: set<Id>, t: Id)
    requires LocksAre(d, locks, holders)
    ensures LocksAre(d, Released(locks, t), holders - {t})
  {
    hide Declared.Of;
  }

  lemma {:induction false} DisjointSubset(d: Declared, a: set<Id>, b: set<Id>)
    requires a <= b && Disjoint(d, b)
    ensures Disjoint(d, a)
  {}

  lemma {:induction false} VisitCoherent(d: Declared, status: Statuses, frames: set<Id>, b: Book, t: Id)
    requires t in status && Coherent(d, b) && Disjoint(d, b.held.Keys + frames)
    requires status[t].Running? ==> t in frames
    ensures
      var b' := Visit(d, status, b, t).0;
      && Coherent(d, b') && Disjoint(d, b'.held.Keys + frames)
      && b'.held.Keys == if status[t].Running? && d.Of(t) != [] then b.held.Keys + {t}
                         else if Terminal(status[t]) then b.held.Keys - {t} else b.held.Keys
  {
    hide Shares, Disjoint, Coherent;
    var b' := Visit(d, status, b, t).0;
    if status[t].Running? && d.Of(t) != [] && t !in b.held {
      DisjointSubset(d, b.held.Keys + {t}, b.held.Keys + frames);
      GrantCoherent(d, b, t);
      assert b'.held.Keys == b.held.Keys + {t};
    } else {
      ReleaseCoherent(d, b, t);
      HeldNonEmpty(d, b);
    }
    DisjointSubset(d, b'.held.Keys + frames, b.held.Keys + frames);
  }

  lemma {:induction false} HeldNonEmpty(d: Declared, b: Book)
    requires Coherent(d, b)
    ensures forall x | x in b.held :: d.Of(x) != []
  {}

  /** Any pass, from any state, keeps the record coherent and sees no conflict. */
  lemma {:induction false} PassCoherent(d: Declared, status: Statuses, frames: set<Id>, b: Book, tasks: seq<Id>)
    requires forall t | t in tasks :: t in status
    requires forall t | t in status :: status[t].Running? ==> t in frames
    requires Coherent(d, b) && Disjoint(d, b.held.Keys + frames)
    ensures
      var (b', rest) := Pass(d, status, b, tasks);
      && Coherent(d, b') && Disjoint(d, b'.held.Keys + frames)
      && (rest.Some? ==> forall t | t in rest.value :: t in tasks)
    decreases |tasks|
  {
    if tasks != [] {
      VisitCoherent(d, status, frames, b, tasks[0]);
      var (b', released) := Visit(d, status, b, tasks[0]);
      if !released {
        PassCoherent(d, status, frames, b', tasks[1..]);
      }
    }
  }

  /** The task neither executes without its locks nor holds any after finishing. */
  ghost predicate Quiet(d: Declared, status: Statuses, b: Book, t: Id) {
    t in status ==>
      && (status[t].Running? && d.Of(t) != [] ==> t in b.held)
      && (Terminal(status[t]) ==> t !in b.held)
  }

  lemma {:induction false} QuietPass(d: Declared, status: Statuses, b: Book, tasks: seq<Id>)
    requires forall t | t in tasks :: t in status && Quiet(d, status, b, t)
    ensures Pass(d, status, b, tasks) == (b, None)
  {
    if tasks != [] {
      assert Quiet(d, status, b, tasks[0]);
      QuietPass(d, status, b, tasks[1..]);
    }
  }

  /** After one task changed, the synchronous part of the pass brings the holders up to date. */
  lemma {:induction false} PassCatchesUp(d: Declared, status: Statuses, frames: set<Id>, b: Book, tasks: seq<Id>, t: Id)
    requires forall x | x in tasks :: x in status && (x == t || Quiet(d, status, b, x))
    requires forall x | x in status :: status[x].Running? ==> x in frames
    requires Coherent(d, b) && Disjoint(d, b.held.Keys + frames)
    requires t in tasks
    ensures Pass(d, status, b, tasks).0.held.Keys ==
            if status[t].Running? && d.Of(t) != [] then b.held.Keys + {t}
            else if Terminal(status[t]) then b.held.Keys - {t} else b.held.Keys
  {
    hide Coherent, Disjoint;
    var x := tasks[0];
    VisitCoherent(d, status, frames, b, x);
    var (b', released) := Visit(d, status, b, x);
    if x != t {
      assert Quiet(d, status, b, x) && b' == b && !released;
      PassCatchesUp(d, status, frames, b, tasks[1..], t);
    } else if !released {
      forall y | y in tasks[1..] ensures Quiet(d, status, b', y) {
        assert y == t || Quiet(d, status, b, y);
      }
      QuietPass(d, status, b', tasks[1..]);
    }
  }

  // ---- Steps ----------------------------------------------------------------------

  /** From a started or completed task only completed tasks lie below. */
  lemma {:induction false} BelowCompleted(g: Graph, status: Statuses, frames: set<Id>, a: Id, b: Id)
    requires TasksOk(g, status, frames) && a in status && DepsCompleted(g, status, a)
    requires Depends(g, a, b) && a != b
    ensures b in status && status[b].Completed?
  {
    var c := {a} + set t | t in status && status[t].Completed?;
    forall x | x in c ensures DepsIn(g, x, c) {}
    if b !in c {
      ClosedReach(g, c, a, b);
    }
  }

  /** A task that may start shares no file with any executing one. */
  lemma {:induction false} StarterDisjoint(team: Team, s: State, t: Id, u: Id)
    requires team.Valid() && Inv(team, s) && Enabled(team, s, Start(t)) && u in s.frames
    ensures u != t && !Shares(team.declared, t, u)
  {
    if Shares(team.declared, t, u) {
      assert t in team.declared.ids && u in team.declared.ids;
      if Depends(team.g, t, u) {
        BelowCompleted(team.g, s.status, s.frames, t, u);
      } else if Depends(team.g, u, t) {
        BelowCompleted(team.g, s.status, s.frames, u, t);
      }
    }
  }

  /** Completion is kept, so satisfied dependencies stay satisfied. */
  lemma {:induction false} DepsStay(g: Graph, status: Statuses, status': Statuses, t: Id)
    requires DepsCompleted(g, status, t)
    requires forall x | x in status && status[x].Completed? :: x in status' && status'[x].Completed?
    ensures DepsCompleted(g, status', t)
  {}

  /** How the orchestrator changes the status of `t`, with tasks `blocked` that never started. */
  ghost predicate Changes(g: Graph, status: Statuses, frames: set<Id>, status': Statuses, frames': set<Id>, t: Id) {
    && t in status && status'.Keys == status.Keys
    && (forall x | x in status && x != t ::
          status'[x] == status[x] || (status'[x].Blocked? && (status[x].Pending? || status[x].Waiting?)))
    && (|| (status[t].Pending? && status'[t].Running? && frames' == frames + {t} && DepsCompleted(g, status, t))
        || (t in frames && (status'[t].Running? || status'[t].Retrying?) && frames' == frames)
        || (t in frames && Terminal(status'[t]) && frames' == frames - {t}))
  }

  lemma {:induction false} TasksChange(g: Graph, status: Statuses, frames: set<Id>, status': Statuses, frames': set<Id>, t: Id)
    requires TasksOk(g, status, frames) && Changes(g, status, frames, status', frames', t)
    ensures TasksOk(g, status', frames')
  {
    hide DepsCompleted;
    assert forall x | x in status && status[x].Completed? :: status'[x].Completed?;
    forall x | x in status' && (x in frames' || status'[x].Completed?) ensures DepsCompleted(g, status', x) {
      DepsStay(g, status, status', x);
    }
  }

  /** Only the changed task can be out of step. */
  lemma {:induction false} OthersQuiet(team: Team, s: State, s1: State, t: Id, x: Id)
    requires Inv(team, s) && !s.settled
    requires Changes(team.g, s.status, s.frames, s1.status, s1.frames, t)
    requires s1.book == s.book && x != t
    ensures Quiet(team.declared, s1.status, s1.book, x)
  {
    hide DepsCompleted, Coherent, Disjoint, ConflictFree, Shares;
  }

  lemma {:induction false} HoldersFollow(d: Declared, g: Graph, status: Statuses, frames: set<Id>, held: set<Id>,
                      status': Statuses, frames': set<Id>, held': set<Id>, t: Id)
    requires TasksOk(g, status, frames) && InStep(d, status, frames, held)
    requires Changes(g, status, frames, status', frames', t) && TasksOk(g, status', frames')
    requires held' == if status'[t].Running? && d.Of(t) != [] then held + {t}
                      else if Terminal(status'[t]) then held - {t} else held
    ensures InStep(d, status', frames', held')
  {
    hide DepsCompleted;
  }

  /** The pass that follows a change of one task brings a live run back in step. */
  lemma {:induction false} EmitInStep(team: Team, s: State, s1: State, t: Id)
    requires team.Valid() && Inv(team, s) && !s.settled
    requires Changes(team.g, s.status, s.frames, s1.status, s1.frames, t)
    requires s1.book == s.book && s1.suspended == s.suspended && !s1.settled
    requires TasksOk(team.g, s1.status, s1.frames) && Disjoint(team.declared, s1.book.held.Keys + s1.frames)
    requires s1.agents <= s1.frames
    ensures Inv(team, Emit(team, s1))
  {
    hide DepsCompleted, Coherent, Disjoint, ConflictFree, Shares, Quiet, InStep, Declared.Of;
    var d := team.declared;
    forall x | x in team.order && x != t ensures Quiet(d, s1.status, s1.book, x) {
      OthersQuiet(team, s, s1, t, x);
    }
    PassCoherent(d, s1.status, s1.frames, s1.book, team.order);
    PassCatchesUp(d, s1.status, s1.frames, s1.book, team.order, t);
    var (book, rest) := Pass(d, s1.status, s1.book, team.order);
    HoldersFollow(d, team.g, s.status, s.frames, s.book.held.Keys, s1.status, s1.frames, book.held.Keys, t);
    assert Known(s1.status, Emit(team, s1).suspended);
  }

  /** Any change of one task followed by its event keeps the invariant, live or settled. */
  lemma {:induction false} ChangeKeeps(team: Team, s: State, s1: State, t: Id)
    requires team.Valid() && Inv(team, s)
    requires Changes(team.g, s.status, s.frames, s1.status, s1.frames, t)
    requires s1.book == s.book && s1.suspended == s.suspended && s1.settled == s.settled
    requires s1.frames <= s.frames || Disjoint(team.declared, s1.book.held.Keys + s1.frames)
    requires s1.agents <= s1.frames
    ensures Inv(team, Emit(team, s1))
  {
    hide DepsCompleted, Coherent, Disjoint, ConflictFree, Shares, Changes;
    TasksChange(team.g, s.status, s.frames, s1.status, s1.frames, t);
    if s1.frames <= s.frames {
      DisjointSubset(team.declared, s1.book.held.Keys + s1.frames, s.book.held.Keys + s.frames);
    }
    if !s.settled {
      EmitInStep(team, s, s1, t);
    } else {
      assert Known(s1.status, s1.suspended);
    }
  }

  lemma {:induction false} StarterKeepsDisjoint(team: Team, s: State, t: Id)
    requires team.Valid() && Inv(team, s) && Enabled(team, s, Start(t))
    ensures Disjoint(team.declared, s.book.held.Keys + (s.frames + {t}))
  {
    hide Coherent, ConflictFree, Known, TasksOk;
    forall u | u in s.frames ensures u != t && !Shares(team.declared, t, u) && !Shares(team.declared, u, t) {
      StarterDisjoint(team, s, t, u);
    }
  }

  lemma {:induction false} StartKeeps(team: Team, s: State, t: Id)
    requires team.Valid() && Inv(team, s) && Enabled(team, s, Start(t))
    ensures Inv(team, Next(team, s, Start(t)))
  {
    hide Coherent, ConflictFree, InStep, Known, Shares, Disjoint;
    StarterKeepsDisjoint(team, s, t);
    ChangeKeeps(team, s,
                s.(status := s.status[t := Running], frames := s.frames + {t}, agents := s.agents + {t}), t);
  }

  lemma {:induction false} ResumeKeeps(team: Team, s: State, i: nat)
    requires team.Valid() && Inv(team, s) && i < |s.suspended|
    ensures Inv(team, Next(team, s, Resume(i)))
  {
    hide Coherent, Shares, Disjoint, ConflictFree, DepsCompleted;
    PassCoherent(team.declared, s.status, s.frames, s.book, s.suspended[i]);
    if !s.settled {
      HeldNonEmpty(team.declared, s.book);
      QuietPass(team.declared, s.status, s.book, s.suspended[i]);
    }
  }

  lemma {:induction false} SettledCoherent(d: Declared, b: Book)
    requires Coherent(d, b)
    ensures Coherent(d, AllReleased(b)) && AllReleased(b).held == map[]
  {}

  /** A status change that starts nothing and completes nothing, on a run that is or becomes settled. */
  lemma {:induction false} SettleKeeps(team: Team, s: State, s1: State)
    requires team.Valid() && Inv(team, s) && s1.settled
    requires s1.status.Keys == s.status.Keys && s1.frames == s.frames && s1.agents <= s1.frames
    requires s1.suspended == s.suspended && (s1.book == s.book || s1.book == AllReleased(s.book))
    requires forall x | x in s.status ::
        s1.status[x] == s.status[x] || (s1.status[x].Cancelled? && !s.status[x].Completed?)
    ensures Inv(team, s1)
  {
    hide ConflictFree, DepsCompleted, Shares, Disjoint, Coherent, AllReleased, InStep;
    SettledCoherent(team.declared, s.book);
    DisjointSubset(team.declared, s1.book.held.Keys + s1.frames, s.book.held.Keys + s.frames);
    assert forall x | x in s.status && s.status[x].Completed? :: s1.status[x].Completed?;
    forall x | x in s1.status && (x in s1.frames || s1.status[x].Completed?) ensures DepsCompleted(team.g, s1.status, x) {
      DepsStay(team.g, s.status, s1.status, x);
    }
  }

  /** A task of the run that goes on executing under another status. */
  lemma {:induction false} StayKeeps(team: Team, s: State, to: Status, agents: set<Id>, t: Id)
    requires team.Valid() && Inv(team, s) && t in s.frames
    requires (to.Running? || to.Retrying?) && agents <= s.agents
    ensures
      var s1 := s.(status := s.status[t := to], agents := agents);
      (forall x | x in team.order :: x in s1.status) && Inv(team, Emit(team, s1))
  {
    hide Coherent, ConflictFree, Shares, Disjoint, DepsCompleted, InStep;
    ChangeKeeps(team, s, s.(status := s.status[t := to], agents := agents), t);
  }

  /** A task of the run that stops executing, blocking some that never started. */
  lemma {:induction false} LeaveKeeps(team: Team, s: State, to: Status, blocked: set<Id>, t: Id)
    requires team.Valid() && Inv(team, s) && t in s.frames && Terminal(to)
    requires forall x | x in blocked :: x in s.status && (s.status[x].Pending? || s.status[x].Waiting?)
    ensures
      var s1 := s.(status := Mark(s.status, blocked, Blocked)[t := to], frames := s.frames - {t}, agents := s.agents - {t});
      (forall x | x in team.order :: x in s1.status) && Inv(team, Emit(team, s1))
  {
    hide Coherent, ConflictFree, Shares, Disjoint, DepsCompleted, InStep;
    var s1 := s.(status := Mark(s.status, blocked, Blocked)[t := to], frames := s.frames - {t}, agents := s.agents - {t});
    ChangeKeeps(team, s, s1, t);
  }

  lemma {:induction false} NotifyKeeps(team: Team, s: State)
    requires team.Valid() && Inv(team, s)
    ensures Inv(team, Emit(team, s))
  {
    hide Coherent, ConflictFree, Shares, Disjoint, DepsCompleted;
    if !s.settled {
      HeldNonEmpty(team.declared, s.book);
      QuietPass(team.declared, s.status, s.book, team.order);
    }
  }

  /** Every step of a run keeps the invariant. */
  lemma {:induction false} NextKeeps(team: Team, s: State, step: Step)
    requires team.Valid() && Inv(team, s) && Enabled(team, s, step)
    ensures Inv(team, Next(team, s, step))
  {
    hide Coherent, ConflictFree, Shares, Disjoint, DepsCompleted, InStep, Emit;
    match step
    case Start(t) => StartKeeps(team, s, t);
    case Retry(t) => StayKeeps(team, s, Retrying, s.agents, t);
    case Restart(t) => StayKeeps(team, s, Running, s.agents - {t}, t);
    case Complete(t) =>
      LeaveKeeps(team, s, Completed, {}, t);
      assert Mark(s.status, {}, Blocked) == s.status;
    case Abort(t) =>
      LeaveKeeps(team, s, Cancelled, {}, t);
      assert Mark(s.status, {}, Blocked) == s.status;
    case Fail(t, blocked) => LeaveKeeps(team, s, Failed, blocked, t);
    case Notify => NotifyKeeps(team, s);
    case Resume(i) => ResumeKeeps(team, s, i);
    case CancelTeam => SettleKeeps(team, s, Next(team, s, step));
    case CancelRest => SettleKeeps(team, s, Next(team, s, step));
    case Finish => SettleKeeps(team, s, Next(team, s, step));
  }

  // ---- Whole runs -------------------------------------------------------------------

  /** The states of a run: it starts fresh and every state follows by an enabled step. */
  ghost predicate IsRun(team: Team, states: seq<State>, steps: seq<Step>)
    requires team.Valid()
  {
    && |states| == |steps| + 1
    && Init(team, states[0])
    && forall k | 0 <= k < |steps| :: Follows(team, states[k], steps[k], states[k + 1])
  }

  ghost predicate Follows(team: Team, s: State, step: Step, s': State) {
    && Enabled(team, s, step)
    && (forall t | t in team.order :: t in s.status) && Known(s.status, s.suspended)
    && s' == Next(team, s, step)
  }

  lemma {:induction false} RunKeeps(team: Team, states: seq<State>, steps: seq<Step>, k: nat)
    requires team.Valid() && IsRun(team, states, steps) && k < |states|
    ensures Inv(team, states[k])
  {
    if k == 0 {
      InitKeeps(team, states[0]);
    } else {
      RunKeeps(team, states, steps, k - 1);
      assert Follows(team, states[k - 1], steps[k - 1], states[k - 1 + 1]);
      NextKeeps(team, states[k - 1], steps[k - 1]);
    }
  }

  /**
   * Main result. A team that passed the static check never has two executing tasks that
   * declare a common file, no lock is ever refused, and until the run settles each
   * executing task with declared files holds exactly those files and nobody else holds any.
   */
  lemma {:induction false} RunsNeverClash(team: Team, states: seq<State>, steps: seq<Step>, k: nat)
    requires team.Valid() && IsRun(team, states, steps) && k < |states|
    ensures forall a, b | a in states[k].frames && b in states[k].frames && a != b :: !Shares(team.declared, a, b)
    ensures states[k].book.conflicts == map[]
    ensures !states[k].settled ==> forall f, t ::
        (f, t) in states[k].book.locks.Items <==> t in states[k].frames && f in team.declared.Of(t)
  {
    hide Inv, Init, Follows, Coherent, Disjoint, InStep;
    RunKeeps(team, states, steps, k);
    InvMeans(team, states[k]);
  }

  lemma {:induction false} InvMeans(team: Team, s: State)
    requires Inv(team, s)
    ensures forall a, b | a in s.frames && b in s.frames && a != b :: !Shares(team.declared, a, b)
    ensures s.book.conflicts == map[]
    ensures !s.settled ==> forall f, t ::
        (f, t) in s.book.locks.Items <==> t in s.frames && f in team.declared.Of(t)
  {
    hide TasksOk, Shares, Recorded;
    if !s.settled {
      LocksMean(team.declared, s);
    }
  }

  lemma {:induction false} LocksMean(d: Declared, s: State)
    requires LocksAre(d, s.book.locks, s.book.held.Keys) && InStep(d, s.status, s.frames, s.book.held.Keys)
    ensures forall f, t :: (f, t) in s.book.locks.Items <==> t in s.frames && f in d.Of(t)
  {
    hide Declared.Of;
    forall f, t ensures (f, t) in s.book.locks.Items <==> t in s.frames && f in d.Of(t) {
      assert t in s.book.held.Keys <==> t in s.frames && d.Of(t) != [];
      assert d.Of(t) == [] ==> f !in d.Of(t);
    }
  }

  /** The status a step gives to the task it is about. */
  function Outcome(step: Step): Option<(Id, Status)> {
    match step
    case Start(t) => Some((t, Running))
    case Retry(t) => Some((t, Retrying))
    case Restart(t) => Some((t, Running))
    case Complete(t) => Some((t, Completed))
    case Abort(t) => Some((t, Cancelled))
    case Fail(t, _) => Some((t, Failed))
    case _ => None
  }

  /**
   * A step of the orchestrator gives its task the status it reports, and executing are then
   * exactly those that did, with a task that starts and without one that ends. A failure blocks
   * the given tasks besides; no other status changes.
   */
  lemma {:induction false} StepsReport(team: Team, s: State, step: Step, s': State, x: Id)
    requires Follows(team, s, step, s') && Outcome(step).Some? && x in s.status
    ensures
      var (t, to) := Outcome(step).value;
      && x in s'.status
      && s'.status[x] == (if x == t then to else if step.Fail? && x in step.blocked then Blocked else s.status[x])
      && (x in s'.frames <==> if x == t then !Terminal(to) else x in s.frames)
  {
    hide Pass, Known, DepsCompleted;
  }

  /** A notification, and a pass that goes on, change no status; the pass is suspended again or done. */
  lemma {:induction false} PassesGoOn(team: Team, s: State, step: Step, s': State)
    requires Follows(team, s, step, s') && (step.Notify? || step.Resume?)
    ensures s'.status == s.status && s'.frames == s.frames && s'.agents == s.agents && s'.settled == s.settled
    ensures step.Resume? ==>
      var (book, rest) := Pass(team.declared, s.status, s.book, s.suspended[step.i]);
      && s'.book == book
      && multiset(s'.suspended) + multiset{s.suspended[step.i]} ==
           multiset(s.suspended) + if rest.Some? then multiset{rest.value} else multiset{}
  {
    hide Pass, Known;
    if step.Resume? {
      assert s.suspended == s.suspended[..step.i] + [s.suspended[step.i]] + s.suspended[step.i + 1..];
    }
  }

  /** Everything an executing or completed task depends on is completed, in every state of every run. */
  lemma {:induction false} DependenciesFirst(team: Team, states: seq<State>, steps: seq<Step>, k: nat, a: Id, b: Id)
    requires team.Valid() && IsRun(team, states, steps) && k < |states|
    requires a in states[k].status && (a in states[k].frames || states[k].status[a].Completed?)
    requires Depends(team.g, a, b) && a != b
    ensures b in states[k].status && states[k].status[b].Completed? && b !in states[k].frames
  {
    hide Init, Follows, Coherent, Disjoint, InStep, ConflictFree, Depends, DepsCompleted;
    RunKeeps(team, states, steps, k);
    BelowCompleted(team.g, states[k].status, states[k].frames, a, b);
  }

  /** Finishing or cancelling a live run leaves no lock, whatever the suspended passes hold. */
  lemma {:induction false} SettlingFreesAll(team: Team, s: State, step: Step)
    requires team.Valid() && Inv(team, s) && Enabled(team, s, step) && (step.CancelTeam? || step.Finish?)
    ensures
      var t := Next(team, s, step);
      t.settled && t.book.locks == map[] && t.book.held == map[] && t.frames == s.frames && t.suspended == s.suspended
  {
    hide TasksOk, Disjoint, InStep, ConflictFree;
  }

  /**
   * Cancelling ends every task but those whose retry no cancellation reaches: no other is waiting
   * or executing afterwards, and what had ended before has the status it had.
   */
  lemma {:induction false} CancellingEndsTasks(team: Team, s: State, s1: State, s2: State, t: Id)
    requires Inv(team, s) && t in s.status
    requires Follows(team, s, CancelTeam, s1) && Follows(team, s1, CancelRest, s2)
    ensures t in s2.status
    ensures s2.status[t] ==
      if t in s.frames then (if t in s.agents then Cancelled else s.status[t])
      else if Terminal(s.status[t]) then s.status[t] else Cancelled
  {
    Cancels(team, s, s1);
    Sweeps(team, s1, s2);
    hide Follows;
    LiveStatus(team, s, t);
  }

  lemma {:induction false} Cancels(team: Team, s: State, s1: State)
    requires Follows(team, s, CancelTeam, s1)
    ensures !s.settled && s1.status == Mark(s.status, s.agents, Cancelled)
  {
    hide AllReleased, Mark, Known;
  }

  lemma {:induction false} Sweeps(team: Team, s: State, s1: State)
    requires Follows(team, s, CancelRest, s1)
    ensures s1.status.Keys == s.status.Keys
    ensures forall t | t in s.status ::
      s1.status[t] == if s.status[t].Pending? || s.status[t].Waiting? then Cancelled else s.status[t]
  {
    hide Known;
  }

  lemma {:induction false} LiveStatus(team: Team, s: State, t: Id)
    requires Inv(team, s) && !s.settled && t in s.status
    ensures s.agents <= s.frames && (t in s.frames <==> s.status[t].Running? || s.status[t].Retrying?)
  {
    hide Disjoint, Coherent, DepsCompleted;
  }

  // ---- After settlement -----------------------------------------------------------------

  /** Whether a suspended pass still has an executing task with declared files ahead of it. */
  ghost predicate WouldLock(d: Declared, status: Statuses, tasks: seq<Id>) {
    exists t :: t in tasks && t in status && status[t].Running? && d.Of(t) != []
  }

  /** A pass over a record whose holders all execute only adds holders. */
  lemma {:induction false} PassGrows(d: Declared, status: Statuses, frames: set<Id>, b: Book, tasks: seq<Id>)
    requires forall t | t in tasks :: t in status
    requires forall t | t in status :: status[t].Running? ==> t in frames
    requires Coherent(d, b) && Disjoint(d, b.held.Keys + frames)
    requires forall t | t in b.held :: t in status && status[t].Running?
    ensures b.held.Keys <= Pass(d, status, b, tasks).0.held.Keys
    ensures WouldLock(d, status, tasks) ==> Pass(d, status, b, tasks).0.held.Keys != {}
    decreases |tasks|
  {
    hide Coherent, Disjoint;
    if tasks != [] {
      var t := tasks[0];
      VisitCoherent(d, status, frames, b, t);
      var b' := Visit(d, status, b, t).0;
      PassGrows(d, status, frames, b', tasks[1..]);
      if WouldLock(d, status, tasks) && !(status[t].Running? && d.Of(t) != []) {
        var x :| x in tasks && x in status && status[x].Running? && d.Of(x) != [];
        assert x in tasks[1..];
      }
    }
  }

  /**
   * The handler tests for settlement only when it is entered. On a settled run whose locks
   * were all released, resuming a suspended pass leaves the run free of locks if and only
   * if no executing task with declared files is left on that pass's list.
   */
  lemma {:induction false} ResumeAfterSettlement(team: Team, s: State, i: nat)
    requires team.Valid() && Inv(team, s) && i < |s.suspended|
    requires s.settled && s.book.held == map[]
    ensures Next(team, s, Resume(i)).book.held == map[] <==> !WouldLock(team.declared, s.status, s.suspended[i])
  {
    hide Coherent, Disjoint;
    var tasks := s.suspended[i];
    if WouldLock(team.declared, s.status, tasks) {
      PassGrows(team.declared, s.status, s.frames, s.book, tasks);
    } else {
      forall t | t in tasks ensures Quiet(team.declared, s.status, s.book, t) {}
      QuietPass(team.declared, s.status, s.book, tasks);
    }
  }

  /** Task 2 depends on task 1; each declares a file of its own. */
  function ExampleTeam(): Team {
    Team(map[1 := [], 2 := [1]], [1, 2], Declared([1, 2], map[1 := ["a"], 2 := ["b"]]))
  }

  lemma {:induction false} ExampleValid()
    ensures ExampleTeam().Valid()
  {
    hide Unordered;
    var team := ExampleTeam();
    var d := team.declared;
    forall a, b | a in d.ids && b in d.ids && a != b ensures !Shares(d, a, b) {
      assert d.Of(1) == ["a"] && d.Of(2) == ["b"] && "a"[0] != "b"[0];
    }
  }

  lemma {:induction false} InitKeeps(team: Team, s: State)
    requires team.Valid() && Init(team, s)
    ensures Inv(team, s)
  {
    hide ConflictFree, Shares;
  }

  lemma {:induction false} ExampleInit() returns (s: State)
    ensures ExampleTeam().Valid() && Init(ExampleTeam(), s) && Inv(ExampleTeam(), s)
  {
    hide Inv, Team.Valid;
    ExampleValid();
    s := State(map t | t in ExampleTeam().g :: Pending, {}, {}, Book(map[], map[], map[]), false, []);
    InitKeeps(ExampleTeam(), s);
  }

  /** What a step of a run needs to know of the invariant. */
  lemma {:induction false} InvKnows(team: Team, s: State)
    requires team.Valid() && Inv(team, s)
    ensures (forall t | t in team.order :: t in s.status) && Known(s.status, s.suspended)
    ensures s.status.Keys == team.g.Keys && s.agents <= s.frames <= s.status.Keys
  {
    hide ConflictFree, Coherent, Disjoint;
  }

  lemma {:induction false} ExampleStart(s: State) returns (s': State)
    requires ExampleTeam().Valid() && Init(ExampleTeam(), s) && Inv(ExampleTeam(), s)
    ensures Follows(ExampleTeam(), s, Start(1), s') && Inv(ExampleTeam(), s') && !s'.settled
    ensures s'.frames == s'.agents == {1} && s'.status[1].Running? && s'.status[2].Pending?
    ensures 1 in s'.book.held && s'.suspended == []
  {
    hide Inv, Team.Valid;
    var team := ExampleTeam();
    InvKnows(team, s);
    NextKeeps(team, s, Start(1));
    s' := Next(team, s, Start(1));
    assert team.declared.Of(1) == ["a"] && team.order[1..] == [2] && team.order[1..][1..] == [];
  }

  /** The completion of task 1 leaves a suspended pass with task 2 ahead of it. */
  lemma {:induction false} ExampleComplete(s: State) returns (s': State)
    requires ExampleTeam().Valid() && Inv(ExampleTeam(), s) && !s.settled
    requires s.frames == s.agents == {1} && s.status[1].Running? && s.status[2].Pending? && 1 in s.book.held
    requires s.suspended == []
    ensures Follows(ExampleTeam(), s, Complete(1), s') && Inv(ExampleTeam(), s') && !s'.settled
    ensures s'.frames == s'.agents == {} && s'.status[1].Completed? && s'.status[2].Pending? && s'.suspended == [[2]]
  {
    hide Inv, Team.Valid;
    var team := ExampleTeam();
    InvKnows(team, s);
    NextKeeps(team, s, Complete(1));
    s' := Next(team, s, Complete(1));
    assert team.order[1..] == [2];
  }

  lemma {:induction false} ExampleSecond(s: State) returns (s': State)
    requires ExampleTeam().Valid() && Inv(ExampleTeam(), s) && !s.settled
    requires s.frames == s.agents == {} && s.status[1].Completed? && s.status[2].Pending? && s.suspended == [[2]]
    ensures Follows(ExampleTeam(), s, Start(2), s') && Inv(ExampleTeam(), s') && !s'.settled
    ensures s'.frames == s'.agents == {2} && s'.status[2].Running?
    ensures s'.suspended != [] && s'.suspended[0] == [2]
  {
    hide Inv, Team.Valid, Pass;
    var team := ExampleTeam();
    InvKnows(team, s);
    assert DepsCompleted(team.g, s.status, 2);
    NextKeeps(team, s, Start(2));
    s' := Next(team, s, Start(2));
  }

  /** The run is cancelled and its executing task retried; nothing is locked. */
  lemma {:induction false} ExampleCancel(s: State) returns (s1: State, s2: State, s': State)
    requires ExampleTeam().Valid() && Inv(ExampleTeam(), s) && !s.settled
    requires s.frames == s.agents == {2} && s.status[2].Running? && s.suspended != [] && s.suspended[0] == [2]
    ensures Follows(ExampleTeam(), s, CancelTeam, s1) && Follows(ExampleTeam(), s1, Retry(2), s2)
    ensures Follows(ExampleTeam(), s2, Restart(2), s') && Inv(ExampleTeam(), s')
    ensures s'.settled && s'.frames == {2} && s'.status[2].Running? && s'.book.held == map[]
    ensures s'.suspended != [] && s'.suspended[0] == [2]
  {
    hide Inv, Team.Valid, Pass, DepsCompleted, ExampleTeam, Follows;
    var team := ExampleTeam();
    InvKnows(team, s);
    s1 := CancelTwo(team, s);
    s2 := SettledStep(team, s1, Retry(2));
    s' := SettledStep(team, s2, Restart(2));
  }

  lemma {:induction false} CancelTwo(team: Team, s: State) returns (s1: State)
    requires team.Valid() && Inv(team, s) && !s.settled && s.frames == s.agents == {2} && 2 in s.status
    ensures Follows(team, s, CancelTeam, s1) && Inv(team, s1) && s1.settled && s1.frames == {2} && s1.book.held == map[]
    ensures 2 in s1.status && s1.status[2].Cancelled? && s1.suspended == s.suspended
  {
    hide Inv, Team.Valid, Pass, DepsCompleted;
    InvKnows(team, s);
    NextKeeps(team, s, CancelTeam);
    s1 := Next(team, s, CancelTeam);
  }

  /** On a settled run a task that is cancelled can be retried, and restarted then. */
  lemma {:induction false} SettledStep(team: Team, s: State, step: Step) returns (s1: State)
    requires team.Valid() && Inv(team, s) && s.settled && s.frames == {2} && 2 in s.status
    requires (step == Retry(2) && s.status[2].Cancelled?) || (step == Restart(2) && s.status[2].Retrying?)
    ensures Follows(team, s, step, s1) && Inv(team, s1)
    ensures s1 == s.(status := s1.status, agents := s1.agents) && 2 in s1.status
    ensures s1.status[2] == if step.Retry? then Retrying else Running
  {
    hide Inv, Team.Valid, Pass, DepsCompleted;
    InvKnows(team, s);
    NextKeeps(team, s, step);
    s1 := Next(team, s, step);
  }

  /** Resuming the suspended pass takes locks that the settled run never drops. */
  lemma {:induction false} ExampleResume(s: State) returns (s1: State, s': State)
    requires ExampleTeam().Valid() && Inv(ExampleTeam(), s) && s.settled
    requires s.frames == {2} && s.status[2].Running? && s.book.held == map[] && s.suspended != [] && s.suspended[0] == [2]
    ensures Follows(ExampleTeam(), s, Resume(0), s1) && Follows(ExampleTeam(), s1, Complete(2), s')
    ensures s'.settled && s'.frames == {} && s'.book.held != map[]
  {
    hide Inv, Team.Valid, Pass, DepsCompleted;
    var team := ExampleTeam();
    InvKnows(team, s);
    assert 2 in s.suspended[0] && team.declared.Of(2) == ["b"];
    hide ExampleTeam;
    ResumeAfterSettlement(team, s, 0);
    NextKeeps(team, s, Resume(0));
    s1 := Next(team, s, Resume(0));
    InvKnows(team, s1);
    s' := Next(team, s1, Complete(2));
  }

  /**
   * Such a list is reachable: a pass still awaiting its write when the run is cancelled
   * takes the locks of a task whose retry outlives the cancellation, and keeps them.
   */
  lemma {:induction false} LockOutlivesRun() returns (team: Team, states: seq<State>, steps: seq<Step>)
    ensures team.Valid() && IsRun(team, states, steps)
    ensures var s := states[|states| - 1]; s.settled && s.frames == {} && s.book.held != map[]
  {
    hide Follows, Inv, Init, ExampleTeam, Team.Valid;
    team := ExampleTeam();
    var s0 := ExampleInit();
    var s1 := ExampleStart(s0);
    var s2 := ExampleComplete(s1);
    var s3 := ExampleSecond(s2);
    var s4, s5, s6 := ExampleCancel(s3);
    var s7, s8 := ExampleResume(s6);
    states := [s0, s1, s2, s3, s4, s5, s6, s7, s8];
    steps := [Start(1), Complete(1), Start(2), CancelTeam, Retry(2), Restart(2), Resume(0), Complete(2)];
  }
}
