/**
 * Persistence of run captures: coalesced flushes over one first-in-first-out queue per
 * task, a debounce for streamed text, and final flushes at the end of a run.
 *
 * A capture is identified by its key and represented by the number of mutations it has
 * seen; a flush writes the version it finds when it starts.
 */
module CaptureFlush {
  import opened Prelude

  /** The capture of one run, and the task it is written under. */
  datatype Key = Key(task: nat, run: nat)

  /** A queued operation: a coalesced flush, the end of a run, or work that touches no capture. */
  datatype Op = Flush(key: Key) | Final(capture: Key) | Plain(task: nat)

  datatype Running = Running(op: Op, composed: nat)

  /**
   * `queue` lists what waits in the queues of all tasks, in order of submission; each task
   * runs its own operations one at a time and in order, independently of the others.
   * `landed` are the flushes whose write is done and whose settlement has not run yet,
   * `pending` the captures waiting for the debounce timer, which is armed when there are any.
   */
  datatype State = State(
    version: map<Key, nat>, stored: map<Key, nat>,
    queue: seq<Op>, running: map<nat, Running>, landed: seq<Key>,
    inflight: set<Key>, dirty: set<Key>, pending: seq<Key>, active: Option<Key>)

  function At(m: map<Key, nat>, k: Key): nat {
    if k in m then m[k] else 0
  }

  function KeyOf(op: Op): Option<Key> {
    match op
    case Flush(k) => Some(k)
    case Final(k) => Some(k)
    case Plain(_) => None
  }

  function TaskOf(op: Op): nat {
    match op
    case Flush(k) => k.task
    case Final(k) => k.task
    case Plain(t) => t
  }

  /** The operation at `i` is the first of its task. */
  predicate IsHead(queue: seq<Op>, i: nat) {
    i < |queue| && forall j | 0 <= j < i :: TaskOf(queue[j]) != TaskOf(queue[i])
  }

  function Removed(queue: seq<Op>, i: nat): seq<Op>
    requires i < |queue|
  {
    queue[..i] + queue[i + 1..]
  }

  /** The end of a run: its capture is written and its status follows, then compaction. */
  function EndOps(active: Option<Key>, task: nat): seq<Op> {
    if active.Some? then [Final(active.value), Plain(active.value.task)] else [Plain(task), Plain(task)]
  }

  function Mutated(s: State, k: Key): State {
    s.(version := s.version[k := At(s.version, k) + 1], dirty := s.dirty + {k})
  }

  /** At most one coalesced flush per capture: a second request only leaves the dirty mark. */
  function Enqueued(s: State, k: Key): State {
    if k in s.inflight then s.(dirty := s.dirty + {k})
    else s.(dirty := s.dirty - {k}, inflight := s.inflight + {k}, queue := s.queue + [Flush(k)])
  }

  function Scheduled(s: State, k: Key): State {
    s.(dirty := s.dirty + {k}, pending := if k in s.pending then s.pending else s.pending + [k])
  }

  /** The timer hands every due capture that is still dirty to the coalescing queue. */
  function Fired(s: State, due: seq<Key>): State
    decreases |due|
  {
    if due == [] then s
    else if due[0] in s.dirty then Fired(Enqueued(s.(dirty := s.dirty - {due[0]}), due[0]), due[1..])
    else Fired(s, due[1..])
  }

  datatype Event =
    | Started(key: Key)
    | TextDelta
    | GateToolUse(key: Key)
    | ToolEvent(key: Key)
    | RunEnded(task: nat)
    | OtherWork(task: nat)
    | TimerFires
    | BeginOp(i: nat)
    | FinishOp(task: nat)
    | Settle

  predicate Enabled(s: State, e: Event) {
    match e
    case TimerFires => s.pending != []
    case BeginOp(i) => IsHead(s.queue, i) && TaskOf(s.queue[i]) !in s.running
    case FinishOp(t) => t in s.running
    case Settle => s.landed != []
    case _ => true
  }

  function CaptureFor(s: State, newKey: Key): Key {
    if s.active.Some? then s.active.value else newKey
  }

  function Next(s: State, e: Event): State
    requires Enabled(s, e)
  {
    match e
    case Started(newKey) => s.(active := Some(newKey))
    case TextDelta => if s.active.None? then s else Scheduled(Mutated(s, s.active.value), s.active.value)
    case GateToolUse(newKey) =>
      var k := CaptureFor(s, newKey);
      Mutated(s.(active := Some(k)), k)
    case ToolEvent(newKey) =>
      var k := CaptureFor(s, newKey);
      Enqueued(Mutated(s.(active := Some(k)), k), k)
    case RunEnded(t) => s.(pending := [], queue := s.queue + EndOps(s.active, t))
    case OtherWork(t) => s.(queue := s.queue + [Plain(t)])
    case TimerFires => Fired(s.(pending := []), s.pending)
    case BeginOp(i) =>
      var op := s.queue[i];
      var composed := if KeyOf(op).Some? then At(s.version, KeyOf(op).value) else 0;
      s.(queue := Removed(s.queue, i), running := s.running[TaskOf(op) := Running(op, composed)])
    case FinishOp(t) =>
      var op := s.running[t].op;
      s.(running := s.running - {t},
         stored := if KeyOf(op).Some? then s.stored[KeyOf(op).value := s.running[t].composed] else s.stored,
         landed := if op.Flush? then s.landed + [op.key] else s.landed)
    case Settle =>
      var k := s.landed[0];
      var s1 := s.(landed := s.landed[1..], inflight := s.inflight - {k});
      if k in s.dirty then Enqueued(s1, k) else s1
  }

  /** The module state of the host, updated in place by each event. */
  class CapturePersistence {
    var version: map<Key, nat>
    var stored: map<Key, nat>
    var queue: seq<Op>
    var running: map<nat, Running>
    var landed: seq<Key>
    var inflight: set<Key>
    var dirty: set<Key>
    var pending: seq<Key>
    var active: Option<Key>

    constructor ()
      ensures Contents() == Initial()
    {
      version, stored, queue, running, landed := map[], map[], [], map[], [];
      inflight, dirty, pending, active := {}, {}, [], None;
    }

    ghost function Contents(): State
      reads this
    {
      State(version, stored, queue, running, landed, inflight, dirty, pending, active)
    }

    method Mutate(k: Key)
      modifies this
      ensures Contents() == Mutated(old(Contents()), k)
    {
      version := version[k := At(version, k) + 1];
      dirty := dirty + {k};
    }

    method EnqueueCaptureFlush(k: Key)
      modifies this
      ensures Contents() == Enqueued(old(Contents()), k)
      ensures k in inflight && (k in old(inflight) ==> k in dirty && queue == old(queue))
    {
      if k in inflight {
        dirty := dirty + {k};
        return;
      }
      dirty := dirty - {k};
      inflight := inflight + {k};
      queue := queue + [Flush(k)];
    }

    method Schedule(k: Key)
      modifies this
      ensures Contents() == Scheduled(old(Contents()), k)
      ensures k in dirty && k in pending && forall x | x in old(pending) :: x in pending
    {
      dirty := dirty + {k};
      if k !in pending {
        pending := pending + [k];
      }
    }

    method FireTimer()
      modifies this
      ensures Contents() == Fired(old(Contents()).(pending := []), old(pending))
    {
      var due := pending;
      pending := [];
      for i := 0 to |due|
        invariant Fired(old(Contents()).(pending := []), due) == Fired(Contents(), due[i..])
      {
        var k := due[i];
        assert due[i..][0] == k && due[i..][1..] == due[i + 1..];
        if k in dirty {
          dirty := dirty - {k};
          EnqueueCaptureFlush(k);
        }
      }
    }

    /** One event of the host. */
    method On(e: Event)
      requires Enabled(Contents(), e)
      modifies this
      ensures Contents() == Next(old(Contents()), e)
    {
      match e
      case Started(newKey) =>
        active := Some(newKey);
      case TextDelta =>
        if active.Some? {
          Mutate(active.value);
          Schedule(active.value);
        }
      case GateToolUse(newKey) =>
        active := Some(if active.Some? then active.value else newKey);
        Mutate(active.value);
      case ToolEvent(newKey) =>
        active := Some(if active.Some? then active.value else newKey);
        Mutate(active.value);
        EnqueueCaptureFlush(active.value);
      case RunEnded(task) =>
        pending := [];
        if active.Some? {
          queue := queue + [Final(active.value), Plain(active.value.task)];
        } else {
          queue := queue + [Plain(task), Plain(task)];
        }
      case OtherWork(task) =>
        queue := queue + [Plain(task)];
      case TimerFires =>
        FireTimer();
      case BeginOp(i) =>
        var op := queue[i];
        queue := queue[..i] + queue[i + 1..];
        running := running[TaskOf(op) := Running(op, if KeyOf(op).Some? then At(version, KeyOf(op).value) else 0)];
      case FinishOp(task) =>
        var done := running[task];
        running := running - {task};
        if KeyOf(done.op).Some? {
          stored := stored[KeyOf(done.op).value := done.composed];
        }
        if done.op.Flush? {
          landed := landed + [done.op.key];
        }
      case Settle =>
        var k := landed[0];
        landed := landed[1..];
        inflight := inflight - {k};
        if k in dirty {
          EnqueueCaptureFlush(k);
        }
    }
  }

  function Initial(): State {
    State(map[], map[], [], map[], [], {}, {}, [], None)
  }

  // ---- Invariant ----------------------------------------------------------------------

  predicate RunsOn(s: State, k: Key) {
    k.task in s.running && KeyOf(s.running[k.task].op) == Some(k)
  }

  /** The latest version written or being written. */
  function Composed(s: State, k: Key): nat {
    if RunsOn(s, k) then s.running[k.task].composed else At(s.stored, k)
  }

  /** Coalesced flushes of a capture that have not settled. */
  ghost function Outstanding(s: State, k: Key): nat {
    multiset(s.queue)[Flush(k)] + (if k.task in s.running && s.running[k.task].op == Flush(k) then 1 else 0)
    + multiset(s.landed)[k]
  }

  /** One unsettled flush per capture in flight, and no version newer than what was written. */
  ghost predicate Inv(s: State) {
    && (forall t | t in s.running :: TaskOf(s.running[t].op) == t)
    && forall k ::
      && Outstanding(s, k) == (if k in s.inflight then 1 else 0)
      && At(s.stored, k) <= Composed(s, k) <= At(s.version, k)
  }

  lemma {:induction false} FiredFrame(s: State, due: seq<Key>)
    decreases |due|
    ensures
      var s' := Fired(s, due);
      && s'.version == s.version && s'.stored == s.stored && s'.running == s.running && s'.landed == s.landed
      && s'.pending == s.pending && s'.active == s.active
      && s.inflight <= s'.inflight && |s'.queue| >= |s.queue| && s'.queue[..|s.queue|] == s.queue
  {
    if due != [] {
      if due[0] in s.dirty {
        FiredFrame(Enqueued(s.(dirty := s.dirty - {due[0]}), due[0]), due[1..]);
      } else {
        FiredFrame(s, due[1..]);
      }
    }
  }

  lemma {:induction false} EnqueuedKeeps(s: State, k: Key)
    requires Inv(s)
    ensures Inv(Enqueued(s, k))
  {
    var s' := Enqueued(s, k);
    if k in s.inflight {
      SameWrites(s, s');
    } else {
      hide Inv, Outstanding;
      InvTasks(s);
      forall x ensures Outstanding(s', x) == (if x in s'.inflight then 1 else 0)
        && At(s'.stored, x) <= Composed(s', x) <= At(s'.version, x)
      {
        InvMeans(s, x);
        EnqueuedOutstanding(s, k, x);
      }
      InvFrom(s');
    }
  }

  lemma {:induction false} EnqueuedOutstanding(s: State, k: Key, x: Key)
    requires k !in s.inflight
    ensures Outstanding(Enqueued(s, k), x) == Outstanding(s, x) + if x == k then 1 else 0
  {
  }

  lemma {:induction false} InvFrom(s: State)
    requires forall t | t in s.running :: TaskOf(s.running[t].op) == t
    requires forall k :: Outstanding(s, k) == (if k in s.inflight then 1 else 0)
    requires forall k :: At(s.stored, k) <= Composed(s, k) <= At(s.version, k)
    ensures Inv(s)
  {
  }

  lemma {:induction false} FiredKeeps(s: State, due: seq<Key>)
    requires Inv(s)
    ensures Inv(Fired(s, due))
    decreases |due|
  {
    if due != [] {
      if due[0] in s.dirty {
        var s1 := s.(dirty := s.dirty - {due[0]});
        assert Inv(s1) by {
          forall x ensures Outstanding(s1, x) == Outstanding(s, x) && Composed(s1, x) == Composed(s, x) {}
        }
        EnqueuedKeeps(s1, due[0]);
        FiredKeeps(Enqueued(s1, due[0]), due[1..]);
      } else {
        FiredKeeps(s, due[1..]);
      }
    }
  }

  lemma {:induction false} NextKeeps(s: State, e: Event)
    requires Inv(s) && Enabled(s, e)
    ensures Inv(Next(s, e))
  {
    var s' := Next(s, e);
    match e
    case TimerFires =>
      assert Inv(s.(pending := [])) by {
        var s1 := s.(pending := []);
        forall x ensures Outstanding(s1, x) == Outstanding(s, x) && Composed(s1, x) == Composed(s, x) {}
      }
      FiredKeeps(s.(pending := []), s.pending);
    case BeginOp(i) => BeginKeeps(s, i);
    case FinishOp(t) => FinishKeeps(s, t);
    case Settle => SettleKeeps(s);
    case _ => MutationKeeps(s, e);
  }

  lemma {:induction false} RemovedOne(queue: seq<Op>, i: nat)
    requires i < |queue|
    ensures multiset(Removed(queue, i)) == multiset(queue) - multiset{queue[i]} && queue[i] in multiset(queue)
    ensures forall op :: op in queue <==> op in Removed(queue, i) || op == queue[i]
  {
    assert queue == queue[..i] + [queue[i]] + queue[i + 1..];
  }

  lemma {:induction false} BeginKeeps(s: State, i: nat)
    requires Inv(s) && Enabled(s, BeginOp(i))
    ensures Inv(Next(s, BeginOp(i)))
  {
    hide Removed;
    var s' := Next(s, BeginOp(i));
    RemovedOne(s.queue, i);
    forall k ensures Outstanding(s', k) == (if k in s'.inflight then 1 else 0)
      && At(s'.stored, k) <= Composed(s', k) <= At(s'.version, k)
    {
      assert Outstanding(s, k) == (if k in s.inflight then 1 else 0);
    }
  }

  lemma {:induction false} FinishKeeps(s: State, t: nat)
    requires Inv(s) && Enabled(s, FinishOp(t))
    ensures Inv(Next(s, FinishOp(t)))
  {
    var s' := Next(s, FinishOp(t));
    forall k ensures Outstanding(s', k) == (if k in s'.inflight then 1 else 0)
      && At(s'.stored, k) <= Composed(s', k) <= At(s'.version, k)
    {
      assert Outstanding(s, k) == (if k in s.inflight then 1 else 0);
    }
  }

  lemma {:induction false} SettleKeeps(s: State)
    requires Inv(s) && Enabled(s, Settle)
    ensures Inv(Next(s, Settle))
  {
    var k := s.landed[0];
    var s1 := s.(landed := s.landed[1..], inflight := s.inflight - {k});
    assert s.landed == [k] + s.landed[1..];
    assert Inv(s1) by {
      forall x ensures Outstanding(s1, x) == (if x in s1.inflight then 1 else 0)
        && At(s1.stored, x) <= Composed(s1, x) <= At(s1.version, x)
      {
        assert Outstanding(s, x) == (if x in s.inflight then 1 else 0);
      }
    }
    EnqueuedKeeps(s1, k);
  }

  lemma {:induction false} MutatedKeeps(s: State, k: Key)
    requires Inv(s)
    ensures Inv(Mutated(s, k))
  {
    var s' := Mutated(s, k);
    forall x ensures Outstanding(s', x) == (if x in s'.inflight then 1 else 0)
      && At(s'.stored, x) <= Composed(s', x) <= At(s'.version, x)
    {
      InvMeans(s, x);
    }
  }

  /** Marks, timers and operations that flush nothing do not matter to the invariant. */
  lemma {:induction false} SameWrites(s: State, s': State)
    requires Inv(s) && s'.version == s.version && s'.stored == s.stored && s'.running == s.running
    requires s'.landed == s.landed && s'.inflight == s.inflight
    requires forall k :: multiset(s'.queue)[Flush(k)] == multiset(s.queue)[Flush(k)]
    ensures Inv(s')
  {
    forall x ensures Outstanding(s', x) == (if x in s'.inflight then 1 else 0)
      && At(s'.stored, x) <= Composed(s', x) <= At(s'.version, x)
    {
      InvMeans(s, x);
    }
  }

  lemma {:induction false} NoFlush(queue: seq<Op>, more: seq<Op>)
    requires forall op | op in more :: !op.Flush?
    ensures forall k :: multiset(queue + more)[Flush(k)] == multiset(queue)[Flush(k)]
  {
    forall k ensures Flush(k) !in multiset(more) {
      assert Flush(k) !in more;
    }
  }

  lemma {:induction false} MutationKeeps(s: State, e: Event)
    requires Inv(s) && !e.TimerFires? && !e.BeginOp? && !e.FinishOp? && !e.Settle?
    ensures Inv(Next(s, e))
  {
    hide Inv;
    match e
    case Started(newKey) => SameWrites(s, Next(s, e));
    case TextDelta =>
      if s.active.Some? {
        MutatedKeeps(s, s.active.value);
        SameWrites(Mutated(s, s.active.value), Next(s, e));
      }
    case GateToolUse(newKey) =>
      SameWrites(s, s.(active := Some(CaptureFor(s, newKey))));
      MutatedKeeps(s.(active := Some(CaptureFor(s, newKey))), CaptureFor(s, newKey));
    case ToolEvent(newKey) =>
      var k := CaptureFor(s, newKey);
      SameWrites(s, s.(active := Some(k)));
      MutatedKeeps(s.(active := Some(k)), k);
      EnqueuedKeeps(Mutated(s.(active := Some(k)), k), k);
    case RunEnded(t) =>
      NoFlush(s.queue, EndOps(s.active, t));
      SameWrites(s, Next(s, e));
    case OtherWork(t) =>
      NoFlush(s.queue, [Plain(t)]);
      SameWrites(s, Next(s, e));
  }

  /** A stored version is never overwritten by an older one. */
  lemma {:induction false} StoredNeverGoesBack(s: State, e: Event, k: Key)
    requires Inv(s) && Enabled(s, e)
    ensures At(s.stored, k) <= At(Next(s, e).stored, k)
  {
    FiredFrame(s.(pending := []), s.pending);
  }

  // ---- Where events are recorded ----------------------------------------------------------

  /** A tool event, or a call at the gate, is recorded in the active capture; the one it brings is used only without one. */
  lemma {:induction false} ToolsAreRecordedInActive(s: State, e: Event)
    requires e.ToolEvent? || e.GateToolUse?
    ensures
      var k, t := if s.active.Some? then s.active.value else e.key, Next(s, e);
      && t.active == Some(k) && At(t.version, k) == At(s.version, k) + 1
      && (forall x | x != k :: At(t.version, x) == At(s.version, x))
      && t.queue == (if e.ToolEvent? && k !in s.inflight then s.queue + [Flush(k)] else s.queue)
      && t.pending == s.pending
  {
  }

  /** Streamed text is recorded in the active capture too, and only marks it for the timer; without one it is dropped. */
  lemma {:induction false} TextIsRecordedInActive(s: State)
    ensures
      var t := Next(s, TextDelta);
      && t.active == s.active && t.queue == s.queue
      && (s.active == None ==> t == s)
      && (s.active.Some? ==>
            && At(t.version, s.active.value) == At(s.version, s.active.value) + 1
            && (forall x | x != s.active.value :: At(t.version, x) == At(s.version, x))
            && s.active.value in t.pending && s.active.value in t.dirty && s.pending <= t.pending)
  {
  }

  /** The end of a run writes the active capture before the status, and stops the timer. */
  lemma {:induction false} EndWritesActiveFirst(s: State, task: nat, k: Key)
    requires s.active == Some(k)
    ensures
      var t := Next(s, RunEnded(task));
      && t.pending == [] && |t.queue| == |s.queue| + 2 && t.queue[..|s.queue|] == s.queue
      && t.queue[|s.queue|] == Final(k) && t.queue[|s.queue| + 1] == Plain(k.task)
      && t.version == s.version && t.active == s.active
  {
  }

  /** A run without a capture, and other work, only wait their turn. */
  lemma {:induction false} OtherWorkWaits(s: State, task: nat)
    ensures Next(s, OtherWork(task)) == s.(queue := s.queue + [Plain(task)])
    ensures s.active == None ==> Next(s, RunEnded(task)) == s.(pending := [], queue := s.queue + [Plain(task), Plain(task)])
  {
  }

  /** The capture that is active after some events. */
  function ActiveAfter(events: seq<Event>): Option<Key> {
    if events == [] then None
    else
      var before, e := ActiveAfter(events[..|events| - 1]), events[|events| - 1];
      match e
      case Started(k) => Some(k)
      case GateToolUse(k) => if before.Some? then before else Some(k)
      case ToolEvent(k) => if before.Some? then before else Some(k)
      case _ => before
  }

  predicate Records(e: Event) { e.TextDelta? || e.GateToolUse? || e.ToolEvent? }

  /** How many text, gate and tool events there were while `k` was active. */
  function Recorded(events: seq<Event>, k: Key): nat {
    if events == [] then 0
    else
      Recorded(events[..|events| - 1], k) +
      if Records(events[|events| - 1]) && ActiveAfter(events) == Some(k) then 1 else 0
  }

  /** Over every run, each capture holds the events that came while it was active, and no others. */
  lemma {:induction false} EventsAreRecorded(events: seq<Event>, k: Key)
    ensures After(events).active == ActiveAfter(events)
    ensures At(After(events).version, k) == Recorded(events, k)
  {
    if events != [] {
      hide Next, Enabled;
      var init, e := events[..|events| - 1], events[|events| - 1];
      EventsAreRecorded(init, k);
      RecordStep(After(init), e, k);
    }
  }

  lemma {:induction false} RecordStep(s: State, e: Event, k: Key)
    ensures Records(e) || e.Started? ==> Enabled(s, e)
    ensures Enabled(s, e) ==>
      var active := match e
        case Started(n) => Some(n)
        case GateToolUse(n) => if s.active.Some? then s.active else Some(n)
        case ToolEvent(n) => if s.active.Some? then s.active else Some(n)
        case _ => s.active;
      && Next(s, e).active == active
      && At(Next(s, e).version, k) == At(s.version, k) + if Records(e) && active == Some(k) then 1 else 0
  {
    hide Fired, Removed, EndOps;
    FiredFrame(s.(pending := []), s.pending);
  }

  /** How many of the events record something. */
  function Recordings(events: seq<Event>): nat {
    if events == [] then 0
    else Recordings(events[..|events| - 1]) + if Records(events[|events| - 1]) then 1 else 0
  }

  /** A fresh capture that becomes active holds every recording event until the next one starts. */
  lemma {:induction false} FreshCaptureHoldsAll(before: seq<Event>, k: Key, more: seq<Event>)
    requires At(After(before).version, k) == 0 && forall e | e in more :: !e.Started?
    ensures
      var s := After(before + [Started(k)] + more);
      s.active == Some(k) && At(s.version, k) == Recordings(more)
    decreases |more|
  {
    hide Next, Enabled;
    if more == [] {
      assert before + [Started(k)] + [] == before + [Started(k)];
      AfterSnoc(before, Started(k));
      RecordStep(After(before), Started(k), k);
    } else {
      var init, e := more[..|more| - 1], more[|more| - 1];
      assert more == init + [e];
      FreshCaptureHoldsAll(before, k, init);
      assert before + [Started(k)] + more == (before + [Started(k)] + init) + [e];
      AfterSnoc(before + [Started(k)] + init, e);
      RecordStep(After(before + [Started(k)] + init), e, k);
    }
  }

  // ---- Order within a task --------------------------------------------------------------------

  /** What waits for one task, in order. */
  function OfTask(queue: seq<Op>, t: nat): seq<Op> {
    if queue == [] then []
    else (if TaskOf(queue[0]) == t then [queue[0]] else []) + OfTask(queue[1..], t)
  }

  lemma {:induction false} OfTaskConcat(a: seq<Op>, b: seq<Op>, t: nat)
    ensures OfTask(a + b, t) == OfTask(a, t) + OfTask(b, t)
  {
    if a == [] {
      assert a + b == b;
    } else {
      hide TaskOf;
      var first := if TaskOf(a[0]) == t then [a[0]] else [];
      assert (a + b)[0] == a[0] && (a + b)[1..] == a[1..] + b;
      OfTaskConcat(a[1..], b, t);
      Regroup(first, OfTask(a[1..], t), OfTask(b, t));
    }
  }

  lemma {:induction false} Regroup(a: seq<Op>, b: seq<Op>, c: seq<Op>)
    ensures a + (b + c) == (a + b) + c
  {
  }

  lemma {:induction false} NothingOfTask(queue: seq<Op>, t: nat)
    requires forall op | op in queue :: TaskOf(op) != t
    ensures OfTask(queue, t) == []
  {
    if queue != [] {
      NothingOfTask(queue[1..], t);
    }
  }

  /** Beginning an operation takes the first of its task, and leaves what waits for other tasks alone. */
  lemma {:induction false} HeadOfTask(queue: seq<Op>, i: nat, t: nat)
    requires IsHead(queue, i)
    ensures
      if TaskOf(queue[i]) == t then OfTask(queue, t) == [queue[i]] + OfTask(Removed(queue, i), t)
      else OfTask(queue, t) == OfTask(Removed(queue, i), t)
  {
    hide TaskOf;
    var before, op, after := queue[..i], queue[i], queue[i + 1..];
    assert queue == before + ([op] + after);
    OfTaskConcat(before, [op] + after, t);
    OfTaskConcat([op], after, t);
    OfTaskConcat(before, after, t);
    assert OfTask([op], t) == (if TaskOf(op) == t then [op] else []) by {
      assert [op][1..] == [];
    }
    if TaskOf(op) == t {
      NothingOfTask(before, t);
    }
  }

  /**
   * Each task's operations are begun one at a time, in the order in which they were queued; no
   * event reorders or drops what waits.
   */
  lemma {:induction false} FirstInFirstOut(s: State, e: Event, t: nat)
    requires Enabled(s, e)
    ensures
      var waits, waits', s' := OfTask(s.queue, t), OfTask(Next(s, e).queue, t), Next(s, e);
      if e.BeginOp? && TaskOf(s.queue[e.i]) == t then
        && t !in s.running && waits != [] && waits' == waits[1..]
        && t in s'.running && s'.running[t].op == waits[0]
      else
        waits <= waits' && (t in s'.running ==> t in s.running && s'.running[t] == s.running[t])
  {
    hide OfTask, Fired, IsHead, Removed, TaskOf;
    if e.BeginOp? {
      HeadOfTask(s.queue, e.i, t);
    } else {
      FiredFrame(s.(pending := []), s.pending);
      var more := QueueGrows(s, e);
      OfTaskConcat(s.queue, more, t);
    }
  }

  lemma {:induction false} QueueGrows(s: State, e: Event) returns (more: seq<Op>)
    requires Enabled(s, e) && !e.BeginOp?
    ensures Next(s, e).queue == s.queue + more
  {
    hide Fired, EndOps;
    FiredFrame(s.(pending := []), s.pending);
    more := Next(s, e).queue[|s.queue|..];
  }

  /** Those of `due` that the timer requests a new flush for. */
  function NewFlushes(s: State, due: seq<Key>): seq<Op> {
    if due == [] then []
    else (if due[0] in s.dirty && due[0] !in s.inflight then [Flush(due[0])] else []) + NewFlushes(s, due[1..])
  }

  lemma {:induction false} NewFlushesSame(s: State, t: State, due: seq<Key>)
    requires forall k | k in due :: (k in t.dirty <==> k in s.dirty) && (k in t.inflight <==> k in s.inflight)
    ensures NewFlushes(t, due) == NewFlushes(s, due)
  {
    if due != [] {
      NewFlushesSame(s, t, due[1..]);
    }
  }

  /** The timer requests one flush for each due capture that is dirty and has none coming, in order. */
  lemma {:induction false} TimerFlushesInOrder(s: State, due: seq<Key>)
    requires Distinct(due)
    ensures Fired(s, due).queue == s.queue + NewFlushes(s, due)
    decreases |due|
  {
    if due != [] {
      hide Fired, Distinct;
      var k, rest := due[0], due[1..];
      DistinctTail(due);
      FiredStep(s, due);
      if k in s.dirty {
        var s1 := Enqueued(s.(dirty := s.dirty - {k}), k);
        TimerFlushesInOrder(s1, rest);
        NewFlushesSame(s, s1, rest);
        Regroup(s.queue, if k in s.inflight then [] else [Flush(k)], NewFlushes(s, rest));
      } else {
        TimerFlushesInOrder(s, rest);
      }
    } else {
      assert s.queue + [] == s.queue;
    }
  }

  lemma {:induction false} DistinctTail(due: seq<Key>)
    requires Distinct(due) && due != []
    ensures Distinct(due[1..]) && due[0] !in due[1..]
  {
    assert forall i | 0 <= i < |due| - 1 :: due[1..][i] == due[i + 1];
  }

  lemma {:induction false} FiredStep(s: State, due: seq<Key>)
    requires due != []
    ensures Fired(s, due) ==
      Fired(if due[0] in s.dirty then Enqueued(s.(dirty := s.dirty - {due[0]}), due[0]) else s, due[1..])
  {
  }

  // ---- What can be lost -----------------------------------------------------------------

  /** The capture holds mutations that no write has picked up. */
  predicate Lags(s: State, k: Key) {
    Composed(s, k) < At(s.version, k)
  }

  /** A write that will pick up the current version is waiting in the queue. */
  predicate Queued(s: State, k: Key) {
    Flush(k) in s.queue || Final(k) in s.queue
  }

  /** A flush will be started without any further event of the host. */
  predicate Armed(s: State, k: Key) {
    Queued(s, k) || (k in s.dirty && (k in s.inflight || k in s.pending))
  }

  /** Mutations that nothing is going to write. */
  predicate Stranded(s: State, k: Key) {
    Lags(s, k) && !Armed(s, k)
  }

  /**
   * The two ways to strand a capture: recording a tool call at the permission gate, which
   * requests no flush, while nothing else is going to flush it; and the end of a run, which
   * drops the debounce of every capture and then writes only the active one.
   */
  predicate Hazard(s: State, e: Event, k: Key) {
    match e
    case GateToolUse(newKey) => k == CaptureFor(s, newKey) && !Queued(s, k) && k !in s.inflight && k !in s.pending
    case RunEnded(_) =>
      && s.active != Some(k) && Lags(s, k) && !Queued(s, k)
      && k in s.pending && k in s.dirty && k !in s.inflight
    case _ => false
  }

  /** The events after which a stranded capture is going to be written after all. */
  predicate Rescues(s: State, e: Event, k: Key) {
    match e
    case TextDelta => s.active == Some(k)
    case ToolEvent(newKey) => k == CaptureFor(s, newKey)
    case RunEnded(_) => s.active == Some(k)
    case GateToolUse(newKey) => k == CaptureFor(s, newKey) && k in s.inflight + (set x | x in s.pending)
    case _ => false
  }

  /** A stranded capture is exactly one that met a hazard, or was stranded and not rescued. */
  lemma {:induction false} StrandedIff(s: State, e: Event, k: Key)
    requires Inv(s) && Enabled(s, e)
    ensures Stranded(Next(s, e), k) <==> Hazard(s, e, k) || (Stranded(s, k) && !Rescues(s, e, k))
  {
    hide *;
    match e
    case TimerFires => TimerStrands(s, k);
    case BeginOp(i) => BeginStrands(s, i, k);
    case FinishOp(t) => FinishStrands(s, t, k);
    case Settle => SettleStrands(s, k);
    case RunEnded(t) => EndStrands(s, t, k);
    case _ => HostStrands(s, e, k);
  }

  lemma {:induction false} TimerStrands(s: State, k: Key)
    requires Inv(s) && Enabled(s, TimerFires)
    ensures Stranded(Next(s, TimerFires), k) <==> Stranded(s, k) && !Rescues(s, TimerFires, k)
    ensures !Hazard(s, TimerFires, k)
  {
    hide Inv, Queued, Fired;
    FiredFrame(s.(pending := []), s.pending);
    FiredArms(s.(pending := []), s.pending, k);
    assert Queued(s.(pending := []), k) == Queued(s, k) by { SameQueue(s, k); }
  }

  lemma {:induction false} SameQueue(s: State, k: Key)
    ensures Queued(s.(pending := []), k) == Queued(s, k)
  {
  }

  lemma {:induction false} FinishStrands(s: State, t: nat, k: Key)
    requires Inv(s) && Enabled(s, FinishOp(t))
    ensures Stranded(Next(s, FinishOp(t)), k) <==> Stranded(s, k) && !Rescues(s, FinishOp(t), k)
    ensures !Hazard(s, FinishOp(t), k)
  {
    InvTasks(s);
    hide Inv;
  }

  lemma {:induction false} InvTasks(s: State)
    requires Inv(s)
    ensures forall t | t in s.running :: TaskOf(s.running[t].op) == t
  {
  }

  lemma {:induction false} EndStrands(s: State, t: nat, k: Key)
    requires Inv(s)
    ensures Stranded(Next(s, RunEnded(t)), k) <==> Hazard(s, RunEnded(t), k) || (Stranded(s, k) && !Rescues(s, RunEnded(t), k))
  {
    hide Inv;
    assert Composed(Next(s, RunEnded(t)), k) == Composed(s, k);
  }

  lemma {:induction false} HostStrands(s: State, e: Event, k: Key)
    requires Inv(s) && !e.TimerFires? && !e.BeginOp? && !e.FinishOp? && !e.Settle? && !e.RunEnded?
    ensures Stranded(Next(s, e), k) <==> Hazard(s, e, k) || (Stranded(s, k) && !Rescues(s, e, k))
  {
    hide Inv;
    InvMeans(s, k);
  }

  lemma {:induction false} InvMeans(s: State, k: Key)
    requires Inv(s)
    ensures Outstanding(s, k) == (if k in s.inflight then 1 else 0)
    ensures At(s.stored, k) <= Composed(s, k) <= At(s.version, k)
  {
  }

  lemma {:induction false} BeginStrands(s: State, i: nat, k: Key)
    requires Inv(s) && Enabled(s, BeginOp(i))
    ensures Stranded(Next(s, BeginOp(i)), k) <==> Stranded(s, k)
    ensures !Hazard(s, BeginOp(i), k) && !Rescues(s, BeginOp(i), k)
  {
    hide Removed;
    RemovedOne(s.queue, i);
  }

  lemma {:induction false} SettleStrands(s: State, k: Key)
    requires Inv(s) && Enabled(s, Settle)
    ensures Stranded(Next(s, Settle), k) <==> Stranded(s, k)
    ensures !Hazard(s, Settle, k) && !Rescues(s, Settle, k)
  {
    assert Outstanding(s, s.landed[0]) == (if s.landed[0] in s.inflight then 1 else 0);
  }

  lemma {:induction false} FiredArms(s: State, due: seq<Key>, k: Key)
    ensures
      var s' := Fired(s, due);
      && (Queued(s', k) || (k in s'.dirty && k in s'.inflight) <==>
          Queued(s, k) || (k in s.dirty && (k in s.inflight || k in due)))
      && (k in s'.dirty ==> k in s.dirty)
    decreases |due|
  {
    if due != [] {
      if due[0] in s.dirty {
        FiredArms(Enqueued(s.(dirty := s.dirty - {due[0]}), due[0]), due[1..], k);
      } else {
        FiredArms(s, due[1..], k);
      }
    }
  }

  // ---- Runs -------------------------------------------------------------------------------

  /** The state after a run; an event that is not enabled is not one of the run. */
  function After(events: seq<Event>): State {
    if events == [] then Initial()
    else
      var s, e := After(events[..|events| - 1]), events[|events| - 1];
      if Enabled(s, e) then Next(s, e) else s
  }

  lemma {:induction false} RunKeeps(events: seq<Event>)
    ensures Inv(After(events))
  {
    if events != [] {
      RunKeeps(events[..|events| - 1]);
      var s, e := After(events[..|events| - 1]), events[|events| - 1];
      if Enabled(s, e) {
        NextKeeps(s, e);
      }
    }
  }

  /** The run meets no hazard for capture `k`. */
  predicate HazardFree(events: seq<Event>, k: Key) {
    events != [] ==>
      && HazardFree(events[..|events| - 1], k)
      && !Hazard(After(events[..|events| - 1]), events[|events| - 1], k)
  }

  /** A capture that meets no hazard always has a write coming for everything it holds. */
  lemma {:induction false} NothingStrands(events: seq<Event>, k: Key)
    requires HazardFree(events, k)
    ensures !Stranded(After(events), k)
  {
    if events != [] {
      var init := events[..|events| - 1];
      NothingStrands(init, k);
      RunKeeps(init);
      if Enabled(After(init), events[|events| - 1]) {
        StrandedIff(After(init), events[|events| - 1], k);
      }
    }
  }

  /** One unsettled coalesced flush per capture at any time, and never a newer version on disk than in memory. */
  lemma {:induction false} OneFlushOutstanding(events: seq<Event>, k: Key)
    ensures Outstanding(After(events), k) <= 1
    ensures At(After(events).stored, k) <= At(After(events).version, k)
  {
    RunKeeps(events);
    assert Outstanding(After(events), k) == (if k in After(events).inflight then 1 else 0);
  }

  // ---- Draining -----------------------------------------------------------------------------

  predicate Quiescent(s: State) {
    s.pending == [] && s.running == map[] && s.queue == [] && s.landed == []
  }

  ghost function Work(s: State): nat {
    4 * |s.pending| + 4 * |s.dirty * s.inflight| + 3 * |s.queue| + 2 * |s.running| + |s.landed|
  }

  /** The next event that happens without the host. */
  ghost function OwnEvent(s: State): Event
    requires !Quiescent(s)
  {
    if s.pending != [] then TimerFires
    else if s.running != map[] then
      var t :| t in s.running;
      FinishOp(t)
    else if s.queue != [] then BeginOp(0)
    else Settle
  }

  lemma {:induction false} FiredWork(s: State, due: seq<Key>)
    ensures Work(Fired(s, due)) <= Work(s) + 3 * |due|
    decreases |due|
  {
    if due != [] {
      var k := due[0];
      if k in s.dirty {
        var s1 := Enqueued(s.(dirty := s.dirty - {k}), k);
        if k in s.inflight {
          assert s1.dirty * s1.inflight == s.dirty * s.inflight;
        } else {
          assert s1.dirty * s1.inflight == s.dirty * s.inflight;
        }
        FiredWork(s1, due[1..]);
      } else {
        FiredWork(s, due[1..]);
      }
    }
  }

  lemma {:induction false} SettleIs(s: State)
    requires s.landed != []
    ensures var k, t := s.landed[0], Next(s, Settle);
      && t.pending == s.pending && t.running == s.running && |t.landed| == |s.landed| - 1
      && |t.queue| == |s.queue| + (if k in s.dirty then 1 else 0)
      && t.dirty == s.dirty - {k} && t.inflight == (if k in s.dirty then s.inflight + {k} else s.inflight - {k})
  {
  }

  lemma {:induction false} SettleWorks(s: State)
    requires Inv(s) && s.landed != []
    ensures Work(Next(s, Settle)) < Work(s)
  {
    hide Inv, Next;
    var k, t := s.landed[0], Next(s, Settle);
    LandedInFlight(s, k);
    SettleIs(s);
    Common(s.dirty, s.inflight, k);
    assert t.dirty * t.inflight == s.dirty * (s.inflight - {k});
  }

  lemma {:induction false} LandedInFlight(s: State, k: Key)
    requires Inv(s) && k in s.landed
    ensures k in s.inflight
  {
    assert Outstanding(s, k) == (if k in s.inflight then 1 else 0);
    assert k in multiset(s.landed);
  }

  lemma {:induction false} Common(d: set<Key>, f: set<Key>, k: Key)
    ensures |d * f| == |d * (f - {k})| + if k in d && k in f then 1 else 0
  {
    assert d * f == d * (f - {k}) + if k in d && k in f then {k} else {};
  }

  lemma {:induction false} OwnEventWorks(s: State)
    requires Inv(s) && !Quiescent(s)
    ensures Enabled(s, OwnEvent(s)) && Work(Next(s, OwnEvent(s))) < Work(s)
  {
    if s.pending != [] {
      FiredWork(s.(pending := []), s.pending);
    } else if s.running != map[] {
      var t := OwnEvent(s).task;
      assert (s.running - {t}).Keys == s.running.Keys - {t} && |s.running| == |s.running.Keys|;
    } else if s.queue != [] {
      assert |s.running[TaskOf(s.queue[0]) := Running(s.queue[0], 0)].Keys| == 1;
    } else {
      SettleWorks(s);
    }
  }

  /** Lets timer, queue and settlements run until nothing is left to do. */
  ghost function Drained(s: State): State
    requires Inv(s)
    decreases Work(s)
  {
    if Quiescent(s) then s
    else
      OwnEventWorks(s);
      NextKeeps(s, OwnEvent(s));
      Drained(Next(s, OwnEvent(s)))
  }

  /**
   * Main result. Draining always ends, and then a capture's stored version is its version in
   * memory if and only if it was not stranded.
   */
  lemma {:induction false} DrainPersists(s: State, k: Key)
    requires Inv(s)
    ensures Quiescent(Drained(s))
    ensures At(Drained(s).stored, k) == At(s.version, k) <==> !Stranded(s, k)
    decreases Work(s)
  {
    hide Inv, Stranded, Work, Next, Fired;
    if Quiescent(s) {
      QuiescentStored(s, k);
    } else {
      var e := OwnEvent(s);
      OwnEventWorks(s);
      NextKeeps(s, e);
      StrandedIff(s, e, k);
      OwnEventKeepsVersion(s, k);
      DrainPersists(Next(s, e), k);
    }
  }

  lemma {:induction false} QuiescentStored(s: State, k: Key)
    requires Inv(s) && Quiescent(s)
    ensures At(s.stored, k) == At(s.version, k) <==> !Stranded(s, k)
  {
    InvMeans(s, k);
  }

  lemma {:induction false} OwnEventKeepsVersion(s: State, k: Key)
    requires Inv(s) && !Quiescent(s) && Enabled(s, OwnEvent(s))
    ensures Next(s, OwnEvent(s)).version == s.version
    ensures !Hazard(s, OwnEvent(s), k) && !Rescues(s, OwnEvent(s), k)
  {
    hide Inv;
    FiredFrame(s.(pending := []), s.pending);
  }

  /** So no update of a capture that meets no hazard is ever lost, however events interleave. */
  lemma {:induction false} NoUpdateLost(events: seq<Event>, k: Key)
    requires HazardFree(events, k)
    ensures Inv(After(events)) && At(Drained(After(events)).stored, k) == At(After(events).version, k)
  {
    RunKeeps(events);
    NothingStrands(events, k);
    DrainPersists(After(events), k);
  }

  /** Each hazard does lose an update: a tool call refused at the gate, and text of a run that another replaced. */
  lemma {:induction false} HazardsLoseUpdates()
    ensures Inv(After([GateToolUse(Key(1, 1))])) && Stranded(After([GateToolUse(Key(1, 1))]), Key(1, 1))
    ensures var run := [Started(Key(1, 1)), TextDelta, Started(Key(2, 1)), RunEnded(2)]; Inv(After(run)) && Stranded(After(run), Key(1, 1))
  {
    RunKeeps([GateToolUse(Key(1, 1))]);
    AfterSnoc([], GateToolUse(Key(1, 1)));
    var run := [Started(Key(1, 1)), TextDelta, Started(Key(2, 1)), RunEnded(2)];
    RunKeeps(run);
    ReplacedRun();
  }

  lemma {:induction false} ReplacedRun()
    ensures Stranded(After([Started(Key(1, 1)), TextDelta, Started(Key(2, 1)), RunEnded(2)]), Key(1, 1))
  {
    hide *;
    var first, second := [Started(Key(1, 1))], [Started(Key(1, 1)), TextDelta];
    var third := [Started(Key(1, 1)), TextDelta, Started(Key(2, 1))];
    AfterHost([], Started(Key(1, 1)));
    AfterHost(first, TextDelta);
    AfterHost(second, Started(Key(2, 1)));
    AfterHost(third, RunEnded(2));
    assert [] + [Started(Key(1, 1))] == first && first + [TextDelta] == second && second + [Started(Key(2, 1))] == third;
    assert third + [RunEnded(2)] == [Started(Key(1, 1)), TextDelta, Started(Key(2, 1)), RunEnded(2)];
    ReplacedSteps();
  }

  lemma {:induction false} AfterHost(events: seq<Event>, e: Event)
    requires e.Started? || e.TextDelta? || e.RunEnded?
    ensures Enabled(After(events), e) && After(events + [e]) == Next(After(events), e) && After([]) == Initial()
  {
    hide Next;
    AfterSnoc(events, e);
  }

  /** Capture 1 was typed into, and capture 2 is the active one. */
  function Replaced(): State {
    State(map[Key(1, 1) := 1], map[], [], map[], [], {}, {Key(1, 1)}, [Key(1, 1)], Some(Key(2, 1)))
  }

  lemma {:induction false} ReplacedSteps()
    ensures Next(Next(Next(Initial(), Started(Key(1, 1))), TextDelta), Started(Key(2, 1))) == Replaced()
    ensures Stranded(Next(Replaced(), RunEnded(2)), Key(1, 1))
  {
  }

  lemma {:induction false} AfterSnoc(events: seq<Event>, e: Event)
    ensures After(events + [e]) == if Enabled(After(events), e) then Next(After(events), e) else After(events)
    ensures After([]) == Initial() && [] + [e] == [e]
  {
    hide Next;
    assert (events + [e])[..|events|] == events;
  }
}
