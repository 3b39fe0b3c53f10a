/** Agent terminal sessions: decision tokens, the serialized command queue, the session table. */
module TerminalSessions {
  import opened Prelude

  const MAX_SESSIONS := 8
  const MAX_FINISHED_SESSIONS := 20
  const MAX_AGENT_SESSIONS := 4
  const DECISION_TOKEN_TTL_MS := 60_000
  const MAX_COMMAND_CHARS := 4096

  datatype Token = Token(command: string, approved: bool, issuedAt: int)

  function TokenKey(command: string): string {
    if |command| <= MAX_COMMAND_CHARS then command else command[..MAX_COMMAND_CHARS]
  }

  predicate Expired(t: Token, now: int) { now - t.issuedAt > DECISION_TOKEN_TTL_MS }

  /** One accepted exec. */
  datatype Job = Job(id: nat, command: string)

  /** How far the head of a session's promise chain has come. */
  datatype Phase = Idle | Evaluating(job: Job, index: nat) | Running(job: Job, index: nat, session: nat)

  datatype Done = Done(job: Job, index: nat)

  /** A persistent interactive shell, which is not in the session table; `interrupts` counts the Ctrl+C it got. */
  datatype Shell = NoShell | Interactive(stdinOpen: bool, interrupts: nat)

  /** `accepted` is history: every exec the container ever took. */
  datatype Container = Container(task: string, open: bool, nextIndex: nat, runningIndex: Option<nat>,
                                 phase: Phase, queue: seq<Job>, completed: seq<Done>, accepted: seq<Job>, shell: Shell)

  /** A tracked process, of an agent session or of the user's terminal tab. */
  datatype Tracked = Tracked(id: nat, finished: bool, cancelled: bool)

  datatype Why = ByToken(token: Token, at: int) | ByEvaluation

  /** The audit trail. */
  datatype Audit =
    | Decision(container: nat, job: Job, index: nat, approved: bool, why: Why)
    | Started(container: nat, job: Job, index: nat, session: nat)
    | SpawnFailed(container: nat, job: Job, index: nat)
    | Finished(container: nat, job: Job, index: nat)

  /** `window` is the history bound; `staged` is history: every token ever staged. */
  datatype State = State(window: nat, tokens: map<string, Token>, containers: map<nat, Container>,
                         sessions: seq<Tracked>, finishedOrder: seq<nat>, nextSession: nat, nextJob: nat,
                         log: seq<Audit>, staged: seq<Token>)

  datatype Event =
    | Stage(token: Token, now: int)
    | Open(task: string, interactive: bool, spawns: bool)
    | Submit(container: nat, task: string, command: string)
    | Begin(container: nat, now: int, spawns: bool)
    | Evaluated(container: nat, approved: bool, spawns: bool)
    | Exit(session: nat)
    | Finish(container: nat)
    | Stop(container: nat, task: string)
    | Close(container: nat, task: string)
    | CancelTask(task: string)
    | ShellExits(container: nat)
    | UserStart
    | Prune

  // ---- The pieces of a step ----------------------------------------------------------------

  function Unexpired(tokens: map<string, Token>, now: int): map<string, Token> {
    map k | k in tokens && !Expired(tokens[k], now) :: tokens[k]
  }

  datatype Code = Ok | NotFound | Forbidden | Closed | Invalid | Limit

  function OwnedSession(s: State, c: nat, task: string): Code {
    if task == "" then Invalid
    else if c !in s.containers then NotFound
    else if s.containers[c].task != task then Forbidden
    else Ok
  }

  /** Whether an exec is taken at call time. */
  function Admit(s: State, c: nat, task: string, command: string): Code {
    var owned := OwnedSession(s, c, task);
    if owned != Ok then owned
    else if !s.containers[c].open then Closed
    else if Blank(command) || |command| > MAX_COMMAND_CHARS then Invalid
    else if |s.sessions| >= MAX_SESSIONS then Limit
    else Ok
  }

  function CancelAll(ss: seq<Tracked>): (r: seq<Tracked>)
    ensures |r| == |ss|
    ensures forall i | 0 <= i < |ss| :: r[i] == if ss[i].finished then ss[i] else ss[i].(cancelled := true)
  {
    seq(|ss|, i requires 0 <= i < |ss| => if ss[i].finished then ss[i] else ss[i].(cancelled := true))
  }

  function CancelFirst(ss: seq<Tracked>): seq<Tracked> {
    if ss == [] then []
    else if ss[0].finished then [ss[0]] + CancelFirst(ss[1..])
    else [ss[0].(cancelled := true)] + ss[1..]
  }

  function MarkExit(ss: seq<Tracked>, id: nat): (r: seq<Tracked>)
    ensures |r| == |ss|
    ensures forall i | 0 <= i < |ss| :: r[i] == if ss[i].id == id then ss[i].(finished := true) else ss[i]
  {
    seq(|ss|, i requires 0 <= i < |ss| => if ss[i].id == id then ss[i].(finished := true) else ss[i])
  }

  predicate IsLive(ss: seq<Tracked>, id: nat) { exists x :: x in ss && x.id == id && !x.finished }

  /** The finished sessions are appended to the eviction order, those not yet in it. */
  function Noted(ss: seq<Tracked>, order: seq<nat>): seq<nat> {
    if ss == [] then order
    else
      var o, x := Noted(ss[..|ss| - 1], order), ss[|ss| - 1];
      if x.finished && x.id !in o then o + [x.id] else o
  }

  function Without(ss: seq<Tracked>, id: nat): (r: seq<Tracked>)
    ensures forall x :: x in r <==> x in ss && x.id != id
  {
    if ss == [] then []
    else
      assert ss == [ss[0]] + ss[1..];
      (if ss[0].id == id then [] else [ss[0]]) + Without(ss[1..], id)
  }

  datatype Table = Table(sessions: seq<Tracked>, order: seq<nat>)

  function Evicted(t: Table): Table
    decreases |t.order|
  {
    if |t.order| <= MAX_FINISHED_SESSIONS then t
    else Evicted(Table(Without(t.sessions, t.order[0]), t.order[1..]))
  }

  function Pruned(s: State): State {
    var t := Evicted(Table(s.sessions, Noted(s.sessions, s.finishedOrder)));
    s.(sessions := t.sessions, finishedOrder := t.order)
  }

  function Put(s: State, c: nat, k: Container): State { s.(containers := s.containers[c := k]) }

  function Log(s: State, a: Audit): State { s.(log := s.log + [a]) }

  /** An approved command is started; a failing spawn ends it without using up its index. */
  function Spawn(s: State, c: nat, job: Job, index: nat, spawns: bool): State
    requires c in s.containers
  {
    var k := s.containers[c];
    if spawns then
      Log(Put(s, c, k.(phase := Running(job, index, s.nextSession), runningIndex := Some(index)))
          .(sessions := s.sessions + [Tracked(s.nextSession, false, false)], nextSession := s.nextSession + 1),
          Started(c, job, index, s.nextSession))
    else
      Log(Put(s, c, k.(phase := Idle, runningIndex := None)), SpawnFailed(c, job, index))
  }

  function Decided(s: State, c: nat, job: Job, index: nat, approved: bool, why: Why, spawns: bool): State
    requires c in s.containers
  {
    var s1 := Log(s, Decision(c, job, index, approved, why));
    if approved then Spawn(s1, c, job, index, spawns) else Put(s1, c, s.containers[c].(phase := Idle))
  }

  predicate CanBegin(s: State, c: nat) {
    c in s.containers && s.containers[c].phase.Idle? && s.containers[c].queue != []
  }

  /** The next queued exec reaches the token store: decided at once by a token, or handed to a fresh evaluation. */
  function BeginNext(s: State, c: nat, now: int, spawns: bool): State
    requires CanBegin(s, c)
  {
    var k := s.containers[c];
    var job, key := k.queue[0], TokenKey(k.queue[0].command);
    var s1 := Put(s.(tokens := s.tokens - {key}), c, k.(queue := k.queue[1..]));
    if key in s.tokens && !Expired(s.tokens[key], now) then
      Decided(s1, c, job, k.nextIndex, s.tokens[key].approved, ByToken(s.tokens[key], now), spawns)
    else
      Put(s1, c, k.(queue := k.queue[1..], phase := Evaluating(job, k.nextIndex)))
  }

  predicate CanFinish(s: State, c: nat) {
    c in s.containers && s.containers[c].phase.Running? && !IsLive(s.sessions, s.containers[c].phase.session)
  }

  /** One element is dropped when there are more than `n`. */
  function Window<T>(s: seq<T>, n: nat): seq<T> { if |s| > n then s[1..] else s }

  function FinishRun(s: State, c: nat): State
    requires CanFinish(s, c)
  {
    var k := s.containers[c];
    var job, index := k.phase.job, k.phase.index;
    Pruned(Log(Put(s, c, k.(runningIndex := None, nextIndex := index + 1, phase := Idle,
                            completed := Window(k.completed + [Done(job, index)], s.window))),
               Finished(c, job, index)))
  }

  function NewContainer(task: string, interactive: bool): Container {
    Container(task, true, 1, None, Idle, [], [], [], if interactive then Interactive(true, 0) else NoShell)
  }

  function Ended(k: Container): Container { k.(open := false, shell := NoShell) }

  /** The sessions of a task. */
  function OwnedBy(s: State, task: string): set<nat> {
    set c | c in s.containers && s.containers[c].task == task
  }

  predicate RunsAny(s: State, task: string) {
    exists c :: c in OwnedBy(s, task) && s.containers[c].runningIndex.Some?
  }

  predicate TakesCtrlC(k: Container) { k.shell.Interactive? && k.shell.stdinOpen }

  function Next(s: State, e: Event): State {
    match e
    case Stage(token, now) =>
      s.(tokens := Unexpired(s.tokens, now)[TokenKey(token.command) := token], staged := s.staged + [token])
    case Open(task, interactive, spawns) =>
      if Blank(task) || |s.containers| >= MAX_AGENT_SESSIONS || |s.containers| in s.containers then s
      else if interactive && !spawns then s
      else Put(s, |s.containers|, NewContainer(task, interactive))
    case Submit(c, task, command) =>
      if Admit(s, c, task, command) != Ok then s
      else
        var k, job := s.containers[c], Job(s.nextJob, command);
        Put(s, c, k.(queue := k.queue + [job], accepted := k.accepted + [job])).(nextJob := s.nextJob + 1)
    case Begin(c, now, spawns) => if CanBegin(s, c) then BeginNext(s, c, now, spawns) else s
    case Evaluated(c, approved, spawns) =>
      if c in s.containers && s.containers[c].phase.Evaluating? then
        var p := s.containers[c].phase;
        Decided(s, c, p.job, p.index, approved, ByEvaluation, spawns)
      else s
    case Exit(id) => s.(sessions := MarkExit(s.sessions, id))
    case Finish(c) => if CanFinish(s, c) then FinishRun(s, c) else s
    case Stop(c, task) =>
      if OwnedSession(s, c, task) != Ok then s
      else if TakesCtrlC(s.containers[c]) then
        Put(s, c, s.containers[c].(shell := Interactive(true, s.containers[c].shell.interrupts + 1)))
      else if s.containers[c].runningIndex.Some? then s.(sessions := CancelFirst(s.sessions))
      else s
    case Close(c, task) =>
      if OwnedSession(s, c, task) != Ok then s
      else
        var s1 := Put(s, c, Ended(s.containers[c]));
        if s.containers[c].runningIndex.Some? then s1.(sessions := CancelAll(s.sessions)) else s1
    case CancelTask(task) =>
      s.(containers := map c | c in s.containers :: if c in OwnedBy(s, task) then Ended(s.containers[c]) else s.containers[c],
         sessions := if RunsAny(s, task) then CancelAll(s.sessions) else s.sessions)
    case ShellExits(c) =>
      if c in s.containers && s.containers[c].shell.Interactive? then
        Put(s, c, s.containers[c].(shell := s.containers[c].shell.(stdinOpen := false)))
      else s
    case UserStart => s.(sessions := s.sessions + [Tracked(s.nextSession, false, false)], nextSession := s.nextSession + 1)
    case Prune => Pruned(s)
  }

  function Fresh(window: nat): State { State(window, map[], map[], [], [], 0, 0, [], []) }

  function Run(s: State, es: seq<Event>): State {
    if es == [] then s else Next(Run(s, es[..|es| - 1]), es[|es| - 1])
  }

  // ---- One command at a time, under consecutive indices --------------------------------------

  ghost predicate Tidy(k: Container, window: nat) {
    && k.nextIndex >= 1
    && |k.completed| == Min(window, k.nextIndex - 1)
    && (forall i | 0 <= i < |k.completed| :: k.completed[i].index == k.nextIndex - |k.completed| + i)
    && (k.phase.Running? <==> k.runningIndex.Some?)
    && (k.runningIndex.Some? ==> k.runningIndex.value == k.nextIndex)
    && (!k.phase.Idle? ==> k.phase.index == k.nextIndex)
  }

  ghost predicate AllTidy(s: State) {
    s.window >= 1 && forall c | c in s.containers :: Tidy(s.containers[c], s.window)
  }

  lemma {:induction false} DecidedKeepsTidy(s: State, c: nat, job: Job, index: nat, approved: bool, why: Why, spawns: bool)
    requires AllTidy(s.(containers := s.containers - {c})) && c in s.containers
    requires Tidy(s.containers[c], s.window) && !s.containers[c].phase.Running? && index == s.containers[c].nextIndex
    ensures AllTidy(Decided(s, c, job, index, approved, why, spawns))
    ensures Decided(s, c, job, index, approved, why, spawns).window == s.window
  {
    var t := Decided(s, c, job, index, approved, why, spawns);
    forall d | d in t.containers ensures Tidy(t.containers[d], t.window) {
      if d != c {
        assert t.containers[d] == s.(containers := s.containers - {c}).containers[d];
      }
    }
  }

  lemma {:induction false} FinishKeepsTidy(k: Container, window: nat, job: Job)
    requires Tidy(k, window) && k.phase.Running? && window >= 1
    ensures Tidy(k.(runningIndex := None, nextIndex := k.phase.index + 1, phase := Idle,
                    completed := Window(k.completed + [Done(job, k.phase.index)], window)), window)
  {
  }

  lemma {:induction false} NextKeepsTidy(s: State, e: Event)
    requires AllTidy(s)
    ensures AllTidy(Next(s, e)) && Next(s, e).window == s.window
  {
    hide Evicted, Noted, CancelFirst, Admit, OwnedSession, CanFinish, Decided, Window, Tidy;
    match e
    case Open(task, interactive, spawns) => NewIsTidy(s, e);
    case Submit(c, task, command) =>
      SubmitKeepsTidy(s, c, task, command);
    case Begin(c, now, spawns) =>
      if CanBegin(s, c) {
        BeginKeepsTidy(s, c, now, spawns);
      }
    case Evaluated(c, approved, spawns) =>
      if c in s.containers && s.containers[c].phase.Evaluating? {
        var p := s.containers[c].phase;
        PhaseIndex(s.containers[c], s.window);
        DecidedKeepsTidy(s, c, p.job, p.index, approved, ByEvaluation, spawns);
      }
    case Finish(c) =>
      if CanFinish(s, c) {
        CanFinishMeans(s, c);
        FinishKeepsTidy(s.containers[c], s.window, s.containers[c].phase.job);
      }
    case Close(c, task) => CloseKeepsTidy(s, c, task);
    case CancelTask(task) => CancelTaskKeepsTidy(s, task);
    case Stop(c, task) => ShellKeepsTidy(s, e);
    case ShellExits(c) => ShellKeepsTidy(s, e);
    case _ =>
  }

  lemma {:induction false} ShellKeepsTidy(s: State, e: Event)
    requires AllTidy(s) && (e.Stop? || e.ShellExits?)
    ensures AllTidy(Next(s, e))
  {
    hide CancelFirst;
    if e.Stop? {
      OwnedMeans(s, e.container, e.task);
    }
  }

  lemma {:induction false} PhaseIndex(k: Container, window: nat)
    requires Tidy(k, window) && k.phase.Evaluating?
    ensures k.phase.index == k.nextIndex
  {
  }

  lemma {:induction false} CanFinishMeans(s: State, c: nat)
    requires CanFinish(s, c)
    ensures c in s.containers && s.containers[c].phase.Running?
  {
  }

  lemma {:induction false} NewIsTidy(s: State, e: Event)
    requires AllTidy(s) && e.Open?
    ensures AllTidy(Next(s, e))
  {
  }

  lemma {:induction false} SubmitKeepsTidy(s: State, c: nat, task: string, command: string)
    requires AllTidy(s)
    ensures AllTidy(Next(s, Submit(c, task, command)))
  {
  }

  lemma {:induction false} CloseKeepsTidy(s: State, c: nat, task: string)
    requires AllTidy(s)
    ensures AllTidy(Next(s, Close(c, task)))
  {
  }

  lemma {:induction false} CancelTaskKeepsTidy(s: State, task: string)
    requires AllTidy(s)
    ensures AllTidy(Next(s, CancelTask(task)))
  {
    hide OwnedBy, RunsAny;
  }

  lemma {:induction false} BeginKeepsTidy(s: State, c: nat, now: int, spawns: bool)
    requires AllTidy(s) && CanBegin(s, c)
    ensures AllTidy(BeginNext(s, c, now, spawns)) && BeginNext(s, c, now, spawns).window == s.window
  {
    hide Decided;
    var k := s.containers[c];
    var s1 := Put(s.(tokens := s.tokens - {TokenKey(k.queue[0].command)}), c, k.(queue := k.queue[1..]));
    forall approved, why ensures AllTidy(Decided(s1, c, k.queue[0], k.nextIndex, approved, why, spawns)) {
      DecidedKeepsTidy(s1, c, k.queue[0], k.nextIndex, approved, why, spawns);
    }
    if TokenKey(k.queue[0].command) in s.tokens {
      var t := s.tokens[TokenKey(k.queue[0].command)];
      DecidedKeepsTidy(s1, c, k.queue[0], k.nextIndex, t.approved, ByToken(t, now), spawns);
    }
  }

  // ---- Every start was approved ---------------------------------------------------------------

  /** The log entry before a start is the approval of that very exec. */
  ghost predicate Approved(log: seq<Audit>) {
    forall i | 0 <= i < |log| && log[i].Started? ::
      i > 0 && log[i - 1].Decision? && log[i - 1].approved &&
      log[i - 1].container == log[i].container && log[i - 1].job == log[i].job && log[i - 1].index == log[i].index
  }

  /** A token that decided was staged, unexpired, and filed under the command's text. */
  ghost predicate TokensSound(s: State) {
    && (forall k | k in s.tokens :: s.tokens[k] in s.staged && TokenKey(s.tokens[k].command) == k)
    && (forall a | a in s.log && a.Decision? && a.why.ByToken? ::
         a.why.token in s.staged && a.approved == a.why.token.approved && !Expired(a.why.token, a.why.at)
         && TokenKey(a.why.token.command) == TokenKey(a.job.command))
  }

  /** What a decision writes. */
  function DecisionEntries(c: nat, job: Job, index: nat, approved: bool, why: Why, spawns: bool, session: nat): seq<Audit> {
    [Decision(c, job, index, approved, why)] +
    if !approved then [] else [if spawns then Started(c, job, index, session) else SpawnFailed(c, job, index)]
  }

  /** What a step writes. */
  function Entries(s: State, e: Event): seq<Audit> {
    match e
    case Begin(c, now, spawns) =>
      if !CanBegin(s, c) then []
      else
        var k := s.containers[c];
        var job, key := k.queue[0], TokenKey(k.queue[0].command);
        if key !in s.tokens || Expired(s.tokens[key], now) then []
        else DecisionEntries(c, job, k.nextIndex, s.tokens[key].approved, ByToken(s.tokens[key], now), spawns, s.nextSession)
    case Evaluated(c, approved, spawns) =>
      if c in s.containers && s.containers[c].phase.Evaluating? then
        DecisionEntries(c, s.containers[c].phase.job, s.containers[c].phase.index, approved, ByEvaluation, spawns, s.nextSession)
      else []
    case Finish(c) =>
      if CanFinish(s, c) then [Finished(c, s.containers[c].phase.job, s.containers[c].phase.index)] else []
    case _ => []
  }

  lemma {:induction false} NextWrites(s: State, e: Event)
    ensures Next(s, e).log == s.log + Entries(s, e)
  {
    hide Evicted, Noted, CancelFirst, Admit, OwnedSession, CanFinish, Expired, TokenKey, Window, Unexpired, Blank;
    assert s.log + [] == s.log;
  }

  /** Nothing else stages, uses or writes. */
  lemma {:induction false} OthersLeaveTokens(s: State, e: Event)
    requires !e.Stage? && !e.Begin? && !e.Evaluated? && !e.Finish?
    ensures var t := Next(s, e); t.tokens == s.tokens && t.staged == s.staged && t.log == s.log
    ensures Entries(s, e) == []
  {
    hide Evicted, Noted, CancelFirst, CancelAll, MarkExit, Admit, OwnedSession, OwnedBy, RunsAny, Blank;
  }

  lemma {:induction false} FinishLeavesTokens(s: State, c: nat)
    ensures var t := Next(s, Finish(c)); t.tokens == s.tokens && t.staged == s.staged
  {
    hide Evicted, Noted, CanFinish, Window;
    if CanFinish(s, c) {
      CanFinishMeans(s, c);
    }
  }

  lemma {:induction false} StageIs(s: State, e: Event)
    requires e.Stage?
    ensures Entries(s, e) == []
    ensures Next(s, e) == s.(tokens := Unexpired(s.tokens, e.now)[TokenKey(e.token.command) := e.token], staged := s.staged + [e.token])
  {
    hide Unexpired, TokenKey;
  }

  lemma {:induction false} NextKeepsApproved(s: State, e: Event)
    requires Approved(s.log)
    ensures Approved(Next(s, e).log)
  {
    hide Next, CanBegin, CanFinish, TokenKey, Expired;
    NextWrites(s, e);
    var more := Entries(s, e);
    assert |more| > 0 ==> !more[0].Started?;
  }

  lemma {:induction false} DecisionSound(s: State, t: State, more: seq<Audit>)
    requires TokensSound(s) && t.log == s.log + more && t.staged == s.staged
    requires forall k | k in t.tokens :: k in s.tokens && t.tokens[k] == s.tokens[k]
    requires forall a | a in more && a.Decision? && a.why.ByToken? ::
      a.why.token in s.staged && a.approved == a.why.token.approved && !Expired(a.why.token, a.why.at)
      && TokenKey(a.why.token.command) == TokenKey(a.job.command)
    ensures TokensSound(t)
  {
    hide TokenKey, Expired;
  }

  lemma {:induction false} BeginLeaves(s: State, e: Event)
    requires e.Begin?
    ensures var t := Next(s, e);
      && t.staged == s.staged
      && t.tokens == if CanBegin(s, e.container) then s.tokens - {TokenKey(s.containers[e.container].queue[0].command)} else s.tokens
  {
    hide Decided, DecisionEntries, TokenKey, Expired, Next, Entries;
    BeginIs(s, e);
    if CanBegin(s, e.container) {
      var k := s.containers[e.container];
      var own := TokenKey(k.queue[0].command);
      var s1 := Put(s.(tokens := s.tokens - {own}), e.container, k.(queue := k.queue[1..]));
      if own in s.tokens && !Expired(s.tokens[own], e.now) {
        DecidedChanges(s1, e.container, k.queue[0], k.nextIndex, s.tokens[own].approved, ByToken(s.tokens[own], e.now), e.spawns);
      }
    }
  }

  lemma {:induction false} EvaluatedLeaves(s: State, e: Event)
    requires e.Evaluated?
    ensures var t := Next(s, e); t.tokens == s.tokens && t.staged == s.staged
  {
    hide Decided, DecisionEntries, Next, Entries;
    EvaluatedIs(s, e);
    if e.container in s.containers && s.containers[e.container].phase.Evaluating? {
      var p := s.containers[e.container].phase;
      DecidedChanges(s, e.container, p.job, p.index, e.approved, ByEvaluation, e.spawns);
    }
  }

  lemma {:induction false} StageKeepsSound(s: State, e: Event)
    requires TokensSound(s) && e.Stage?
    ensures TokensSound(Next(s, e))
  {
    hide TokenKey, Expired;
    StageIs(s, e);
  }

  lemma {:induction false} NextKeepsTokensSound(s: State, e: Event)
    requires TokensSound(s)
    ensures TokensSound(Next(s, e))
  {
    hide Next, Entries, TokensSound, CanBegin, TokenKey, Expired;
    if e.Stage? {
      StageKeepsSound(s, e);
    } else {
      NextWrites(s, e);
      StepLeaves(s, e);
      EntriesSound(s, e);
      DecisionSound(s, Next(s, e), Entries(s, e));
    }
  }

  lemma {:induction false} StepLeaves(s: State, e: Event)
    requires !e.Stage?
    ensures var t := Next(s, e);
      t.staged == s.staged && forall k | k in t.tokens :: k in s.tokens && t.tokens[k] == s.tokens[k]
  {
    hide Next, Entries, CanBegin, TokenKey;
    match e
    case Begin(c, now, spawns) => BeginLeaves(s, e);
    case Evaluated(c, approved, spawns) => EvaluatedLeaves(s, e);
    case Finish(c) => FinishLeavesTokens(s, c);
    case _ => OthersLeaveTokens(s, e);
  }

  lemma {:induction false} EntriesSound(s: State, e: Event)
    requires TokensSound(s)
    ensures forall a | a in Entries(s, e) && a.Decision? && a.why.ByToken? ::
      a.why.token in s.staged && a.approved == a.why.token.approved && !Expired(a.why.token, a.why.at)
      && TokenKey(a.why.token.command) == TokenKey(a.job.command)
  {
    hide Expired, TokenKey, CanFinish;
  }

  /** For a command an exec can carry, a token filed under it was staged for that text exactly when it was not too long. */
  lemma {:induction false} TokenIsForThisTextIff(t: Token, command: string)
    requires |command| <= MAX_COMMAND_CHARS && TokenKey(t.command) == TokenKey(command)
    ensures t.command == command <==> |t.command| <= MAX_COMMAND_CHARS
    ensures command <= t.command
  {
  }

  // ---- A staged token is used at most once -------------------------------------------------------

  /** How many logged decisions a token filed under `key` made. */
  function Uses(log: seq<Audit>, key: string): nat {
    if log == [] then 0
    else
      var a := log[|log| - 1];
      Uses(log[..|log| - 1], key) + if a.Decision? && a.why.ByToken? && TokenKey(a.job.command) == key then 1 else 0
  }

  function Stagings(staged: seq<Token>, key: string): nat {
    if staged == [] then 0
    else Stagings(staged[..|staged| - 1], key) + if TokenKey(staged[|staged| - 1].command) == key then 1 else 0
  }

  ghost predicate SingleUse(s: State, key: string) {
    Uses(s.log, key) + (if key in s.tokens then 1 else 0) <= Stagings(s.staged, key)
  }

  lemma {:induction false} UsesAppend(log: seq<Audit>, more: seq<Audit>, key: string)
    ensures Uses(log + more, key) == Uses(log, key) + Uses(more, key)
  {
    if more == [] {
      assert log + more == log;
    } else {
      var init, a := more[..|more| - 1], more[|more| - 1];
      UsesAppend(log, init, key);
      assert log + more == (log + init) + [a];
      assert (log + more)[..|log + more| - 1] == log + init;
    }
  }

  lemma {:induction false} EntryUses(c: nat, job: Job, index: nat, approved: bool, why: Why, spawns: bool, session: nat, key: string)
    ensures Uses(DecisionEntries(c, job, index, approved, why, spawns, session), key) ==
      if why.ByToken? && TokenKey(job.command) == key then 1 else 0
  {
    hide TokenKey;
    var d := Decision(c, job, index, approved, why);
    var es := DecisionEntries(c, job, index, approved, why, spawns, session);
    assert [d][..0] == [];
    if approved {
      assert es[..1] == [d];
    } else {
      assert es == [d];
    }
  }

  /** A step that stages nothing uses a token only by taking it out. */
  lemma {:induction false} StepUses(s: State, e: Event, key: string)
    requires !e.Stage?
    ensures Uses(Entries(s, e), key) + (if key in Next(s, e).tokens then 1 else 0) <= if key in s.tokens then 1 else 0
  {
    hide Next, Entries, Uses, TokenKey, Expired, DecisionEntries, Decided;
    NoUses(key);
    match e
    case Begin(c, now, spawns) =>
      BeginIs(s, e);
      BeginLeaves(s, e);
      if CanBegin(s, c) {
        var k := s.containers[c];
        var own := TokenKey(k.queue[0].command);
        if own in s.tokens && !Expired(s.tokens[own], now) {
          EntryUses(c, k.queue[0], k.nextIndex, s.tokens[own].approved, ByToken(s.tokens[own], now), spawns, s.nextSession, key);
        }
      }
    case Evaluated(c, approved, spawns) =>
      EvaluatedIs(s, e);
      EvaluatedLeaves(s, e);
      if c in s.containers && s.containers[c].phase.Evaluating? {
        var p := s.containers[c].phase;
        EntryUses(c, p.job, p.index, approved, ByEvaluation, spawns, s.nextSession, key);
      }
    case Finish(c) =>
      FinishLeavesTokens(s, c);
      FinishUses(s, c, key);
    case _ => OthersLeaveTokens(s, e);
  }

  lemma {:induction false} NoUses(key: string)
    ensures Uses([], key) == 0
  {
  }

  lemma {:induction false} FinishUses(s: State, c: nat, key: string)
    ensures Uses(Entries(s, Finish(c)), key) == 0
  {
    hide CanFinish;
    if CanFinish(s, c) {
      CanFinishMeans(s, c);
      var a := Finished(c, s.containers[c].phase.job, s.containers[c].phase.index);
      assert [a][..0] == [];
    }
  }

  lemma {:induction false} StageCounts(s: State, e: Event, key: string)
    requires e.Stage?
    ensures var own := TokenKey(e.token.command);
      && Stagings(Next(s, e).staged, key) == Stagings(s.staged, key) + (if own == key then 1 else 0)
      && (key in Next(s, e).tokens ==> key == own || key in s.tokens)
  {
    hide Next, Entries, TokenKey, Expired;
    StageIs(s, e);
    assert (s.staged + [e.token])[..|s.staged|] == s.staged;
  }

  lemma {:induction false} NextKeepsSingleUse(s: State, e: Event, key: string)
    requires SingleUse(s, key)
    ensures SingleUse(Next(s, e), key)
  {
    hide Next, Entries, TokenKey, Uses, Stagings;
    NextWrites(s, e);
    UsesAppend(s.log, Entries(s, e), key);
    if e.Stage? {
      StageCounts(s, e, key);
      StageIs(s, e);
      NoUses(key);
    } else {
      StepUses(s, e, key);
      StepLeaves(s, e);
    }
  }

  // ---- Execs are decided once each, in the order they were accepted -----------------------------

  function DecidedJobs(log: seq<Audit>, c: nat): seq<Job> {
    if log == [] then []
    else
      var a := log[|log| - 1];
      DecidedJobs(log[..|log| - 1], c) + if a.Decision? && a.container == c then [a.job] else []
  }

  /** The accepted execs that are not decided yet. */
  function Pending(k: Container): seq<Job> {
    (if k.phase.Evaluating? then [k.phase.job] else []) + k.queue
  }

  ghost predicate InOrder(s: State, c: nat) {
    if c in s.containers then DecidedJobs(s.log, c) + Pending(s.containers[c]) == s.containers[c].accepted
    else DecidedJobs(s.log, c) == []
  }

  lemma {:induction false} DecidedAppend(log: seq<Audit>, more: seq<Audit>, c: nat)
    ensures DecidedJobs(log + more, c) == DecidedJobs(log, c) + DecidedJobs(more, c)
  {
    if more == [] {
      assert log + more == log;
    } else {
      var init, a := more[..|more| - 1], more[|more| - 1];
      DecidedAppend(log, init, c);
      assert log + more == (log + init) + [a];
      assert (log + more)[..|log + more| - 1] == log + init;
    }
  }

  lemma {:induction false} EntryDecides(d: nat, job: Job, index: nat, approved: bool, why: Why, spawns: bool, session: nat, c: nat)
    ensures DecidedJobs(DecisionEntries(d, job, index, approved, why, spawns, session), c) == if d == c then [job] else []
  {
    var first := Decision(d, job, index, approved, why);
    var es := DecisionEntries(d, job, index, approved, why, spawns, session);
    assert [first][..0] == [];
    assert DecidedJobs([first], c) == if d == c then [job] else [];
    if approved {
      assert es[..1] == [first] && |es| == 2;
      assert DecidedJobs(es, c) == DecidedJobs([first], c) + [];
    } else {
      assert es == [first];
    }
  }

  lemma {:induction false} AdmitMeans(s: State, c: nat, task: string, command: string)
    ensures Admit(s, c, task, command) == Ok <==>
      task != "" && c in s.containers && s.containers[c].task == task && s.containers[c].open
      && !Blank(command) && |command| <= 4096 && |s.sessions| < 8
  {
  }

  lemma {:induction false} OwnedMeans(s: State, c: nat, task: string)
    ensures OwnedSession(s, c, task) == Ok <==> task != "" && c in s.containers && s.containers[c].task == task
  {
  }

  /** A decision only changes how far the deciding session has come. */
  lemma {:induction false} DecidedChanges(s: State, c: nat, job: Job, index: nat, approved: bool, why: Why, spawns: bool)
    requires c in s.containers
    ensures var t, k := Decided(s, c, job, index, approved, why, spawns), s.containers[c];
      && t.containers.Keys == s.containers.Keys && !t.containers[c].phase.Evaluating?
      && (forall d | d in s.containers && d != c :: t.containers[d] == s.containers[d])
      && t.containers[c] == k.(phase := t.containers[c].phase, runningIndex := t.containers[c].runningIndex)
      && t.nextJob == s.nextJob && t.tokens == s.tokens && t.staged == s.staged
      && |t.sessions| >= |s.sessions| && t.finishedOrder == s.finishedOrder
  {
  }

  /**
   * What one step does to one session: it takes a further exec at the end of the line, or
   * decides the first one in line, or leaves the line as it is.
   */
  ghost predicate LineStep(s: State, e: Event, c: nat) {
    var t := Next(s, e);
    && c in s.containers && c in t.containers
    && var k, l := s.containers[c], t.containers[c];
    if e.Submit? && e.container == c && Admit(s, c, e.task, e.command) == Ok then
      var job := Job(s.nextJob, e.command);
      l == k.(queue := k.queue + [job], accepted := k.accepted + [job]) && t.nextJob == s.nextJob + 1
    else
      && l.accepted == k.accepted && l.task == k.task && (!k.open ==> !l.open) && t.nextJob >= s.nextJob
      && Pending(k) == DecidedJobs(Entries(s, e), c) + Pending(l)
  }

  /** What a beginning exec does: it is decided by a usable token, or waits for an evaluation. */
  lemma {:induction false} BeginIs(s: State, e: Event)
    requires e.Begin?
    ensures !CanBegin(s, e.container) ==> Next(s, e) == s && Entries(s, e) == []
    ensures CanBegin(s, e.container) ==>
      var c, k := e.container, s.containers[e.container];
      var job, key := k.queue[0], TokenKey(k.queue[0].command);
      var s1 := Put(s.(tokens := s.tokens - {key}), c, k.(queue := k.queue[1..]));
      if key in s.tokens && !Expired(s.tokens[key], e.now) then
        var t := s.tokens[key];
        && Next(s, e) == Decided(s1, c, job, k.nextIndex, t.approved, ByToken(t, e.now), e.spawns)
        && Entries(s, e) == DecisionEntries(c, job, k.nextIndex, t.approved, ByToken(t, e.now), e.spawns, s.nextSession)
      else
        && Next(s, e) == Put(s1, c, k.(queue := k.queue[1..], phase := Evaluating(job, k.nextIndex)))
        && Entries(s, e) == []
  {
    hide Decided, DecisionEntries, TokenKey, Expired;
  }

  lemma {:induction false} BeginLine(s: State, d: nat, now: int, spawns: bool, c: nat)
    requires c in s.containers
    ensures LineStep(s, Begin(d, now, spawns), c)
  {
    hide Decided, Expired, TokenKey, DecisionEntries, Admit, Next, Entries, DecidedJobs;
    BeginIs(s, Begin(d, now, spawns));
    NothingDecided(c);
    if CanBegin(s, d) {
      var k := s.containers[d];
      assert [k.queue[0]] + k.queue[1..] == k.queue;
      var own := TokenKey(k.queue[0].command);
      var s1 := Put(s.(tokens := s.tokens - {own}), d, k.(queue := k.queue[1..]));
      if own in s.tokens && !Expired(s.tokens[own], now) {
        var t := s.tokens[own];
        EntryDecides(d, k.queue[0], k.nextIndex, t.approved, ByToken(t, now), spawns, s.nextSession, c);
        DecidedChanges(s1, d, k.queue[0], k.nextIndex, t.approved, ByToken(t, now), spawns);
      }
    }
  }

  lemma {:induction false} EvaluatedLine(s: State, d: nat, approved: bool, spawns: bool, c: nat)
    requires c in s.containers
    ensures LineStep(s, Evaluated(d, approved, spawns), c)
  {
    hide Decided, DecisionEntries, Admit, Next, Entries, DecidedJobs;
    var e := Evaluated(d, approved, spawns);
    EvaluatedIs(s, e);
    if d in s.containers && s.containers[d].phase.Evaluating? {
      var p := s.containers[d].phase;
      EntryDecides(d, p.job, p.index, approved, ByEvaluation, spawns, s.nextSession, c);
      DecidedChanges(s, d, p.job, p.index, approved, ByEvaluation, spawns);
    } else {
      NothingDecided(c);
    }
  }

  lemma {:induction false} NothingDecided(c: nat)
    ensures DecidedJobs([], c) == []
  {
  }

  lemma {:induction false} EvaluatedIs(s: State, e: Event)
    requires e.Evaluated?
    ensures var c := e.container;
      if c in s.containers && s.containers[c].phase.Evaluating? then
        var p := s.containers[c].phase;
        && Next(s, e) == Decided(s, c, p.job, p.index, e.approved, ByEvaluation, e.spawns)
        && Entries(s, e) == DecisionEntries(c, p.job, p.index, e.approved, ByEvaluation, e.spawns, s.nextSession)
      else Next(s, e) == s && Entries(s, e) == []
  {
  }

  lemma {:induction false} FinishLine(s: State, d: nat, c: nat)
    requires c in s.containers
    ensures LineStep(s, Finish(d), c)
  {
    hide Admit, CanFinish, Evicted, Noted, Window, Entries, DecidedJobs;
    FinishDecides(s, d, c);
    if CanFinish(s, d) {
      CanFinishMeans(s, d);
    }
  }

  lemma {:induction false} FinishDecides(s: State, d: nat, c: nat)
    ensures DecidedJobs(Entries(s, Finish(d)), c) == []
  {
    hide CanFinish;
    if CanFinish(s, d) {
      CanFinishMeans(s, d);
      var a := Finished(d, s.containers[d].phase.job, s.containers[d].phase.index);
      assert [a][..0] == [];
    }
  }

  lemma {:induction false} SubmitLine(s: State, e: Event, c: nat)
    requires c in s.containers && e.Submit?
    ensures LineStep(s, e, c)
  {
    hide Admit, Blank;
    AdmitMeans(s, e.container, e.task, e.command);
  }

  /** Stopping, closing and cancelling leave the line alone. */
  lemma {:induction false} EndingLine(s: State, e: Event, c: nat)
    requires c in s.containers && (e.Stop? || e.Close? || e.CancelTask?)
    ensures LineStep(s, e, c)
  {
    hide CancelFirst, CancelAll, OwnedSession, OwnedBy, RunsAny;
    NothingDecided(c);
    match e
    case Stop(d, task) => OwnedMeans(s, d, task);
    case Close(d, task) => OwnedMeans(s, d, task);
    case CancelTask(task) =>
  }

  lemma {:induction false} OtherLine(s: State, e: Event, c: nat)
    requires c in s.containers && (e.Stage? || e.Open? || e.Exit? || e.ShellExits? || e.UserStart? || e.Prune?)
    ensures LineStep(s, e, c)
  {
    hide Evicted, Noted, MarkExit, Blank, Unexpired, TokenKey;
    NothingDecided(c);
  }

  lemma {:induction false} AnyLine(s: State, e: Event, c: nat)
    requires c in s.containers
    ensures LineStep(s, e, c)
  {
    hide *;
    match e
    case Submit(d, task, command) => SubmitLine(s, e, c);
    case Begin(d, now, spawns) => BeginLine(s, d, now, spawns, c);
    case Evaluated(d, approved, spawns) => EvaluatedLine(s, d, approved, spawns, c);
    case Finish(d) => FinishLine(s, d, c);
    case Stop(d, task) => EndingLine(s, e, c);
    case Close(d, task) => EndingLine(s, e, c);
    case CancelTask(task) => EndingLine(s, e, c);
    case _ => OtherLine(s, e, c);
  }

  /** A session that is not there yet is at most created, empty. */
  lemma {:induction false} NoLine(s: State, e: Event, c: nat)
    requires c !in s.containers
    ensures c in Next(s, e).containers ==> Next(s, e).containers[c].accepted == Pending(Next(s, e).containers[c]) == []
    ensures DecidedJobs(Entries(s, e), c) == []
  {
    hide Next, Entries, DecidedJobs, Pending, Decided, DecisionEntries, Expired, TokenKey;
    match e
    case Begin(d, now, spawns) =>
      NothingDecided(c);
      BeginIs(s, e);
      if CanBegin(s, d) {
        var k := s.containers[d];
        var own := TokenKey(k.queue[0].command);
        var s1 := Put(s.(tokens := s.tokens - {own}), d, k.(queue := k.queue[1..]));
        if own in s.tokens && !Expired(s.tokens[own], now) {
          var t := s.tokens[own];
          EntryDecides(d, k.queue[0], k.nextIndex, t.approved, ByToken(t, now), spawns, s.nextSession, c);
          DecidedChanges(s1, d, k.queue[0], k.nextIndex, t.approved, ByToken(t, now), spawns);
        }
      }
    case Evaluated(d, approved, spawns) =>
      NothingDecided(c);
      EvaluatedIs(s, e);
      if d in s.containers && s.containers[d].phase.Evaluating? {
        var p := s.containers[d].phase;
        EntryDecides(d, p.job, p.index, approved, ByEvaluation, spawns, s.nextSession, c);
        DecidedChanges(s, d, p.job, p.index, approved, ByEvaluation, spawns);
      }
    case Finish(d) =>
      FinishDecides(s, d, c);
      NoFinishLine(s, d, c);
    case _ => NoOtherLine(s, e, c);
  }

  lemma {:induction false} NoFinishLine(s: State, d: nat, c: nat)
    requires c !in s.containers
    ensures c !in Next(s, Finish(d)).containers
  {
    hide CanFinish, Evicted, Noted, Window;
    if CanFinish(s, d) {
      CanFinishMeans(s, d);
    }
  }

  lemma {:induction false} NoOtherLine(s: State, e: Event, c: nat)
    requires c !in s.containers && !e.Begin? && !e.Evaluated? && !e.Finish?
    ensures c in Next(s, e).containers ==> Next(s, e).containers[c].accepted == Pending(Next(s, e).containers[c]) == []
    ensures DecidedJobs(Entries(s, e), c) == []
  {
    hide Evicted, Noted, CancelFirst, CancelAll, MarkExit, Admit, OwnedSession, Blank, Unexpired, TokenKey, OwnedBy, RunsAny;
    NothingDecided(c);
    match e
    case Submit(d, task, command) => AdmitMeans(s, d, task, command);
    case Stop(d, task) => OwnedMeans(s, d, task);
    case Close(d, task) => OwnedMeans(s, d, task);
    case _ =>
  }

  lemma {:induction false} NextKeepsInOrder(s: State, e: Event, c: nat)
    requires InOrder(s, c)
    ensures InOrder(Next(s, e), c)
  {
    hide Next, Entries, Admit, DecidedJobs, Pending;
    NextWrites(s, e);
    DecidedAppend(s.log, Entries(s, e), c);
    if c in s.containers {
      AnyLine(s, e, c);
      LineIsDecidedFirst(s, e, c);
      var k, l := s.containers[c], Next(s, e).containers[c];
      var tail := l.accepted[|k.accepted|..];
      calc {
        DecidedJobs(Next(s, e).log, c) + Pending(l);
      ==
        DecidedJobs(s.log, c) + (DecidedJobs(Entries(s, e), c) + Pending(l));
      ==
        (DecidedJobs(s.log, c) + Pending(k)) + tail;
      ==
        l.accepted;
      }
    } else {
      NoLine(s, e, c);
    }
  }

  lemma {:induction false} SubmitWrites(s: State, e: Event)
    requires e.Submit?
    ensures Entries(s, e) == [] && forall c :: DecidedJobs(Entries(s, e), c) == []
  {
  }

  lemma {:induction false} LineIsDecidedFirst(s: State, e: Event, c: nat)
    requires c in s.containers && LineStep(s, e, c)
    ensures DecidedJobs(Entries(s, e), c) + Pending(Next(s, e).containers[c]) ==
      Pending(s.containers[c]) + Next(s, e).containers[c].accepted[|s.containers[c].accepted|..]
    ensures s.containers[c].accepted <= Next(s, e).containers[c].accepted && c in Next(s, e).containers
  {
    hide Next, DecidedJobs, Entries, Admit;
    var k, l := s.containers[c], Next(s, e).containers[c];
    if e.Submit? {
      SubmitWrites(s, e);
      assert DecidedJobs(Entries(s, e), c) == [];
    }
  }

  ghost predicate Increasing(jobs: seq<Job>) {
    forall x, y | 0 <= x < y < |jobs| :: jobs[x].id < jobs[y].id
  }

  /** Accepted execs have increasing numbers and are not too long. */
  ghost predicate AcceptedSound(s: State) {
    forall c | c in s.containers ::
      && (forall j | j in s.containers[c].accepted :: |j.command| <= MAX_COMMAND_CHARS && j.id < s.nextJob)
      && Increasing(s.containers[c].accepted)
  }

  lemma {:induction false} NextKeepsAccepted(s: State, e: Event)
    requires AcceptedSound(s)
    ensures AcceptedSound(Next(s, e))
  {
    hide Next, Admit, Entries, DecidedJobs, Pending;
    var t := Next(s, e);
    forall c | c in t.containers
      ensures (forall j | j in t.containers[c].accepted :: |j.command| <= MAX_COMMAND_CHARS && j.id < t.nextJob)
      ensures Increasing(t.containers[c].accepted)
    {
      if c in s.containers {
        AnyLine(s, e, c);
        if e.Submit? {
          AdmitMeans(s, e.container, e.task, e.command);
        }
      } else {
        NoLine(s, e, c);
      }
    }
  }

  // ---- One exec from the queue to its end --------------------------------------------------------

  /**
   * The exec at the head of a queue is decided at once when a token of at most a minute is filed
   * for it, by what that token says, and waits for an evaluation otherwise. The token is gone in
   * either case.
   */
  lemma {:induction false} TokenDecidesIff(s: State, c: nat, now: int, spawns: bool)
    requires c in s.containers && s.containers[c].phase.Idle? && s.containers[c].queue != []
    ensures
      var t, k, job := Next(s, Begin(c, now, spawns)), s.containers[c], s.containers[c].queue[0];
      var key := TokenKey(job.command);
      && t.tokens == s.tokens - {key} && c in t.containers && t.containers[c].queue == k.queue[1..]
      && if key in s.tokens && now - s.tokens[key].issuedAt <= 60_000 then
           var d := Decision(c, job, k.nextIndex, s.tokens[key].approved, ByToken(s.tokens[key], now));
           && s.log + [d] <= t.log
           && t.containers[c].phase ==
                (if s.tokens[key].approved && spawns then Running(job, k.nextIndex, s.nextSession) else Idle)
         else
           t.log == s.log && t.containers[c].phase == Evaluating(job, k.nextIndex)
  {
    hide TokenKey;
  }

  /** An evaluation that is awaited decides the exec it was started for. */
  lemma {:induction false} EvaluationDecides(s: State, c: nat, approved: bool, spawns: bool)
    requires c in s.containers && s.containers[c].phase.Evaluating?
    ensures
      var t, k := Next(s, Evaluated(c, approved, spawns)), s.containers[c];
      && c in t.containers && t.tokens == s.tokens && t.containers[c].queue == k.queue
      && s.log + [Decision(c, k.phase.job, k.phase.index, approved, ByEvaluation)] <= t.log
      && t.containers[c].phase == (if approved && spawns then Running(k.phase.job, k.phase.index, s.nextSession) else Idle)
  {
  }

  /** A command that runs goes on until its process has ended, whatever else happens. */
  lemma {:induction false} RunsUntilExit(s: State, e: Event, c: nat)
    requires c in s.containers && s.containers[c].phase.Running?
    ensures c in Next(s, e).containers
    ensures Next(s, e).containers[c].phase != s.containers[c].phase ==>
      && e == Finish(c) && (forall x | x in s.sessions && x.id == s.containers[c].phase.session :: x.finished)
      && Next(s, e).containers[c].phase == Idle && Next(s, e).containers[c].nextIndex == s.containers[c].phase.index + 1
  {
    hide Evicted, Noted, CancelFirst, CancelAll, MarkExit, Admit, OwnedSession, OwnedBy, RunsAny, Blank, Unexpired, TokenKey,
         Expired, Window, Decided, Next;
    match e
    case Begin(d, now, spawns) =>
      BeginIs(s, e);
      if CanBegin(s, d) {
        var k := s.containers[d];
        var own := TokenKey(k.queue[0].command);
        var s1 := Put(s.(tokens := s.tokens - {own}), d, k.(queue := k.queue[1..]));
        if own in s.tokens && !Expired(s.tokens[own], now) {
          var t := s.tokens[own];
          DecidedChanges(s1, d, k.queue[0], k.nextIndex, t.approved, ByToken(t, now), spawns);
        }
      }
    case Evaluated(d, approved, spawns) =>
      EvaluatedIs(s, e);
      if d in s.containers && s.containers[d].phase.Evaluating? {
        var p := s.containers[d].phase;
        DecidedChanges(s, d, p.job, p.index, approved, ByEvaluation, spawns);
      }
    case Finish(d) => FinishRuns(s, d, c);
    case _ => OthersKeepPhase(s, e, c);
  }

  lemma {:induction false} FinishRuns(s: State, d: nat, c: nat)
    requires c in s.containers
    ensures var t := Next(s, Finish(d));
      && c in t.containers
      && if c == d && s.containers[c].phase.Running? && !IsLive(s.sessions, s.containers[c].phase.session) then
           t.containers[c].phase == Idle && t.containers[c].nextIndex == s.containers[c].phase.index + 1
         else t.containers[c] == s.containers[c]
  {
    hide Evicted, Noted, Window;
  }

  lemma {:induction false} OthersKeepPhase(s: State, e: Event, c: nat)
    requires c in s.containers && !e.Begin? && !e.Evaluated? && !e.Finish?
    ensures c in Next(s, e).containers && Next(s, e).containers[c].phase == s.containers[c].phase
  {
    hide Evicted, Noted, CancelFirst, CancelAll, MarkExit, Admit, OwnedSession, OwnedBy, RunsAny, Blank, Unexpired, TokenKey;
    match e
    case Submit(d, task, command) => AdmitMeans(s, d, task, command);
    case Stop(d, task) => OwnedMeans(s, d, task);
    case Close(d, task) => OwnedMeans(s, d, task);
    case _ =>
  }

  /** The end of a command enters it in the history, and the trail, under its own index. */
  lemma {:induction false} FinishRecords(s: State, c: nat)
    requires s.window >= 1 && c in s.containers && s.containers[c].phase.Running?
    requires forall x | x in s.sessions && x.id == s.containers[c].phase.session :: x.finished
    ensures
      var t, k, done := Next(s, Finish(c)), s.containers[c], Done(s.containers[c].phase.job, s.containers[c].phase.index);
      && c in t.containers && t.containers[c].completed != []
      && t.containers[c].completed[|t.containers[c].completed| - 1] == done
      && t.log == s.log + [Finished(c, k.phase.job, k.phase.index)]
  {
    hide Evicted, Noted;
  }

  /** Why an exec is refused, checked in this order. */
  lemma {:induction false} RefusalMeans(s: State, c: nat, task: string, command: string)
    ensures
      var code, there := Admit(s, c, task, command), task != "" && c in s.containers;
      && (code == NotFound <==> task != "" && c !in s.containers)
      && (code == Forbidden <==> there && s.containers[c].task != task)
      && (code == Closed <==> there && s.containers[c].task == task && !s.containers[c].open)
      && (code == Invalid <==>
            task == "" || (there && s.containers[c].task == task && s.containers[c].open && (Blank(command) || |command| > 4096)))
      && (code == Limit <==>
            there && s.containers[c].task == task && s.containers[c].open && !Blank(command) && |command| <= 4096
            && |s.sessions| >= 8)
  {
  }

  /** A process of the user's terminal is tracked like any other; the end of a process marks that process alone. */
  lemma {:induction false} ProcessesComeAndGo(s: State, id: nat)
    ensures Next(s, UserStart).sessions == s.sessions + [Tracked(s.nextSession, false, false)]
    ensures Next(s, UserStart).nextSession == s.nextSession + 1
    ensures
      var after := Next(s, Exit(id)).sessions;
      |after| == |s.sessions| && forall i | 0 <= i < |after| ::
        after[i] == Tracked(s.sessions[i].id, s.sessions[i].finished || s.sessions[i].id == id, s.sessions[i].cancelled)
  {
  }

  /** A stop interrupts what an open shell runs, once, and nothing else; a shell that has ended takes no interrupt. */
  lemma {:induction false} StopInterruptsOpenShell(s: State, c: nat, task: string)
    requires task != "" && c in s.containers && s.containers[c].task == task && s.containers[c].shell.Interactive?
    ensures
      var k, ended := s.containers[c], Next(s, ShellExits(c));
      && (k.shell.stdinOpen ==>
            Next(s, Stop(c, task)) ==
              s.(containers := s.containers[c := k.(shell := Interactive(true, k.shell.interrupts + 1))]))
      && ended == s.(containers := s.containers[c := k.(shell := Interactive(false, k.shell.interrupts))])
      && Next(ended, Stop(c, task)).containers == ended.containers
  {
    hide CancelFirst;
    StopIs(s, c, task);
    StopIs(Next(s, ShellExits(c)), c, task);
  }

  /** Opening makes one more session, open and idle, or nothing. */
  lemma {:induction false} OpenMeans(s: State, task: string, interactive: bool, spawns: bool)
    ensures
      var n, t := |s.containers|, Next(s, Open(task, interactive, spawns));
      if !Blank(task) && n < 4 && n !in s.containers && (!interactive || spawns) then
        && t.containers.Keys == s.containers.Keys + {n} && (forall c | c in s.containers :: t.containers[c] == s.containers[c])
        && var k := t.containers[n];
           && k.open && k.task == task && k.phase == Idle && k.queue == [] && k.completed == [] && k.nextIndex == 1
           && k.runningIndex == None && k.accepted == [] && k.shell == if interactive then Interactive(true, 0) else NoShell
      else t == s
  {
    hide Blank, Next;
    OpenPuts(s, task, interactive, spawns);
  }

  lemma {:induction false} OpenPuts(s: State, task: string, interactive: bool, spawns: bool)
    ensures
      var n := |s.containers|;
      Next(s, Open(task, interactive, spawns)) ==
        if !Blank(task) && n < 4 && n !in s.containers && (!interactive || spawns)
        then s.(containers := s.containers[n := NewContainer(task, interactive)]) else s
  {
    hide Blank, NewContainer;
  }

  // ---- Runs ----------------------------------------------------------------------------------------

  ghost predicate Inv(s: State) {
    && AllTidy(s) && Approved(s.log) && TokensSound(s) && AcceptedSound(s)
    && (forall key: string {:trigger SingleUse(s, key)} :: SingleUse(s, key))
    && (forall c: nat {:trigger InOrder(s, c)} :: InOrder(s, c))
  }

  lemma {:induction false} NextKeeps(s: State, e: Event)
    requires Inv(s)
    ensures Inv(Next(s, e))
  {
    hide Next, AllTidy, Approved, TokensSound, AcceptedSound, SingleUse, InOrder;
    NextKeepsTidy(s, e);
    NextKeepsApproved(s, e);
    NextKeepsTokensSound(s, e);
    NextKeepsAccepted(s, e);
    forall key: string ensures SingleUse(Next(s, e), key) {
      NextKeepsSingleUse(s, e, key);
    }
    forall c: nat ensures InOrder(Next(s, e), c) {
      NextKeepsInOrder(s, e, c);
    }
  }

  lemma {:induction false} RunKeeps(window: nat, es: seq<Event>)
    requires window >= 1
    ensures Inv(Run(Fresh(window), es))
  {
    hide Next, AllTidy, Approved, TokensSound, AcceptedSound, SingleUse, InOrder;
    if es == [] {
      FreshHolds(window);
    } else {
      RunKeeps(window, es[..|es| - 1]);
      NextKeeps(Run(Fresh(window), es[..|es| - 1]), es[|es| - 1]);
    }
  }

  lemma {:induction false} FreshHolds(window: nat)
    requires window >= 1
    ensures Inv(Fresh(window))
  {
  }

  /**
   * In every run, what was started was approved just before, for that exec: by a fresh
   * evaluation, or by an approving token that had been staged, at most a minute old. The token had been
   * staged for exactly that text if and only if its own text is not over the length limit.
   */
  lemma {:induction false} EveryStartWasApproved(window: nat, es: seq<Event>, i: nat)
    requires window >= 1
    requires var log := Run(Fresh(window), es).log; i < |log| && log[i].Started?
    ensures var s := Run(Fresh(window), es);
      && i > 0 && s.log[i - 1].Decision?
      && var d := s.log[i - 1];
         d.approved && d.container == s.log[i].container && d.job == s.log[i].job && d.index == s.log[i].index
         && (d.why.ByToken? ==>
               d.why.token in s.staged && d.why.token.approved && d.why.at - d.why.token.issuedAt <= 60_000
               && (d.why.token.command == d.job.command <==> |d.why.token.command| <= 4096))
  {
    hide Run, Next, AllTidy, SingleUse;
    RunKeeps(window, es);
    var s := Run(Fresh(window), es);
    var d := s.log[i - 1];
    assert d in s.log;
    DecidedAreListed(s.log, d);
    var c := d.container;
    assert InOrder(s, c);
    if c in s.containers {
      assert d.job in s.containers[c].accepted;
    }
    if d.why.ByToken? {
      TokenIsForThisTextIff(d.why.token, d.job.command);
    }
  }

  lemma {:induction false} DecidedAreListed(log: seq<Audit>, a: Audit)
    requires a in log && a.Decision?
    ensures a.job in DecidedJobs(log, a.container)
  {
    var init, last := log[..|log| - 1], log[|log| - 1];
    assert log == init + [last];
    if a != last {
      DecidedAreListed(init, a);
    }
  }

  /** In every run, tokens decide execs of a command at most as often as they were staged under its text. */
  lemma {:induction false} TokensAreSingleUse(window: nat, es: seq<Event>, command: string)
    requires window >= 1 && |command| <= MAX_COMMAND_CHARS
    ensures var s := Run(Fresh(window), es);
      Uses(s.log, command) + (if command in s.tokens then 1 else 0) <= Stagings(s.staged, command)
    ensures var s := Run(Fresh(window), es);
      (forall t | t in s.staged :: |t.command| <= MAX_COMMAND_CHARS) ==>
        Stagings(s.staged, command) == multiset(Commands(s.staged))[command]
  {
    hide Run, Next;
    RunKeeps(window, es);
    var s := Run(Fresh(window), es);
    assert SingleUse(s, command);
    if forall t | t in s.staged :: |t.command| <= MAX_COMMAND_CHARS {
      StagingsCount(s.staged, command);
    }
  }

  function Commands(staged: seq<Token>): seq<string> {
    if staged == [] then [] else Commands(staged[..|staged| - 1]) + [staged[|staged| - 1].command]
  }

  lemma {:induction false} StagingsCount(staged: seq<Token>, command: string)
    requires forall t | t in staged :: |t.command| <= MAX_COMMAND_CHARS
    ensures Stagings(staged, command) == multiset(Commands(staged))[command]
  {
    if staged != [] {
      var init, t := staged[..|staged| - 1], staged[|staged| - 1];
      assert staged == init + [t];
      StagingsCount(init, command);
    }
  }

  /**
   * In every run and for every session: at most one command runs, its index is the next one, the
   * history is the last indices before it without a gap, and the execs decided so far followed
   * by those still waiting are the accepted ones, each once, in the order of acceptance.
   */
  lemma {:induction false} OneAtATimeInOrder(window: nat, es: seq<Event>, c: nat)
    requires window >= 1 && c in Run(Fresh(window), es).containers
    ensures var s := Run(Fresh(window), es); var k := s.containers[c];
      && (k.phase.Running? <==> k.runningIndex.Some?) && (k.runningIndex.Some? ==> k.runningIndex.value == k.nextIndex)
      && |k.completed| == Min(window, k.nextIndex - 1)
      && (forall i | 0 <= i < |k.completed| :: k.completed[i].index == k.nextIndex - |k.completed| + i)
      && DecidedJobs(s.log, c) + Pending(k) == k.accepted && Increasing(k.accepted)
  {
    hide Run, Next, Approved, TokensSound, SingleUse;
    RunKeeps(window, es);
    RunWindow(window, es);
    assert InOrder(Run(Fresh(window), es), c);
  }

  lemma {:induction false} RunWindow(window: nat, es: seq<Event>)
    requires window >= 1
    ensures Run(Fresh(window), es).window == window
  {
    hide Next, AllTidy, Approved, TokensSound, AcceptedSound, SingleUse, InOrder;
    if es != [] {
      RunWindow(window, es[..|es| - 1]);
      RunKeeps(window, es[..|es| - 1]);
      NextKeepsTidy(Run(Fresh(window), es[..|es| - 1]), es[|es| - 1]);
    }
  }

  // ---- Closing -----------------------------------------------------------------------------------

  /** A closed session stays closed and accepts nothing more, whatever happens. */
  lemma {:induction false} ClosedTakesNothing(s: State, es: seq<Event>, c: nat)
    requires c in s.containers && !s.containers[c].open
    ensures c in Run(s, es).containers
    ensures var k := Run(s, es).containers[c]; !k.open && k.accepted == s.containers[c].accepted
  {
    hide Next, Entries, Pending, DecidedJobs;
    if es != [] {
      var t, e := Run(s, es[..|es| - 1]), es[|es| - 1];
      ClosedTakesNothing(s, es[..|es| - 1], c);
      AnyLine(t, e, c);
    }
  }

  /** What was queued before the close can still run after it. */
  lemma {:induction false} QueuedRunsAfterClose(s: State, c: nat, task: string, now: int)
    requires OwnedSession(s, c, task) == Ok && s.containers[c].phase.Idle? && s.containers[c].queue != []
    requires TokenKey(s.containers[c].queue[0].command) !in s.tokens
    ensures var t := Next(Next(Next(s, Close(c, task)), Begin(c, now, true)), Evaluated(c, true, true));
      && c in t.containers && !t.containers[c].open
      && t.containers[c].phase.Running? && t.containers[c].phase.job == s.containers[c].queue[0]
  {
    hide TokenKey, CancelAll;
    OwnedMeans(s, c, task);
    var s1 := Next(s, Close(c, task));
    assert CanBegin(s1, c);
    var s2 := Next(s1, Begin(c, now, true));
    assert s2.containers[c].phase == Evaluating(s.containers[c].queue[0], s.containers[c].nextIndex);
  }

  /**
   * Closing a session cancels no process but its own exactly when it runs nothing, or every
   * other tracked process is over or already cancelled.
   */
  lemma {:induction false} CloseSparesOthersIff(s: State, c: nat, task: string)
    requires OwnedSession(s, c, task) == Ok
    ensures var t, k := Next(s, Close(c, task)), s.containers[c];
      |t.sessions| == |s.sessions| &&
      ((forall i | 0 <= i < |s.sessions| :: t.sessions[i] == s.sessions[i] || (k.phase.Running? && s.sessions[i].id == k.phase.session))
       <==> k.runningIndex == None ||
            forall i | 0 <= i < |s.sessions| ::
              s.sessions[i].finished || s.sessions[i].cancelled || (k.phase.Running? && s.sessions[i].id == k.phase.session))
  {
    OwnedMeans(s, c, task);
    var t, k := Next(s, Close(c, task)), s.containers[c];
    if k.runningIndex.Some? {
      assert t.sessions == CancelAll(s.sessions);
      forall i | 0 <= i < |s.sessions|
        ensures t.sessions[i] == s.sessions[i] <==> s.sessions[i].finished || s.sessions[i].cancelled
      {
      }
    }
  }

  /** Process `x` is the one an exec of the task's sessions runs in. */
  predicate IsTasks(s: State, task: string, x: Tracked) {
    exists c :: c in OwnedBy(s, task) && IsOwn(s.containers[c], x)
  }

  /**
   * Cancelling a task ends its sessions and leaves the sessions of other tasks as they are. It
   * changes no process but those of its own exactly when none of its sessions runs a command, or
   * every other tracked process is over or already cancelled.
   */
  lemma {:induction false} CancelTaskSparesOthersIff(s: State, task: string)
    ensures var t := Next(s, CancelTask(task));
      && t.containers.Keys == s.containers.Keys
      && (forall c | c in OwnedBy(s, task) :: !t.containers[c].open && t.containers[c].shell == NoShell)
      && (forall c | c in s.containers && s.containers[c].task != task :: t.containers[c] == s.containers[c])
      && |t.sessions| == |s.sessions|
      && ((forall i | 0 <= i < |s.sessions| :: t.sessions[i] == s.sessions[i] || IsTasks(s, task, s.sessions[i])) <==>
           !RunsAny(s, task) ||
           forall x | x in s.sessions :: x.finished || x.cancelled || IsTasks(s, task, x))
  {
    hide RunsAny, IsTasks;
    var t := Next(s, CancelTask(task));
    if RunsAny(s, task) {
      assert t.sessions == CancelAll(s.sessions);
      forall i | 0 <= i < |s.sessions|
        ensures t.sessions[i] == s.sessions[i] <==> s.sessions[i].finished || s.sessions[i].cancelled
      {
      }
    }
  }

  /** Stopping a command cancels the first live process of the table, and nothing else. */
  lemma {:induction false} StopCancelsFirstLive(ss: seq<Tracked>, i: nat)
    requires i < |ss| && !ss[i].finished && forall j | 0 <= j < i :: ss[j].finished
    ensures CancelFirst(ss) == ss[i := ss[i].(cancelled := true)]
  {
    if i > 0 {
      StopCancelsFirstLive(ss[1..], i - 1);
    }
  }

  lemma {:induction false} NothingLive(ss: seq<Tracked>)
    requires forall x | x in ss :: x.finished
    ensures CancelFirst(ss) == ss
  {
    if ss != [] {
      NothingLive(ss[1..]);
    }
  }

  lemma {:induction false} StopIs(s: State, c: nat, task: string)
    ensures var owned := task != "" && c in s.containers && s.containers[c].task == task;
      && (OwnedSession(s, c, task) == Ok <==> owned)
      && Next(s, Stop(c, task)) ==
        if !owned then s
        else if TakesCtrlC(s.containers[c]) then
          Put(s, c, s.containers[c].(shell := Interactive(true, s.containers[c].shell.interrupts + 1)))
        else if s.containers[c].runningIndex.Some? then s.(sessions := CancelFirst(s.sessions))
        else s
  {
    OwnedMeans(s, c, task);
  }

  /** The process at `i` is the one an exec of the session runs in. */
  predicate IsOwn(k: Container, x: Tracked) { k.phase.Running? && x.id == k.phase.session }

  ghost predicate FirstLive(ss: seq<Tracked>, i: nat) {
    i < |ss| && !ss[i].finished && forall j | 0 <= j < i :: ss[j].finished
  }

  /**
   * Stopping a session's command changes no process but its own exactly when its shell takes
   * the interrupt, or nothing of it runs, or the first live process of the table is its own or
   * already cancelled.
   */
  lemma {:induction false} StopSparesOthersIff(s: State, c: nat, task: string)
    requires OwnedSession(s, c, task) == Ok
    ensures var t, k := Next(s, Stop(c, task)), s.containers[c];
      |t.sessions| == |s.sessions| &&
      ((forall i | 0 <= i < |s.sessions| :: t.sessions[i] == s.sessions[i] || IsOwn(k, s.sessions[i])) <==>
        TakesCtrlC(k) || k.runningIndex == None ||
        forall i: nat | FirstLive(s.sessions, i) :: IsOwn(k, s.sessions[i]) || s.sessions[i].cancelled)
  {
    hide Next, CancelFirst, OwnedSession;
    StopIs(s, c, task);
    var k, ss := s.containers[c], s.sessions;
    if !TakesCtrlC(k) && k.runningIndex.Some? {
      if i: nat :| FirstLive(ss, i) {
        StopCancelsFirstLive(ss, i);
        assert forall j: nat | FirstLive(ss, j) :: j == i;
      } else {
        NoFirstLive(ss);
        NothingLive(ss);
      }
    }
  }

  lemma {:induction false} NoFirstLive(ss: seq<Tracked>)
    requires forall i: nat :: !FirstLive(ss, i)
    ensures forall x | x in ss :: x.finished
  {
    for n := 0 to |ss|
      invariant forall j | 0 <= j < n :: ss[j].finished
    {
      assert !FirstLive(ss, n);
    }
  }

  lemma {:induction false} CloseIs(s: State, c: nat, task: string)
    ensures var owned := task != "" && c in s.containers && s.containers[c].task == task;
      && (OwnedSession(s, c, task) == Ok <==> owned)
      && Next(s, Close(c, task)) ==
        if !owned then s
        else s.(containers := s.containers[c := Ended(s.containers[c])],
                sessions := if s.containers[c].runningIndex.Some? then CancelAll(s.sessions) else s.sessions)
  {
    OwnedMeans(s, c, task);
  }

  // ---- The session limit --------------------------------------------------------------------------

  /** The table is sound: identifiers are distinct, and the eviction order names tracked sessions once each. */
  ghost predicate TableSound(t: Table) {
    && Unique(t.sessions) && Distinct(t.order)
    && (forall id | id in t.order :: Names(t.sessions, id))
  }

  ghost predicate Names(ss: seq<Tracked>, id: nat) { exists i :: 0 <= i < |ss| && ss[i].id == id }

  ghost predicate Unique(ss: seq<Tracked>) {
    forall i, j | 0 <= i < j < |ss| :: ss[i].id != ss[j].id
  }

  lemma {:induction false} NamesTail(ss: seq<Tracked>, id: nat)
    requires ss != []
    ensures Names(ss, id) <==> ss[0].id == id || Names(ss[1..], id)
  {
    if i :| 0 <= i < |ss| && ss[i].id == id {
      if i > 0 {
        assert ss[1..][i - 1].id == id;
      }
    }
    if i :| 0 <= i < |ss[1..]| && ss[1..][i].id == id {
      assert ss[i + 1].id == id;
    }
  }

  lemma {:induction false} UniqueTail(ss: seq<Tracked>)
    requires ss != []
    ensures Unique(ss) <==> Unique(ss[1..]) && !Names(ss[1..], ss[0].id)
  {
    var tail := ss[1..];
    assert forall i | 0 <= i < |tail| :: tail[i] == ss[i + 1];
    if Unique(tail) && !Names(tail, ss[0].id) {
      forall i, j | 0 <= i < j < |ss| ensures ss[i].id != ss[j].id {
        assert ss[j] == tail[j - 1];
        assert i > 0 ==> ss[i] == tail[i - 1];
      }
    }
  }

  lemma {:induction false} WithoutNames(ss: seq<Tracked>, id: nat, other: nat)
    ensures Names(Without(ss, id), other) <==> Names(ss, other) && other != id
  {
    if ss != [] {
      WithoutNames(ss[1..], id, other);
      NamesTail(ss, other);
      if ss[0].id != id {
        NamesTail([ss[0]] + Without(ss[1..], id), other);
        assert ([ss[0]] + Without(ss[1..], id))[1..] == Without(ss[1..], id);
      }
    }
  }

  lemma {:induction false} WithoutUnique(ss: seq<Tracked>, id: nat)
    requires Unique(ss)
    ensures Unique(Without(ss, id)) && |Without(ss, id)| == |ss| - if Names(ss, id) then 1 else 0
  {
    hide Unique, Names;
    if ss == [] {
      assert Unique([]) by { NothingIsUnique(id); }
      NothingIsUnique(id);
    } else {
      var rest := Without(ss[1..], id);
      UniqueTail(ss);
      NamesTail(ss, id);
      WithoutUnique(ss[1..], id);
      if ss[0].id != id {
        var r := [ss[0]] + rest;
        assert Without(ss, id) == r && r[1..] == rest && r[0] == ss[0];
        WithoutNames(ss[1..], id, ss[0].id);
        UniqueTail(r);
      } else {
        assert Without(ss, id) == [] + rest == rest;
      }
    }
  }

  lemma {:induction false} NothingIsUnique(id: nat)
    ensures Unique([]) && !Names([], id)
  {
  }

  lemma {:induction false} DropFirst(t: Table)
    requires TableSound(t) && t.order != []
    ensures TableSound(Table(Without(t.sessions, t.order[0]), t.order[1..]))
    ensures |Without(t.sessions, t.order[0])| == |t.sessions| - 1
  {
    var id, rest := t.order[0], t.order[1..];
    WithoutUnique(t.sessions, id);
    assert t.order == [id] + rest && id in t.order;
    forall other | other in rest ensures Names(Without(t.sessions, id), other) {
      var i :| 0 <= i < |rest| && rest[i] == other;
      assert t.order[i + 1] == other && t.order[0] == id;
      WithoutNames(t.sessions, id, other);
    }
    assert Distinct(rest);
  }

  /** A sound table holds at least as many sessions as its eviction order names. */
  lemma {:induction false} OrderBound(t: Table)
    requires TableSound(t)
    ensures |t.sessions| >= |t.order|
    decreases |t.order|
  {
    if t.order != [] {
      DropFirst(t);
      OrderBound(Table(Without(t.sessions, t.order[0]), t.order[1..]));
    }
  }

  /** Eviction keeps the table sound and never leaves fewer than the finished sessions it retains. */
  lemma {:induction false} EvictedKeeps(t: Table)
    requires TableSound(t)
    ensures TableSound(Evicted(t)) && |Evicted(t).sessions| >= Min(|t.sessions|, MAX_FINISHED_SESSIONS)
    decreases |t.order|
  {
    if |t.order| > MAX_FINISHED_SESSIONS {
      var u := Table(Without(t.sessions, t.order[0]), t.order[1..]);
      DropFirst(t);
      OrderBound(u);
      EvictedKeeps(u);
    }
  }

  lemma {:induction false} NotedKeeps(all: seq<Tracked>, ss: seq<Tracked>, order: seq<nat>)
    requires ss <= all && Distinct(order) && forall id | id in order :: Names(all, id)
    ensures Distinct(Noted(ss, order)) && forall id | id in Noted(ss, order) :: Names(all, id)
  {
    if ss != [] {
      var init, x := ss[..|ss| - 1], ss[|ss| - 1];
      NotedKeeps(all, init, order);
      assert all[|ss| - 1] == x;
    }
  }

  /** The eviction order names sessions that are over. */
  ghost predicate OnlyFinished(ss: seq<Tracked>, order: seq<nat>) {
    forall x | x in ss && x.id in order :: x.finished
  }

  ghost predicate SessionsSound(s: State) {
    && TableSound(Table(s.sessions, s.finishedOrder)) && (forall i | 0 <= i < |s.sessions| :: s.sessions[i].id < s.nextSession)
    && OnlyFinished(s.sessions, s.finishedOrder)
  }

  /** Evicted are the sessions first in the order, as many as it has beyond twenty. */
  lemma {:induction false} EvictedIs(t: Table)
    ensures
      var k := Max(0, |t.order| - 20);
      && Evicted(t).order == t.order[k..]
      && forall x :: x in Evicted(t).sessions <==> x in t.sessions && x.id !in t.order[..k]
    decreases |t.order|
  {
    if |t.order| > 20 {
      var u, k := Table(Without(t.sessions, t.order[0]), t.order[1..]), |t.order| - 20;
      EvictedIs(u);
      assert t.order[..k] == [t.order[0]] + u.order[..k - 1] && u.order[k - 1..] == t.order[k..];
    }
  }

  /** Sessions that are over are put at the end of the order, once each. */
  lemma {:induction false} NotedMeans(ss: seq<Tracked>, order: seq<nat>)
    ensures order <= Noted(ss, order)
    ensures forall x | x in ss && x.finished :: x.id in Noted(ss, order)
    ensures forall id | id in Noted(ss, order) :: id in order || exists x :: x in ss && x.finished && x.id == id
  {
    if ss != [] {
      var init, x := ss[..|ss| - 1], ss[|ss| - 1];
      assert ss == init + [x];
      NotedMeans(init, order);
    }
  }

  /**
   * Pruning never drops a session whose process is not over, keeps at most twenty that are, and
   * of these drops the ones that were noted first.
   */
  lemma {:induction false} PruneSparesLive(s: State)
    requires SessionsSound(s)
    ensures
      var t, order := Pruned(s), Noted(s.sessions, s.finishedOrder);
      && (forall x | x in s.sessions && !x.finished :: x in t.sessions)
      && (forall x | x in t.sessions :: x in s.sessions && (x.finished ==> x.id in t.finishedOrder))
      && s.finishedOrder <= order && t.finishedOrder == order[Max(0, |order| - 20)..]
      && (forall x | x in s.sessions :: x in t.sessions <==> x.id !in order[..Max(0, |order| - 20)])
      && OnlyFinished(t.sessions, t.finishedOrder)
  {
    hide Noted, Evicted, Names, TableSound;
    var order := Noted(s.sessions, s.finishedOrder);
    var k := Max(0, |order| - 20);
    EvictedIs(Table(s.sessions, order));
    NotedMeans(s.sessions, s.finishedOrder);
    assert order == order[..k] + order[k..];
    forall x | x in s.sessions && x.id in order ensures x.finished {
      OneOfEach(s, x);
    }
  }

  lemma {:induction false} OneOfEach(s: State, x: Tracked)
    requires SessionsSound(s) && x in s.sessions
    ensures forall y | y in s.sessions && y.id == x.id :: y == x
  {
  }

  /** A tracked process that is not over stays tracked, whatever happens. */
  lemma {:induction false} LiveStaysTracked(window: nat, es: seq<Event>, e: Event, x: Tracked)
    requires var s := Run(Fresh(window), es); x in s.sessions && !x.finished
    ensures var t := Next(Run(Fresh(window), es), e); exists y :: y in t.sessions && y.id == x.id
  {
    hide Next, Run, Pruned, SessionsSound;
    FreshSessions(window);
    RunKeepsSessions(Fresh(window), es);
    var s, t := Run(Fresh(window), es), Next(Run(Fresh(window), es), e);
    NextTable(s, e);
    PruneSparesLive(s);
    var i :| 0 <= i < |s.sessions| && s.sessions[i] == x;
    if t.finishedOrder == s.finishedOrder && SameIds(s.sessions, t.sessions) {
      assert t.sessions[i] in t.sessions;
    } else {
      assert x in t.sessions;
    }
  }

  lemma {:induction false} PruneKeeps(s: State)
    requires SessionsSound(s)
    ensures SessionsSound(Pruned(s)) && Pruned(s).nextSession == s.nextSession
    ensures |Pruned(s).sessions| >= Min(|s.sessions|, MAX_FINISHED_SESSIONS)
  {
    PruneSparesLive(s);
    hide Noted, Evicted, Names, OnlyFinished;
    NotedKeeps(s.sessions, s.sessions, s.finishedOrder);
    var t := Table(s.sessions, Noted(s.sessions, s.finishedOrder));
    EvictedKeeps(t);
    EvictedFrom(t);
    forall i | 0 <= i < |Pruned(s).sessions| ensures Pruned(s).sessions[i].id < s.nextSession {
      assert Pruned(s).sessions[i] in s.sessions;
    }
  }

  lemma {:induction false} EvictedFrom(t: Table)
    ensures forall x | x in Evicted(t).sessions :: x in t.sessions
    decreases |t.order|
  {
    if |t.order| > MAX_FINISHED_SESSIONS {
      EvictedFrom(Table(Without(t.sessions, t.order[0]), t.order[1..]));
    }
  }

  /** Changing flags of sessions, in place; what is over stays over. */
  ghost predicate SameIds(ss: seq<Tracked>, tt: seq<Tracked>) {
    |ss| == |tt| && forall i | 0 <= i < |ss| :: ss[i].id == tt[i].id && (ss[i].finished ==> tt[i].finished)
  }

  lemma {:induction false} SameIdsSound(ss: seq<Tracked>, tt: seq<Tracked>, order: seq<nat>)
    requires TableSound(Table(ss, order)) && SameIds(ss, tt)
    ensures TableSound(Table(tt, order))
    ensures OnlyFinished(ss, order) ==> OnlyFinished(tt, order)
  {
    forall id | id in order ensures Names(tt, id) {
      assert Names(ss, id);
      var i :| 0 <= i < |ss| && ss[i].id == id;
      assert tt[i].id == id;
    }
  }

  lemma {:induction false} CancelFirstSameIds(ss: seq<Tracked>)
    ensures SameIds(ss, CancelFirst(ss))
  {
    if ss != [] && ss[0].finished {
      CancelFirstSameIds(ss[1..]);
    }
  }

  lemma {:induction false} AddedSound(ss: seq<Tracked>, order: seq<nat>, x: Tracked)
    requires TableSound(Table(ss, order)) && forall i | 0 <= i < |ss| :: ss[i].id < x.id
    ensures TableSound(Table(ss + [x], order))
    ensures OnlyFinished(ss, order) ==> OnlyFinished(ss + [x], order)
  {
    forall id | id in order ensures Names(ss + [x], id) {
      assert Names(ss, id);
      var i :| 0 <= i < |ss| && ss[i].id == id;
      assert (ss + [x])[i].id == id;
    }
  }

  /** How one step changes the session table: flags, one new session, or a pruning. */
  ghost predicate TableStep(s: State, t: State) {
    || (t.finishedOrder == s.finishedOrder && t.nextSession == s.nextSession && SameIds(s.sessions, t.sessions))
    || (t.finishedOrder == s.finishedOrder && t.nextSession == s.nextSession + 1
        && t.sessions == s.sessions + [Tracked(s.nextSession, false, false)])
    || (t.finishedOrder == Pruned(s).finishedOrder && t.nextSession == s.nextSession && t.sessions == Pruned(s).sessions)
  }

  lemma {:induction false} DecidedTable(s: State, c: nat, job: Job, index: nat, approved: bool, why: Why, spawns: bool)
    requires c in s.containers
    ensures TableStep(s, Decided(s, c, job, index, approved, why, spawns))
  {
    hide Pruned;
  }

  lemma {:induction false} NextTable(s: State, e: Event)
    ensures TableStep(s, Next(s, e))
  {
    hide *;
    match e
    case Begin(c, now, spawns) => BeginTable(s, e);
    case Evaluated(c, approved, spawns) => EvaluatedTable(s, e);
    case Finish(c) => FinishTable(s, c);
    case _ => OtherTable(s, e);
  }

  lemma {:induction false} BeginTable(s: State, e: Event)
    requires e.Begin?
    ensures TableStep(s, Next(s, e))
  {
    hide Decided, DecisionEntries, TokenKey, Expired, Next, Entries, Pruned;
    BeginIs(s, e);
    if CanBegin(s, e.container) {
      var k := s.containers[e.container];
      var own := TokenKey(k.queue[0].command);
      var s1 := Put(s.(tokens := s.tokens - {own}), e.container, k.(queue := k.queue[1..]));
      if own in s.tokens && !Expired(s.tokens[own], e.now) {
        DecidedTable(s1, e.container, k.queue[0], k.nextIndex, s.tokens[own].approved, ByToken(s.tokens[own], e.now), e.spawns);
        PrunedSame(s, s1);
      }
    }
  }

  lemma {:induction false} PrunedSame(s: State, t: State)
    requires t.sessions == s.sessions && t.finishedOrder == s.finishedOrder
    ensures Pruned(t).sessions == Pruned(s).sessions && Pruned(t).finishedOrder == Pruned(s).finishedOrder
  {
    hide Evicted, Noted;
  }

  lemma {:induction false} EvaluatedTable(s: State, e: Event)
    requires e.Evaluated?
    ensures TableStep(s, Next(s, e))
  {
    hide Decided, DecisionEntries, Next, Entries, Pruned;
    EvaluatedIs(s, e);
    if e.container in s.containers && s.containers[e.container].phase.Evaluating? {
      var p := s.containers[e.container].phase;
      DecidedTable(s, e.container, p.job, p.index, e.approved, ByEvaluation, e.spawns);
    }
  }

  lemma {:induction false} FinishTable(s: State, c: nat)
    ensures TableStep(s, Next(s, Finish(c)))
  {
    hide CanFinish, Evicted, Noted, Window;
    if CanFinish(s, c) {
      CanFinishMeans(s, c);
    }
  }

  lemma {:induction false} OtherTable(s: State, e: Event)
    requires !e.Begin? && !e.Evaluated? && !e.Finish?
    ensures TableStep(s, Next(s, e))
  {
    hide Evicted, Noted, CancelFirst, Admit, OwnedSession, Blank, Unexpired, OwnedBy, RunsAny;
    match e
    case Submit(c, task, command) => AdmitMeans(s, c, task, command);
    case Stop(c, task) =>
      CancelFirstSameIds(s.sessions);
      OwnedMeans(s, c, task);
    case Close(c, task) => OwnedMeans(s, c, task);
    case _ =>
  }

  lemma {:induction false} NextKeepsSessions(s: State, e: Event)
    requires SessionsSound(s)
    ensures SessionsSound(Next(s, e)) && |Next(s, e).sessions| >= Min(|s.sessions|, MAX_FINISHED_SESSIONS)
  {
    hide Next, Pruned, TableSound, OnlyFinished;
    NextTable(s, e);
    PruneKeeps(s);
    var t := Next(s, e);
    if t.finishedOrder == s.finishedOrder && t.nextSession == s.nextSession && SameIds(s.sessions, t.sessions) {
      SameIdsSound(s.sessions, t.sessions, s.finishedOrder);
    } else if t.nextSession == s.nextSession + 1 {
      AddedSound(s.sessions, s.finishedOrder, Tracked(s.nextSession, false, false));
    }
  }

  lemma {:induction false} RunKeepsSessions(s: State, es: seq<Event>)
    requires SessionsSound(s)
    ensures SessionsSound(Run(s, es)) && |Run(s, es).sessions| >= Min(|s.sessions|, MAX_FINISHED_SESSIONS)
  {
    hide Next, SessionsSound;
    if es != [] {
      RunKeepsSessions(s, es[..|es| - 1]);
      NextKeepsSessions(Run(s, es[..|es| - 1]), es[|es| - 1]);
    }
  }

  /**
   * The limit on concurrent sessions counts finished ones, and only those beyond twenty finished
   * ones are ever dropped: once a run has reached the limit, no session accepts another exec,
   * however many processes have ended since.
   */
  lemma {:induction false} SaturatedForever(window: nat, es: seq<Event>, later: seq<Event>, c: nat, task: string, command: string)
    requires |Run(Fresh(window), es).sessions| >= 8
    ensures Admit(Run(Run(Fresh(window), es), later), c, task, command) != Ok
  {
    hide Run, SessionsSound;
    FreshSessions(window);
    RunKeepsSessions(Fresh(window), es);
    RunKeepsSessions(Run(Fresh(window), es), later);
    AdmitMeans(Run(Run(Fresh(window), es), later), c, task, command);
  }

  lemma {:induction false} FreshSessions(window: nat)
    ensures SessionsSound(Fresh(window))
  {
  }

  /** Sessions are never forgotten either: after four of them no further one is opened. */
  lemma {:induction false} FourSessionsEver(s: State, es: seq<Event>, task: string)
    requires |s.containers| >= 4
    ensures s.containers.Keys <= Run(s, es).containers.Keys && (forall interactive, spawns :: Next(Run(s, es), Open(task, interactive, spawns)) == Run(s, es))
  {
    hide Next, LineStep;
    if es == [] {
      NoMoreOpen(s, task);
    } else {
      var t := Run(s, es[..|es| - 1]);
      FourSessionsEver(s, es[..|es| - 1], task);
      forall c | c in t.containers ensures c in Next(t, es[|es| - 1]).containers {
        AnyLine(t, es[|es| - 1], c);
        LineStays(t, es[|es| - 1], c);
      }
      SubsetCard(s.containers.Keys, Run(s, es).containers.Keys);
      NoMoreOpen(Run(s, es), task);
    }
  }

  lemma {:induction false} NoMoreOpen(s: State, task: string)
    requires |s.containers| >= MAX_AGENT_SESSIONS
    ensures forall interactive, spawns :: Next(s, Open(task, interactive, spawns)) == s
  {
  }

  lemma {:induction false} LineStays(s: State, e: Event, c: nat)
    requires LineStep(s, e, c)
    ensures c in Next(s, e).containers
  {
  }
}
