/** Runs of the terminal session manager that end where a reader would not expect them to. */
module TerminalRuns {
  import opened Prelude
  import opened TerminalSessions

  lemma {:induction false} RunSnoc(s: State, es: seq<Event>, e: Event)
    ensures Run(s, es + [e]) == Next(Run(s, es), e)
  {
    hide Next;
    assert (es + [e])[..|es|] == es;
  }

  lemma {:induction false} RunTwo(s: State, es: seq<Event>, d: Event, e: Event)
    ensures Run(s, es + [d, e]) == Next(Next(Run(s, es), d), e)
  {
    hide Next, Run;
    RunSnoc(s, es, d);
    RunSnoc(s, es + [d], e);
    assert es + [d, e] == es + [d] + [e];
  }

  lemma {:induction false} NotBlank(s: string)
    requires s != "" && !IsSpace(s[0])
    ensures !Blank(s)
  {
    assert s[0] in s;
  }

  // ---- One exec ---------------------------------------------------------------------------------

  /** The session is open and idle, nothing is queued or staged, and the table has room. */
  ghost predicate Ready(s: State, c: nat, task: string) {
    && c in s.containers && s.containers[c].open && s.containers[c].task == task != ""
    && s.containers[c].phase.Idle? && s.containers[c].queue == [] && s.tokens == map[] && |s.sessions| < MAX_SESSIONS
  }

  function ExecEvents(c: nat, task: string): seq<Event> {
    [Submit(c, task, "ls"), Begin(c, 0, true), Evaluated(c, true, true)]
  }

  /** What the three events of an approved exec leave. */
  ghost predicate Execs(s: State, c: nat, t: State) {
    && c in s.containers && t.containers.Keys == s.containers.Keys
    && (forall d | d in s.containers && d != c :: t.containers[d] == s.containers[d])
    && t.containers[c].open == s.containers[c].open && t.containers[c].task == s.containers[c].task
    && t.containers[c].queue == [] && t.containers[c].shell == s.containers[c].shell
    && t.containers[c].runningIndex.Some?
    && t.containers[c].phase == Running(Job(s.nextJob, "ls"), s.containers[c].nextIndex, s.nextSession)
    && t.sessions == s.sessions + [Tracked(s.nextSession, false, false)]
    && t.finishedOrder == s.finishedOrder && t.tokens == map[] && t.nextSession == s.nextSession + 1
  }

  lemma {:induction false} Submitted(s: State, c: nat, task: string)
    requires Ready(s, c, task)
    ensures var k, job := s.containers[c], Job(s.nextJob, "ls");
      Next(s, Submit(c, task, "ls")) ==
        Put(s, c, k.(queue := [job], accepted := k.accepted + [job])).(nextJob := s.nextJob + 1)
  {
    NotBlank("ls");
    AdmitMeans(s, c, task, "ls");
    assert s.containers[c].queue + [Job(s.nextJob, "ls")] == [Job(s.nextJob, "ls")];
  }

  lemma {:induction false} Begun(s: State, c: nat, job: Job)
    requires c in s.containers && s.containers[c].phase.Idle? && s.containers[c].queue == [job] && s.tokens == map[]
    ensures Next(s, Begin(c, 0, true)) ==
      Put(s, c, s.containers[c].(queue := [], phase := Evaluating(job, s.containers[c].nextIndex)))
  {
    hide TokenKey;
    assert s.containers[c].queue[1..] == [];
    assert s.tokens - {TokenKey(job.command)} == s.tokens;
  }

  lemma {:induction false} Evaluates(s: State, c: nat)
    requires c in s.containers && s.containers[c].phase.Evaluating?
    ensures var p := s.containers[c].phase;
      Next(s, Evaluated(c, true, true)) == Decided(s, c, p.job, p.index, true, ByEvaluation, true)
  {
  }

  lemma {:induction false} ExecRuns(s: State, c: nat, task: string)
    requires Ready(s, c, task)
    ensures Execs(s, c, Run(s, ExecEvents(c, task)))
  {
    hide Next;
    var es := ExecEvents(c, task);
    RunTwo(s, [es[0]], es[1], es[2]);
    RunSnoc(s, [], es[0]);
    assert [es[0]] + [es[1], es[2]] == es && [] + [es[0]] == [es[0]];
    Submitted(s, c, task);
    var s1 := Next(s, es[0]);
    Begun(s1, c, Job(s.nextJob, "ls"));
    var s2 := Next(s1, es[1]);
    Evaluates(s2, c);
  }

  lemma {:induction false} RunAppend(s: State, es: seq<Event>, more: seq<Event>)
    ensures Run(s, es + more) == Run(Run(s, es), more)
    decreases |more|
  {
    hide Next;
    if more == [] {
      assert es + more == es;
    } else {
      var init := more[..|more| - 1];
      RunAppend(s, es, init);
      RunSnoc(s, es + init, more[|more| - 1]);
      RunSnoc(Run(s, es), init, more[|more| - 1]);
      assert es + more == es + init + [more[|more| - 1]] && more == init + [more[|more| - 1]];
    }
  }

  // ---- Opening -----------------------------------------------------------------------------------

  /** Sessions 0 to n-1 and no others, and no process. */
  ghost predicate Opened(s: State, n: nat) {
    && s.sessions == [] && s.finishedOrder == [] && s.tokens == map[] && |s.containers| == n
    && (forall c :: c in s.containers <==> 0 <= c < n)
    && (forall c | c in s.containers ::
          s.containers[c].phase.Idle? && s.containers[c].queue == [] && s.containers[c].shell == NoShell)
  }

  lemma {:induction false} OpenIs(s: State, n: nat, task: string)
    requires n == |s.containers| < MAX_AGENT_SESSIONS && n !in s.containers && !Blank(task)
    ensures Next(s, Open(task, false, false)) == Put(s, n, NewContainer(task, false))
  {
  }

  lemma {:induction false} OpenOne(s: State, n: nat, task: string)
    requires Opened(s, n) && n < MAX_AGENT_SESSIONS && !Blank(task)
    ensures var t := Next(s, Open(task, false, false));
      Opened(t, n + 1) && t.containers[n] == NewContainer(task, false) && t.nextSession == s.nextSession
      && forall c | c in s.containers :: t.containers[c] == s.containers[c]
  {
    hide Next, Blank;
    OpenIs(s, n, task);
    PutNew(s, n, NewContainer(task, false));
  }

  lemma {:induction false} PutNew(s: State, n: nat, k: Container)
    requires Opened(s, n) && k.phase.Idle? && k.queue == [] && k.shell == NoShell
    ensures Opened(Put(s, n, k), n + 1)
  {
    AddKey(s.containers, n, k);
  }

  lemma {:induction false} AddKey<K, V>(m: map<K, V>, k: K, v: V)
    requires k !in m
    ensures |m[k := v]| == |m| + 1
  {
    assert m[k := v].Keys == m.Keys + {k};
    assert |m[k := v]| == |m[k := v].Keys| && |m| == |m.Keys|;
  }

  lemma {:induction false} NothingOpened(window: nat)
    ensures Opened(Fresh(window), 0) && Run(Fresh(window), []) == Fresh(window)
  {
  }

  lemma {:induction false} CloseOne(s: State, n: nat, c: nat, task: string)
    requires Opened(s, n) && c in s.containers && s.containers[c].task == task != "" && s.containers[c].runningIndex == None
    ensures var t := Next(s, Close(c, task));
      Opened(t, n) && !t.containers[c].open && forall d | d in s.containers && d != c :: t.containers[d] == s.containers[d]
  {
    hide Next;
    CloseIs(s, c, task);
    var t := Next(s, Close(c, task));
    assert t.containers.Keys == s.containers.Keys;
    assert |t.containers| == |t.containers.Keys| && |s.containers| == |s.containers.Keys|;
  }

  /** Each of `n` sessions was opened and closed. */
  lemma {:induction false} ClosedReachable(window: nat, n: nat) returns (es: seq<Event>)
    requires n <= MAX_AGENT_SESSIONS
    ensures var s := Run(Fresh(window), es); Opened(s, n) && forall c | c in s.containers :: !s.containers[c].open
  {
    hide Next, Run, Opened;
    if n == 0 {
      es := [];
      NothingOpened(window);
      NoneOpened(Fresh(window));
    } else {
      var before := ClosedReachable(window, n - 1);
      var s := Run(Fresh(window), before);
      NotBlank("t");
      OpenOne(s, n - 1, "t");
      OpenedNames(s, n - 1);
      OpenedNames(Next(s, Open("t", false, false)), n);
      CloseOne(Next(s, Open("t", false, false)), n, n - 1, "t");
      RunTwo(Fresh(window), before, Open("t", false, false), Close(n - 1, "t"));
      es := before + [Open("t", false, false), Close(n - 1, "t")];
      OpenedNames(Run(Fresh(window), es), n);
    }
  }

  lemma {:induction false} OpenedNames(s: State, n: nat)
    requires Opened(s, n)
    ensures forall c :: c in s.containers <==> 0 <= c < n
  {
  }

  lemma {:induction false} NoneOpened(s: State)
    requires Opened(s, 0)
    ensures forall c | c in s.containers :: !s.containers[c].open
  {
  }

  /** There is a run after which no session is open and nothing runs, and still none can be opened. */
  lemma {:induction false} NoneOpenNoneOpens(window: nat) returns (es: seq<Event>)
    ensures var s := Run(Fresh(window), es);
      && s.sessions == [] && (forall c | c in s.containers :: !s.containers[c].open && s.containers[c].phase.Idle?)
      && forall task, interactive, spawns :: Next(s, Open(task, interactive, spawns)) == s
  {
    hide Run;
    es := ClosedReachable(window, MAX_AGENT_SESSIONS);
    var s := Run(Fresh(window), es);
    forall task, interactive, spawns ensures Next(s, Open(task, interactive, spawns)) == s {
      NoMoreOpen(s, task);
    }
  }

  // ---- Two sessions ------------------------------------------------------------------------------

  /** Session 0 runs process 0, session 1 runs process 1. */
  ghost predicate BothRun(s: State) {
    && 0 in s.containers && s.containers[0].task == "t" && s.containers[0].phase.Running?
    && s.containers[0].phase.session == 0 && s.containers[0].runningIndex.Some? && s.containers[0].shell == NoShell
    && 1 in s.containers && s.containers[1].task == "u" && s.containers[1].phase.Running?
    && s.containers[1].phase.session == 1 && s.containers[1].runningIndex.Some? && s.containers[1].shell == NoShell
    && s.sessions == [Tracked(0, false, false), Tracked(1, false, false)]
  }

  lemma {:induction false} TwoOpened(window: nat) returns (es: seq<Event>)
    ensures var s := Run(Fresh(window), es);
      Opened(s, 2) && s.nextSession == 0 && s.containers[0] == NewContainer("t", false)
      && s.containers[1] == NewContainer("u", false)
  {
    hide Next, Run;
    es := [Open("t", false, false), Open("u", false, false)];
    NothingOpened(window);
    RunTwo(Fresh(window), [], es[0], es[1]);
    assert [] + [es[0], es[1]] == es;
    NotBlank("t");
    NotBlank("u");
    OpenOne(Fresh(window), 0, "t");
    OpenOne(Next(Fresh(window), es[0]), 1, "u");
  }

  lemma {:induction false} BothRunReachable(window: nat) returns (es: seq<Event>)
    ensures BothRun(Run(Fresh(window), es))
  {
    hide Run, ExecEvents;
    var two := TwoOpened(window);
    var s := Run(Fresh(window), two);
    ExecRuns(s, 0, "t");
    RunAppend(Fresh(window), two, ExecEvents(0, "t"));
    var s1 := Run(s, ExecEvents(0, "t"));
    ExecRuns(s1, 1, "u");
    RunAppend(Fresh(window), two + ExecEvents(0, "t"), ExecEvents(1, "u"));
    es := two + ExecEvents(0, "t") + ExecEvents(1, "u");
  }

  /** A run in which stopping the command of session 1 cancels the process of session 0, and not its own. */
  lemma {:induction false} StopReachesOther(window: nat) returns (es: seq<Event>)
    ensures var s := Run(Fresh(window), es); var t := Next(s, Stop(1, "u"));
      && BothRun(s) && OwnedSession(s, 1, "u") == Ok
      && t.sessions == [Tracked(0, false, true), Tracked(1, false, false)]
  {
    hide Run, Next, CancelFirst;
    es := BothRunReachable(window);
    var s := Run(Fresh(window), es);
    StopIs(s, 1, "u");
    StopCancelsFirstLive(s.sessions, 0);
  }

  /** A run in which closing session 1 cancels the process of session 0 too, while that stays open. */
  lemma {:induction false} CloseReachesOther(window: nat) returns (es: seq<Event>)
    ensures var s := Run(Fresh(window), es); var t := Next(s, Close(1, "u"));
      && BothRun(s) && OwnedSession(s, 1, "u") == Ok
      && t.sessions == [Tracked(0, false, true), Tracked(1, false, true)]
      && 0 in t.containers && t.containers[0] == s.containers[0]
  {
    hide Run, Next;
    es := BothRunReachable(window);
    CloseIs(Run(Fresh(window), es), 1, "u");
  }

  /** A run in which cancelling the task of session 1 cancels the process of the other task's session too. */
  lemma {:induction false} CancelTaskReachesOther(window: nat) returns (es: seq<Event>)
    ensures var s := Run(Fresh(window), es); var t := Next(s, CancelTask("u"));
      && BothRun(s) && OwnedSession(s, 1, "u") == Ok && 0 !in OwnedBy(s, "u")
      && t.sessions == [Tracked(0, false, true), Tracked(1, false, true)]
      && 0 in t.containers && t.containers[0] == s.containers[0]
  {
    hide Run;
    es := BothRunReachable(window);
    var s := Run(Fresh(window), es);
    assert "t"[0] != "u"[0];
    assert 1 in OwnedBy(s, "u");
    assert RunsAny(s, "u");
  }

  // ---- A token that is too long ------------------------------------------------------------------

  function As(n: nat): (s: string)
    ensures |s| == n && forall i | 0 <= i < n :: s[i] == 'a'
  {
    seq(n, i => 'a')
  }

  /** A run in which a token staged for 4097 characters starts the command that is its first 4096. */
  lemma {:induction false} LongTokenStartsItsPrefix(window: nat) returns (es: seq<Event>)
    ensures var s := Run(Fresh(window), es);
      |s.log| == 2 && s.log[1].Started? && s.log[0].Decision? && s.log[0].why.ByToken?
      && s.staged == [s.log[0].why.token] && s.log[0].why.token.command == As(MAX_COMMAND_CHARS + 1)
      && s.log[1].job.command == As(MAX_COMMAND_CHARS)
  {
    hide Next, Run;
    var long, short := As(MAX_COMMAND_CHARS + 1), As(MAX_COMMAND_CHARS);
    var token := Token(long, true, 0);
    NothingOpened(window);
    NotBlank("t");
    OpenOne(Fresh(window), 0, "t");
    var s1 := Next(Fresh(window), Open("t", false, false));
    OpenKeepsLog(Fresh(window), "t");
    var s2 := Next(s1, Stage(token, 0));
    StagesLong(s1, token);
    var s3 := Next(s2, Submit(0, "t", short));
    SubmitsShort(s2, short);
    TokenStarts(s3, token, short);
    RunTwo(Fresh(window), [], Open("t", false, false), Stage(token, 0));
    RunTwo(Fresh(window), [] + [Open("t", false, false), Stage(token, 0)], Submit(0, "t", short), Begin(0, 0, true));
    es := [] + [Open("t", false, false), Stage(token, 0)] + [Submit(0, "t", short), Begin(0, 0, true)];
  }

  lemma {:induction false} OpenKeepsLog(s: State, task: string)
    ensures var t := Next(s, Open(task, false, false)); t.log == s.log && t.staged == s.staged
  {
  }

  lemma {:induction false} KeyOfLong()
    ensures TokenKey(As(MAX_COMMAND_CHARS + 1)) == As(MAX_COMMAND_CHARS) == TokenKey(As(MAX_COMMAND_CHARS))
  {
    assert As(MAX_COMMAND_CHARS + 1)[..MAX_COMMAND_CHARS] == As(MAX_COMMAND_CHARS);
  }

  lemma {:induction false} StagesLong(s: State, token: Token)
    requires s.tokens == map[] && token.command == As(MAX_COMMAND_CHARS + 1)
    ensures Next(s, Stage(token, 0)) == s.(tokens := map[As(MAX_COMMAND_CHARS) := token], staged := s.staged + [token])
  {
    KeyOfLong();
    assert Unexpired(s.tokens, 0) == map[];
  }

  lemma {:induction false} SubmitsShort(s: State, short: string)
    requires 0 in s.containers && s.containers[0] == NewContainer("t", false) && s.sessions == []
    requires short == As(MAX_COMMAND_CHARS)
    ensures var t, job := Next(s, Submit(0, "t", short)), Job(s.nextJob, short);
      t == Put(s, 0, s.containers[0].(queue := [job], accepted := [job])).(nextJob := s.nextJob + 1)
  {
    NotBlank(short);
    AdmitMeans(s, 0, "t", short);
    var job := Job(s.nextJob, short);
    assert s.containers[0].queue + [job] == [job] && s.containers[0].accepted + [job] == [job];
  }

  lemma {:induction false} TokenStarts(s: State, token: Token, short: string)
    requires token.approved && token.issuedAt == 0 && short == As(MAX_COMMAND_CHARS) && s.tokens == map[short := token]
    requires 0 in s.containers && s.containers[0].phase.Idle? && s.log == []
    requires |s.containers[0].queue| == 1 && s.containers[0].queue[0].command == short
    ensures var t := Next(s, Begin(0, 0, true));
      |t.log| == 2 && t.log[1].Started? && t.log[0].Decision? && t.log[0].why == ByToken(token, 0)
      && t.log[1].job.command == short && t.staged == s.staged
  {
    KeyOfLong();
    hide TokenKey, As;
  }

  // ---- Eight execs ---------------------------------------------------------------------------------

  /** Session 0 is open and idle, nothing is queued or staged, and `n` processes were tracked, all over. */
  ghost predicate Quiet(s: State, n: nat) {
    && SessionsSound(s) && s.tokens == map[] && |s.sessions| == n && (forall i | 0 <= i < n :: s.sessions[i].finished)
    && 0 in s.containers && s.containers[0].open && s.containers[0].task == "t"
    && s.containers[0].phase.Idle? && s.containers[0].queue == []
  }

  lemma {:induction false} NoEviction(s: State)
    requires SessionsSound(s) && |s.sessions| <= MAX_FINISHED_SESSIONS
    ensures Pruned(s).sessions == s.sessions && Pruned(s).containers == s.containers && Pruned(s).tokens == s.tokens
  {
    hide Noted, Names;
    NotedKeeps(s.sessions, s.sessions, s.finishedOrder);
    OrderBound(Table(s.sessions, Noted(s.sessions, s.finishedOrder)));
  }

  lemma {:induction false} EndQuiet(s: State, n: nat)
    requires SessionsSound(s) && s.tokens == map[] && |s.sessions| == n + 1 <= MAX_SESSIONS
    requires 0 in s.containers && s.containers[0].open && s.containers[0].task == "t" && s.containers[0].queue == []
    requires s.containers[0].phase.Running? && s.sessions[n].id == s.containers[0].phase.session
    requires forall i | 0 <= i < n :: s.sessions[i].finished
    ensures Quiet(Next(Next(s, Exit(s.containers[0].phase.session)), Finish(0)), n + 1)
  {
    hide Pruned, Window, TableSound;
    var t := Next(s, Exit(s.containers[0].phase.session));
    assert SameIds(s.sessions, t.sessions);
    SameIdsSound(s.sessions, t.sessions, s.finishedOrder);
    assert !IsLive(t.sessions, t.containers[0].phase.session);
    var k := t.containers[0];
    var u := Log(Put(t, 0, k.(runningIndex := None, nextIndex := k.phase.index + 1, phase := Idle,
                              completed := Window(k.completed + [Done(k.phase.job, k.phase.index)], t.window))),
                 Finished(0, k.phase.job, k.phase.index));
    assert Next(t, Finish(0)) == Pruned(u);
    PruneKeeps(u);
    NoEviction(u);
  }

  lemma {:induction false} QuietReachable(window: nat, n: nat) returns (es: seq<Event>)
    requires n <= MAX_SESSIONS
    ensures Quiet(Run(Fresh(window), es), n)
  {
    hide Next, Run, SessionsSound, ExecEvents;
    if n == 0 {
      es := [] + [Open("t", false, false)];
      NothingOpened(window);
      NotBlank("t");
      OpenOne(Fresh(window), 0, "t");
      RunSnoc(Fresh(window), [], Open("t", false, false));
      FreshSessions(window);
      NextKeepsSessions(Fresh(window), Open("t", false, false));
    } else {
      var before := QuietReachable(window, n - 1);
      var s := Run(Fresh(window), before);
      var more := before + ExecEvents(0, "t");
      ExecRuns(s, 0, "t");
      RunAppend(Fresh(window), before, ExecEvents(0, "t"));
      RunKeepsSessions(s, ExecEvents(0, "t"));
      var t := Run(Fresh(window), more);
      EndQuiet(t, n - 1);
      RunTwo(Fresh(window), more, Exit(t.containers[0].phase.session), Finish(0));
      es := more + [Exit(t.containers[0].phase.session), Finish(0)];
    }
  }

  /** There is a run after which nothing is running any more and still every exec is refused. */
  lemma {:induction false} RefusedThoughIdle(window: nat) returns (es: seq<Event>)
    ensures var s := Run(Fresh(window), es);
      && (forall x | x in s.sessions :: x.finished)
      && forall c, task, command :: Admit(s, c, task, command) != Ok
  {
    hide Run;
    es := QuietReachable(window, MAX_SESSIONS);
    var s := Run(Fresh(window), es);
    forall c, task, command ensures Admit(s, c, task, command) != Ok {
      AdmitMeans(s, c, task, command);
    }
  }
}
