/** The terminal session manager as the mutable object it is; each method is one step of the model. */
module SessionManager {
  import opened Prelude
  import opened TerminalSessions

  class TerminalSessionManager {
    const maxHistoryEntries: nat
    var sessions: seq<Tracked>
    var finishedOrder: seq<nat>
    var decisionTokens: map<string, Token>
    var agentSessions: map<nat, Container>
    var nextSession: nat
    var nextJob: nat
    var audit: seq<Audit>
    ghost var staged: seq<Token>

    ghost function View(): State
      reads this
    {
      State(maxHistoryEntries, decisionTokens, agentSessions, sessions, finishedOrder, nextSession, nextJob, audit, staged)
    }

    constructor (maxEntries: Option<int>)
      ensures maxHistoryEntries == Max(1, if maxEntries.Some? then maxEntries.value else 100)
      ensures View() == Fresh(maxHistoryEntries)
    {
      maxHistoryEntries := Max(1, if maxEntries.Some? then maxEntries.value else 100);
      sessions, finishedOrder, decisionTokens, agentSessions := [], [], map[], map[];
      nextSession, nextJob, audit, staged := 0, 0, [], [];
    }

    /** Drops every expired token, then files this one. */
    method StageDecisionToken(token: Token, now: int)
      modifies this
      ensures View() == Next(old(View()), Stage(token, now))
      ensures forall k :: k in decisionTokens <==>
        k == TokenKey(token.command) || (k in old(decisionTokens) && now - old(decisionTokens)[k].issuedAt <= 60_000)
      ensures forall k | k in decisionTokens ::
        decisionTokens[k] == if k == TokenKey(token.command) then token else old(decisionTokens)[k]
    {
      var pending := decisionTokens.Keys;
      while pending != {}
        invariant pending <= old(decisionTokens).Keys
        invariant forall k :: k in decisionTokens <==> k in old(decisionTokens) && (k in pending || !Expired(old(decisionTokens)[k], now))
        invariant forall k | k in decisionTokens :: decisionTokens[k] == old(decisionTokens)[k]
        invariant View() == old(View()).(tokens := decisionTokens)
        decreases |pending|
      {
        var key :| key in pending;
        pending := pending - {key};
        if Expired(decisionTokens[key], now) {
          decisionTokens := decisionTokens - {key};
        }
      }
      assert decisionTokens == Unexpired(old(decisionTokens), now);
      decisionTokens := decisionTokens[TokenKey(token.command) := token];
      staged := staged + [token];
    }

    /** Takes the token filed under this text out of the store; an expired one is taken out too, but not returned. */
    method ConsumeDecisionToken(command: string, now: int) returns (token: Option<Token>)
      modifies this`decisionTokens
      ensures decisionTokens == old(decisionTokens) - {TokenKey(command)}
      ensures var key := TokenKey(command);
        token == if key in old(decisionTokens) && now - old(decisionTokens)[key].issuedAt <= 60_000
                 then Some(old(decisionTokens)[key]) else None
    {
      var key := TokenKey(command);
      if key !in decisionTokens {
        assert decisionTokens == decisionTokens - {key};
        return None;
      }
      token := Some(decisionTokens[key]);
      decisionTokens := decisionTokens - {key};
      if Expired(token.value, now) {
        token := None;
      }
    }

    method PruneFinished()
      modifies this`sessions, this`finishedOrder
      ensures View() == Next(old(View()), Prune)
    {
      hide Next, Without;
      PruneIs(View());
      for i := 0 to |sessions|
        invariant sessions == old(sessions)
        invariant finishedOrder == Noted(sessions[..i], old(finishedOrder))
      {
        assert sessions[..i + 1][..i] == sessions[..i];
        if sessions[i].finished && sessions[i].id !in finishedOrder {
          finishedOrder := finishedOrder + [sessions[i].id];
        }
      }
      assert sessions[..|sessions|] == sessions;
      ghost var start := Table(sessions, finishedOrder);
      while |finishedOrder| > MAX_FINISHED_SESSIONS
        invariant Evicted(Table(sessions, finishedOrder)) == Evicted(start)
        decreases |finishedOrder|
      {
        sessions, finishedOrder := Without(sessions, finishedOrder[0]), finishedOrder[1..];
      }
    }

    /** A session whose interactive shell cannot be started is dropped again. */
    method StartAgentSession(task: string, interactive: bool, spawns: bool) returns (id: Option<nat>)
      modifies this`agentSessions
      ensures View() == Next(old(View()), Open(task, interactive, spawns))
      ensures id.Some? ==> id.value !in old(agentSessions) && id.value in agentSessions
      ensures id == None ==> agentSessions == old(agentSessions)
    {
      if Blank(task) || |agentSessions| >= MAX_AGENT_SESSIONS || |agentSessions| in agentSessions {
        return None;
      }
      id := Some(|agentSessions|);
      agentSessions := agentSessions[id.value := NewContainer(task, false)];
      if interactive {
        if !spawns {
          agentSessions := agentSessions - {id.value};
          return None;
        }
        agentSessions := agentSessions[id.value := agentSessions[id.value].(shell := Interactive(true, 0))];
      }
    }

    /** The synchronous part of an exec: it is refused, or appended to the session's chain. */
    method ExecInSession(c: nat, task: string, command: string) returns (code: Code)
      modifies this`agentSessions, this`nextJob
      ensures View() == Next(old(View()), Submit(c, task, command)) && code == Admit(old(View()), c, task, command)
    {
      if task == "" {
        return Invalid;
      }
      if c !in agentSessions {
        return NotFound;
      }
      var container := agentSessions[c];
      if container.task != task {
        return Forbidden;
      }
      if !container.open {
        return Closed;
      }
      if Blank(command) || |command| > MAX_COMMAND_CHARS {
        return Invalid;
      }
      if |sessions| >= MAX_SESSIONS {
        return Limit;
      }
      var job := Job(nextJob, command);
      nextJob := nextJob + 1;
      agentSessions := agentSessions[c := container.(queue := container.queue + [job], accepted := container.accepted + [job])];
      return Ok;
    }

    /** Runs an approved command; `spawns` says whether the process can be started. */
    method RunApproved(c: nat, job: Job, index: nat, spawns: bool)
      requires c in agentSessions
      modifies this`agentSessions, this`sessions, this`nextSession, this`audit
      ensures View() == Spawn(old(View()), c, job, index, spawns)
      ensures agentSessions.Keys == old(agentSessions).Keys
      ensures forall d | d in agentSessions :: agentSessions[d].nextIndex == old(agentSessions)[d].nextIndex
    {
      if !spawns {
        agentSessions := agentSessions[c := agentSessions[c].(phase := Idle, runningIndex := None)];
        audit := audit + [SpawnFailed(c, job, index)];
        return;
      }
      agentSessions := agentSessions[c := agentSessions[c].(phase := Running(job, index, nextSession), runningIndex := Some(index))];
      sessions := sessions + [Tracked(nextSession, false, false)];
      audit := audit + [Started(c, job, index, nextSession)];
      nextSession := nextSession + 1;
    }

    /** The first part of a queued exec, up to the evaluation it may have to wait for. */
    method BeginExec(c: nat, now: int, spawns: bool)
      modifies this`agentSessions, this`sessions, this`nextSession, this`audit, this`decisionTokens
      ensures View() == Next(old(View()), Begin(c, now, spawns))
      ensures agentSessions.Keys == old(agentSessions).Keys
      ensures forall d | d in agentSessions :: agentSessions[d].nextIndex == old(agentSessions)[d].nextIndex
    {
      hide Next, Entries, DecisionEntries, Spawn, TokenKey;
      BeginIs(View(), Begin(c, now, spawns));
      if c !in agentSessions || !agentSessions[c].phase.Idle? || agentSessions[c].queue == [] {
        return;
      }
      var container := agentSessions[c];
      var job, index := container.queue[0], container.nextIndex;
      agentSessions := agentSessions[c := container.(queue := container.queue[1..])];
      var token := ConsumeDecisionToken(job.command, now);
      if token == None {
        agentSessions := agentSessions[c := agentSessions[c].(phase := Evaluating(job, index))];
        return;
      }
      audit := audit + [Decision(c, job, index, token.value.approved, ByToken(token.value, now))];
      if token.value.approved {
        RunApproved(c, job, index, spawns);
      } else {
        agentSessions := agentSessions[c := agentSessions[c].(phase := Idle)];
      }
    }

    /** The evaluation the exec waited for has answered. */
    method Resume(c: nat, approved: bool, spawns: bool)
      modifies this`agentSessions, this`sessions, this`nextSession, this`audit
      ensures View() == Next(old(View()), Evaluated(c, approved, spawns))
      ensures agentSessions.Keys == old(agentSessions).Keys
      ensures forall d | d in agentSessions :: agentSessions[d].nextIndex == old(agentSessions)[d].nextIndex
    {
      if c !in agentSessions || !agentSessions[c].phase.Evaluating? {
        return;
      }
      var job, index := agentSessions[c].phase.job, agentSessions[c].phase.index;
      audit := audit + [Decision(c, job, index, approved, ByEvaluation)];
      if approved {
        RunApproved(c, job, index, spawns);
      } else {
        agentSessions := agentSessions[c := agentSessions[c].(phase := Idle)];
      }
    }

    /** The last part of an exec, after its process has ended. */
    method FinishExec(c: nat)
      modifies this`agentSessions, this`sessions, this`finishedOrder, this`audit
      ensures View() == Next(old(View()), Finish(c))
    {
      hide Next, Pruned, IsLive;
      FinishIs(View(), c);
      if c !in agentSessions || !agentSessions[c].phase.Running? || IsLive(sessions, agentSessions[c].phase.session) {
        return;
      }
      var container := agentSessions[c];
      var job, index := container.phase.job, container.phase.index;
      var completed := container.completed + [Done(job, index)];
      if |completed| > maxHistoryEntries {
        completed := completed[1..];
      }
      agentSessions := agentSessions[c := container.(runningIndex := None, nextIndex := index + 1,
                                                     completed := completed, phase := Idle)];
      audit := audit + [Finished(c, job, index)];
      PruneIs(View());
      PruneFinished();
    }

    method StopAgentSessionCommand(c: nat, task: string) returns (stopped: bool)
      modifies this`sessions, this`agentSessions
      ensures View() == Next(old(View()), Stop(c, task))
      ensures stopped <==>
        && task != "" && c in old(agentSessions) && old(agentSessions)[c].task == task
        && var k := old(agentSessions)[c];
           (k.shell.Interactive? && k.shell.stdinOpen)
           || (k.runningIndex.Some? && exists x :: x in old(sessions) && !x.finished)
    {
      hide Next, CancelFirst;
      StopIs(View(), c, task);
      if task == "" || c !in agentSessions || agentSessions[c].task != task {
        return false;
      }
      var container := agentSessions[c];
      if container.shell.Interactive? && container.shell.stdinOpen {
        agentSessions := agentSessions[c := container.(shell := Interactive(true, container.shell.interrupts + 1))];
        return true;
      }
      if container.runningIndex == None {
        return false;
      }
      for i := 0 to |sessions|
        invariant sessions == old(sessions) && agentSessions == old(agentSessions)
        invariant forall j | 0 <= j < i :: sessions[j].finished
      {
        if !sessions[i].finished {
          StopCancelsFirstLive(sessions, i);
          sessions := sessions[i := sessions[i].(cancelled := true)];
          return true;
        }
      }
      NothingLive(sessions);
      return false;
    }

    /** Every process that is not over is cancelled. */
    method CancelLive()
      modifies this`sessions
      ensures sessions == CancelAll(old(sessions))
    {
      for i := 0 to |sessions|
        invariant |sessions| == |old(sessions)|
        invariant forall j | 0 <= j < i :: sessions[j] == CancelAll(old(sessions))[j]
        invariant forall j | i <= j < |sessions| :: sessions[j] == old(sessions)[j]
      {
        if !sessions[i].finished {
          sessions := sessions[i := sessions[i].(cancelled := true)];
        }
      }
    }

    /** The session takes no more commands, its shell is killed, and if it runs a command everything is cancelled. */
    method EndSession(c: nat)
      requires c in agentSessions
      modifies this`agentSessions, this`sessions
      ensures agentSessions == old(agentSessions)[c := Ended(old(agentSessions)[c])]
      ensures sessions == if old(agentSessions)[c].runningIndex.Some? then CancelAll(old(sessions)) else old(sessions)
    {
      agentSessions := agentSessions[c := agentSessions[c].(open := false)];
      if agentSessions[c].runningIndex.Some? {
        CancelLive();
      }
      if agentSessions[c].shell.Interactive? {
        agentSessions := agentSessions[c := agentSessions[c].(shell := NoShell)];
      }
    }

    method CloseAgentSession(c: nat, task: string) returns (closed: bool)
      modifies this`agentSessions, this`sessions
      ensures View() == Next(old(View()), Close(c, task)) && (closed <==> OwnedSession(old(View()), c, task) == Ok)
    {
      if task == "" || c !in agentSessions || agentSessions[c].task != task {
        CloseIs(View(), c, task);
        return false;
      }
      hide Next, OwnedSession;
      EndSession(c);
      CloseIs(old(View()), c, task);
      return true;
    }

    /** Ends every session of a task; the count is how many it has. */
    method CancelAgentSessionsForTask(task: string) returns (closed: nat)
      modifies this`agentSessions, this`sessions
      ensures View() == Next(old(View()), CancelTask(task)) && closed == |OwnedBy(old(View()), task)|
    {
      hide Next, CancelAll, WithEnded, OwnedBy, Ended;
      closed := 0;
      var pending := agentSessions.Keys;
      ghost var start := View();
      NoneEnded(start, task);
      while pending != {}
        invariant pending <= start.containers.Keys == agentSessions.Keys
        invariant closed == |OwnedBy(start, task) - pending|
        invariant View() == WithEnded(start, OwnedBy(start, task) - pending)
        decreases |pending|
      {
        var c :| c in pending;
        OneMoreEnded(start, task, pending, c);
        pending := pending - {c};
        if agentSessions[c].task == task {
          EndSession(c);
          closed := closed + 1;
        }
      }
      AllEnded(start, task);
    }
  }

  /** Some sessions ended. */
  ghost function WithEnded(s: State, done: set<nat>): State {
    s.(containers := map c | c in s.containers :: if c in done then Ended(s.containers[c]) else s.containers[c],
       sessions := if exists c :: c in done && c in s.containers && s.containers[c].runningIndex.Some?
                   then CancelAll(s.sessions) else s.sessions)
  }

  lemma {:induction false} NoneEnded(s: State, task: string)
    ensures OwnedBy(s, task) - s.containers.Keys == {} && WithEnded(s, {}) == s
  {
    hide CancelAll;
    assert WithEnded(s, {}).containers == s.containers;
  }

  /** One session of the task more, when the session at hand is one. */
  lemma {:induction false} OneMoreEnded(s: State, task: string, pending: set<nat>, c: nat)
    requires c in pending && c in s.containers
    ensures var done, done' := OwnedBy(s, task) - pending, OwnedBy(s, task) - (pending - {c});
      var t, u := WithEnded(s, done), WithEnded(s, done');
      && c in t.containers
      && if t.containers[c].task == task then
           && |done'| == |done| + 1
           && u == t.(containers := t.containers[c := Ended(t.containers[c])],
                      sessions := if t.containers[c].runningIndex.Some? then CancelAll(t.sessions) else t.sessions)
         else done' == done
  {
    hide CancelAll;
    var done, done' := OwnedBy(s, task) - pending, OwnedBy(s, task) - (pending - {c});
    var t, u := WithEnded(s, done), WithEnded(s, done');
    CancelTwice(s.sessions);
    if t.containers[c].task == task {
      assert done' == done + {c};
      assert u.containers == t.containers[c := Ended(t.containers[c])];
    } else {
      assert done' == done;
    }
  }

  lemma {:induction false} AllEnded(s: State, task: string)
    ensures OwnedBy(s, task) - {} == OwnedBy(s, task) && WithEnded(s, OwnedBy(s, task)) == Next(s, CancelTask(task))
  {
    hide CancelAll;
  }

  lemma {:induction false} PruneIs(s: State)
    ensures Next(s, Prune) == Pruned(s)
  {
  }

  lemma {:induction false} FinishIs(s: State, c: nat)
    ensures Next(s, Finish(c)) == if CanFinish(s, c) then FinishRun(s, c) else s
  {
    hide CanFinish, FinishRun;
  }

  lemma {:induction false} CancelTwice(ss: seq<Tracked>)
    ensures CancelAll(CancelAll(ss)) == CancelAll(ss)
  {
  }
}
