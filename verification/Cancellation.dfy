/** The cancellation signal, and the timeout around one operation. */
module Cancellation {
  import opened Prelude

  type Listener = nat

  datatype Call = Call(listener: Listener, reason: string)

  /** What each listener unsubscribes while it is being called, itself or others. */
  type Drops = Listener -> set<Listener>

  datatype Event = Register(listener: Listener) | Unsubscribe(listener: Listener) | Dispose
                 | Cancel(reason: string, drops: Drops)

  /** `calls` is the history of listener invocations. */
  datatype Signal = Signal(reason: Option<string>, listeners: seq<Listener>, calls: seq<Call>)

  const Quiet: Signal := Signal(None, [], [])

  function Without(ls: seq<Listener>, gone: set<Listener>): (r: seq<Listener>)
    ensures |r| <= |ls| && (forall l :: l in r <==> l in ls && l !in gone)
    ensures Distinct(ls) ==> Distinct(r)
  {
    if ls == [] then []
    else
      assert ls == [ls[0]] + ls[1..];
      assert Distinct(ls) ==> Distinct(ls[1..]) && ls[0] !in ls[1..] by {
        if Distinct(ls) {
          assert forall i | 0 <= i < |ls[1..]| :: ls[1..][i] == ls[i + 1] != ls[0];
        }
      }
      (if ls[0] in gone then [] else [ls[0]]) + Without(ls[1..], gone)
  }

  /** The listeners are called in order of registration; one that was unsubscribed meanwhile is skipped. */
  function Delivered(ls: seq<Listener>, drops: Drops, reason: string): seq<Call>
    decreases |ls|
  {
    if ls == [] then [] else [Call(ls[0], reason)] + Delivered(Without(ls[1..], drops(ls[0])), drops, reason)
  }

  function Next(s: Signal, e: Event): Signal {
    match e
    case Register(l) =>
      if s.reason.Some? then s.(calls := s.calls + [Call(l, s.reason.value)])
      else if l in s.listeners then s
      else s.(listeners := s.listeners + [l])
    case Unsubscribe(l) => s.(listeners := Without(s.listeners, {l}))
    case Dispose => s.(listeners := [])
    case Cancel(reason, drops) =>
      if s.reason.Some? then s
      else Signal(Some(reason), [], s.calls + Delivered(s.listeners, drops, reason))
  }

  function Run(s: Signal, es: seq<Event>): Signal {
    if es == [] then s else Next(Run(s, es[..|es| - 1]), es[|es| - 1])
  }

  lemma {:induction false} DeliveredFirst(ls: seq<Listener>, drops: Drops, reason: string, calls: seq<Call>)
    requires ls != []
    ensures calls + Delivered(ls, drops, reason) ==
      (calls + [Call(ls[0], reason)]) + Delivered(Without(ls[1..], drops(ls[0])), drops, reason)
  {
  }

  lemma {:induction false} DeliveredLast(s: Signal, drops: Drops, reason: string, calls: seq<Call>)
    requires s.reason == None && calls + Delivered([], drops, reason) == s.calls + Delivered(s.listeners, drops, reason)
    ensures Next(s, Cancel(reason, drops)) == Signal(Some(reason), [], calls)
  {
    assert calls + [] == calls;
  }

  class CancellationSource {
    var cancelled: bool
    var reason: string
    var listeners: seq<Listener>
    var calls: seq<Call>

    ghost function View(): Signal
      reads this
    {
      Signal(if cancelled then Some(reason) else None, listeners, calls)
    }

    constructor ()
      ensures View() == Quiet
    {
      cancelled, reason, listeners, calls := false, "", [], [];
    }

    method OnCancelled(l: Listener) returns (subscribed: bool)
      modifies this
      ensures View() == Next(old(View()), Register(l)) && subscribed == !old(cancelled)
      ensures subscribed ==> listeners == old(listeners) + (if l in old(listeners) then [] else [l]) && calls == old(calls)
      ensures !subscribed ==> listeners == old(listeners) && calls == old(calls) + [Call(l, reason)]
    {
      if cancelled {
        calls := calls + [Call(l, reason)];
        return false;
      }
      if l !in listeners {
        listeners := listeners + [l];
      }
      return true;
    }

    method RemoveListener(l: Listener)
      modifies this`listeners
      ensures View() == Next(old(View()), Unsubscribe(l))
    {
      listeners := Without(listeners, {l});
    }

    method CancelAll(why: string, drops: Drops)
      modifies this
      ensures View() == Next(old(View()), Cancel(why, drops))
    {
      if cancelled {
        return;
      }
      hide Delivered, Without, Next;
      ghost var was := View();
      cancelled, reason := true, why;
      var pending := listeners;
      while pending != []
        invariant cancelled && reason == why
        invariant calls + Delivered(pending, drops, why) == old(calls) + Delivered(old(listeners), drops, why)
        decreases |pending|
      {
        var l := pending[0];
        DeliveredFirst(pending, drops, why, calls);
        calls := calls + [Call(l, why)];
        listeners, pending := Without(listeners, drops(l)), Without(pending[1..], drops(l));
      }
      listeners := [];
      DeliveredLast(was, drops, why, calls);
    }

    method DisposeListeners()
      modifies this`listeners
      ensures View() == Next(old(View()), Dispose)
    {
      listeners := [];
    }
  }

  // ---- Who is called, how often, with what -----------------------------------------------------

  ghost predicate NoCancel(es: seq<Event>) { forall e | e in es :: !e.Cancel? }

  /** `l` was registered after it was last unsubscribed or the source disposed. */
  predicate Survives(es: seq<Event>, l: Listener) {
    es != [] &&
    match es[|es| - 1]
    case Register(m) => m == l || Survives(es[..|es| - 1], l)
    case Unsubscribe(m) => m != l && Survives(es[..|es| - 1], l)
    case Dispose => false
    case Cancel(_, _) => Survives(es[..|es| - 1], l)
  }

  lemma {:induction false} BeforeCancel(es: seq<Event>)
    requires NoCancel(es)
    ensures var s := Run(Quiet, es);
      s.reason == None && s.calls == [] && Distinct(s.listeners) && forall l :: l in s.listeners <==> Survives(es, l)
  {
    if es != [] {
      var init, e := es[..|es| - 1], es[|es| - 1];
      assert es == init + [e];
      BeforeCancel(init);
      hide Distinct, Delivered, Run;
      assert Run(Quiet, es) == Next(Run(Quiet, init), e) by { RunLast(init, e); }
      if e.Register? {
        AddDistinct(Run(Quiet, init).listeners, e.listener);
      } else if e.Dispose? {
        NoneDistinct();
      }
    } else {
      NoneDistinct();
    }
  }

  lemma {:induction false} RunLast(es: seq<Event>, e: Event)
    ensures Run(Quiet, es + [e]) == Next(Run(Quiet, es), e)
  {
    hide Next;
    assert (es + [e])[..|es|] == es;
  }

  lemma {:induction false} AddDistinct(ls: seq<Listener>, l: Listener)
    requires Distinct(ls)
    ensures l !in ls ==> Distinct(ls + [l])
  {
  }

  lemma {:induction false} NoneDistinct()
    ensures Distinct<Listener>([])
  {
  }

  /** The registrations among the events. */
  function Late(es: seq<Event>, reason: string): seq<Call> {
    if es == [] then []
    else
      var e := es[|es| - 1];
      Late(es[..|es| - 1], reason) + if e.Register? then [Call(e.listener, reason)] else []
  }

  lemma {:induction false} AfterCancel(s: Signal, es: seq<Event>)
    requires s.reason.Some? && s.listeners == []
    ensures Run(s, es) == s.(calls := s.calls + Late(es, s.reason.value))
  {
    if es == [] {
      assert s.calls + [] == s.calls;
    } else {
      AfterCancel(s, es[..|es| - 1]);
      assert Without([], {}) == [];
    }
  }

  lemma {:induction false} RunAppend(s: Signal, es: seq<Event>, more: seq<Event>)
    ensures Run(s, es + more) == Run(Run(s, es), more)
    decreases |more|
  {
    if more == [] {
      assert es + more == es;
    } else {
      var init := more[..|more| - 1];
      RunAppend(s, es, init);
      assert (es + more)[..|es + more| - 1] == es + init;
    }
  }

  function CallsOf(calls: seq<Call>, l: Listener): nat {
    if calls == [] then 0 else (if calls[0].listener == l then 1 else 0) + CallsOf(calls[1..], l)
  }

  lemma {:induction false} CallsAppend(c: seq<Call>, d: seq<Call>, l: Listener)
    ensures CallsOf(c + d, l) == CallsOf(c, l) + CallsOf(d, l)
  {
    if c == [] {
      assert c + d == d;
    } else {
      CallsAppend(c[1..], d, l);
      assert (c + d)[1..] == c[1..] + d;
    }
  }

  /**
   * A delivery calls nobody twice and nobody who is not registered; and a registered listener
   * that is not called was unsubscribed by one that was.
   */
  lemma {:induction false} DeliveredMeans(ls: seq<Listener>, drops: Drops, reason: string, l: Listener)
    requires Distinct(ls)
    ensures var calls := Delivered(ls, drops, reason);
      && (forall c | c in calls :: c.reason == reason)
      && CallsOf(calls, l) <= 1 && (CallsOf(calls, l) == 1 ==> l in ls)
      && (CallsOf(calls, l) == 0 && l in ls ==> exists c :: c in calls && l in drops(c.listener))
    decreases |ls|
  {
    if ls != [] {
      var rest := Without(ls[1..], drops(ls[0]));
      TailDistinct(ls);
      DeliveredMeans(rest, drops, reason, l);
      var tail, calls := Delivered(rest, drops, reason), Delivered(ls, drops, reason);
      assert calls == [Call(ls[0], reason)] + tail && calls[1..] == tail;
      if CallsOf(calls, l) == 0 && l in ls {
        if l in rest {
          var c :| c in tail && l in drops(c.listener);
          assert c in calls;
        } else {
          assert l in drops(ls[0]) && calls[0] in calls;
        }
      }
    }
  }

  lemma {:induction false} TailDistinct(ls: seq<Listener>)
    requires Distinct(ls) && ls != []
    ensures Distinct(ls[1..]) && ls[0] !in ls[1..] && forall l :: l in ls <==> l == ls[0] || l in ls[1..]
  {
    assert ls == [ls[0]] + ls[1..];
    assert forall i | 0 <= i < |ls[1..]| :: ls[1..][i] == ls[i + 1] != ls[0];
  }

  /**
   * Over any run with a first cancellation: every call carries the reason of that first one; a
   * listener is called for it once if it was registered then and nobody unsubscribed it meanwhile,
   * never if it was not, and once more for each later registration.
   */
  lemma {:induction false} CalledOnceWithFirstReason(pre: seq<Event>, reason: string, drops: Drops, post: seq<Event>, l: Listener)
    requires NoCancel(pre)
    ensures var s := Run(Quiet, pre + [Cancel(reason, drops)] + post); var later := CallsOf(Late(post, reason), l);
      && s.reason == Some(reason) && s.listeners == []
      && (forall c | c in s.calls :: c.reason == reason)
      && (!Survives(pre, l) ==> CallsOf(s.calls, l) == later)
      && later <= CallsOf(s.calls, l) <= later + 1
      && (Survives(pre, l) && CallsOf(s.calls, l) == later ==>
            exists c :: c in Delivered(Run(Quiet, pre).listeners, drops, reason) && l in drops(c.listener))
  {
    hide Survives;
    BeforeCancel(pre);
    var before := Run(Quiet, pre);
    var es := pre + [Cancel(reason, drops)];
    assert es[..|es| - 1] == pre;
    var at := Run(Quiet, es);
    RunAppend(Quiet, es, post);
    AfterCancel(at, post);
    DeliveredMeans(before.listeners, drops, reason, l);
    assert at.calls == Delivered(before.listeners, drops, reason);
    CallsAppend(at.calls, Late(post, reason), l);
    LateReason(post, reason);
  }

  lemma {:induction false} LateReason(es: seq<Event>, reason: string)
    ensures forall c | c in Late(es, reason) :: c.reason == reason
  {
    if es != [] {
      LateReason(es[..|es| - 1], reason);
    }
  }

  /** The calls go to some of the listeners, in their order. */
  ghost predicate InOrder(calls: seq<Call>, ls: seq<Listener>)
    decreases |ls|
  {
    calls == [] ||
    (ls != [] && ((calls[0].listener == ls[0] && InOrder(calls[1..], ls[1..])) || InOrder(calls, ls[1..])))
  }

  lemma {:induction false} InOrderWithout(calls: seq<Call>, ls: seq<Listener>, gone: set<Listener>)
    requires InOrder(calls, Without(ls, gone))
    ensures InOrder(calls, ls)
    decreases |ls|
  {
    if ls != [] && calls != [] {
      var rest := Without(ls[1..], gone);
      if ls[0] in gone {
        assert [] + rest == rest;
        InOrderWithout(calls, ls[1..], gone);
      } else {
        assert ([ls[0]] + rest)[1..] == rest;
        if InOrder(calls, rest) {
          InOrderWithout(calls, ls[1..], gone);
        } else {
          InOrderWithout(calls[1..], ls[1..], gone);
        }
      }
    }
  }

  /** Listeners are called in the order in which they were registered. */
  lemma {:induction false} DeliveredInOrder(ls: seq<Listener>, drops: Drops, reason: string)
    ensures InOrder(Delivered(ls, drops, reason), ls)
    decreases |ls|
  {
    if ls != [] {
      var rest := Without(ls[1..], drops(ls[0]));
      var calls, tail := Delivered(ls, drops, reason), Delivered(rest, drops, reason);
      assert calls[0].listener == ls[0] && calls[1..] == tail;
      DeliveredInOrder(rest, drops, reason);
      InOrderWithout(tail, ls[1..], drops(ls[0]));
    }
  }

  // ---- One operation under a timeout and a parent signal ------------------------------------------

  /** `armed` says the timer is pending, `linked` that the parent's cancellation is still passed on. */
  datatype Guarded = Guarded(source: Signal, armed: bool, fired: bool, linked: bool)

  datatype Moment = ParentCancels(why: string) | Deadline | Settles | Listens(listener: Listener)

  /** A parent that is cancelled already passes that on at once. */
  function Guard(timeoutMs: int, hasParent: bool, cancelledParent: Option<string>): Guarded {
    var source := if hasParent && cancelledParent.Some? then Quiet.(reason := cancelledParent) else Quiet;
    Guarded(source, timeoutMs > 0, false, hasParent && cancelledParent == None)
  }

  function NoDrops(l: Listener): set<Listener> { {} }

  function Pass(g: Guarded, timeoutReason: string, m: Moment): Guarded {
    match m
    case ParentCancels(why) => if g.linked then g.(source := Next(g.source, Cancel(why, NoDrops)), linked := false) else g
    case Deadline =>
      if g.armed then Guarded(Next(g.source, Cancel(timeoutReason, NoDrops)), false, true, g.linked) else g
    case Settles => Guarded(Next(g.source, Dispose), false, g.fired, false)
    case Listens(l) => g.(source := Next(g.source, Register(l)))
  }

  function PassAll(g: Guarded, timeoutReason: string, ms: seq<Moment>): Guarded
    decreases |ms|
  {
    if ms == [] then g else PassAll(Pass(g, timeoutReason, ms[0]), timeoutReason, ms[1..])
  }

  /** Why the operation is cancelled: the parent or the deadline, whichever comes first before it settles. */
  function Verdict(armed: bool, linked: bool, timeoutReason: string, ms: seq<Moment>): Option<string>
    decreases |ms|
  {
    if ms == [] then None
    else
      match ms[0]
      case Settles => None
      case ParentCancels(why) => if linked then Some(why) else Verdict(armed, linked, timeoutReason, ms[1..])
      case Deadline => if armed then Some(timeoutReason) else Verdict(armed, linked, timeoutReason, ms[1..])
      case Listens(_) => Verdict(armed, linked, timeoutReason, ms[1..])
  }

  lemma {:induction false} ReasonIsFinal(g: Guarded, timeoutReason: string, ms: seq<Moment>)
    requires g.source.reason.Some? || (!g.armed && !g.linked)
    ensures PassAll(g, timeoutReason, ms).source.reason == g.source.reason
    decreases |ms|
  {
    if ms != [] {
      ReasonIsFinal(Pass(g, timeoutReason, ms[0]), timeoutReason, ms[1..]);
    }
  }

  /** The operation's token is cancelled exactly by the first of the two that comes before it settles, and by nothing after. */
  lemma {:induction false} FirstOfTimeoutAndParentWins(g: Guarded, timeoutReason: string, ms: seq<Moment>)
    requires g.source.reason == None
    ensures PassAll(g, timeoutReason, ms).source.reason == Verdict(g.armed, g.linked, timeoutReason, ms)
    decreases |ms|
  {
    if ms != [] {
      var h := Pass(g, timeoutReason, ms[0]);
      if h.source.reason.Some? || (!h.armed && !h.linked) {
        ReasonIsFinal(h, timeoutReason, ms[1..]);
        NoVerdict(timeoutReason, ms[1..]);
      }
      if h.source.reason == None {
        FirstOfTimeoutAndParentWins(h, timeoutReason, ms[1..]);
      }
    }
  }

  lemma {:induction false} NoVerdict(timeoutReason: string, ms: seq<Moment>)
    ensures Verdict(false, false, timeoutReason, ms) == None
    decreases |ms|
  {
    if ms != [] {
      NoVerdict(timeoutReason, ms[1..]);
    }
  }

  /** A deadline counts when there is a timeout, a cancelled parent when there is a parent. */
  ghost predicate Causes(timed: bool, hasParent: bool, timeoutReason: string, m: Moment, why: string) {
    (m.Deadline? && timed && why == timeoutReason) || (m.ParentCancels? && hasParent && why == m.why)
  }

  /** Moment `i` is the first cause, before the operation settles. */
  ghost predicate IsFirstCause(timed: bool, hasParent: bool, timeoutReason: string, ms: seq<Moment>, why: string, i: nat) {
    && i < |ms| && Causes(timed, hasParent, timeoutReason, ms[i], why)
    && forall j | 0 <= j < i :: !ms[j].Settles? && forall other :: !Causes(timed, hasParent, timeoutReason, ms[j], other)
  }

  /** The first cause before the operation settles gives this reason. */
  ghost predicate IsCausedBy(timed: bool, hasParent: bool, timeoutReason: string, ms: seq<Moment>, why: string) {
    exists i: nat :: IsFirstCause(timed, hasParent, timeoutReason, ms, why, i)
  }

  lemma {:induction false} VerdictIsFirstCause(timed: bool, hasParent: bool, timeoutReason: string, ms: seq<Moment>, why: string)
    ensures Verdict(timed, hasParent, timeoutReason, ms) == Some(why) <==> IsCausedBy(timed, hasParent, timeoutReason, ms, why)
    decreases |ms|
  {
    if ms != [] {
      var rest := ms[1..];
      VerdictIsFirstCause(timed, hasParent, timeoutReason, rest, why);
      if i: nat :| IsFirstCause(timed, hasParent, timeoutReason, ms, why, i) {
        if i > 0 {
          assert !Causes(timed, hasParent, timeoutReason, ms[0], if ms[0].ParentCancels? then ms[0].why else timeoutReason);
          assert IsFirstCause(timed, hasParent, timeoutReason, rest, why, i - 1);
        }
      }
      if Verdict(timed, hasParent, timeoutReason, ms) == Some(why) {
        if Causes(timed, hasParent, timeoutReason, ms[0], why) {
          assert IsFirstCause(timed, hasParent, timeoutReason, ms, why, 0);
        } else {
          var i: nat :| IsFirstCause(timed, hasParent, timeoutReason, rest, why, i);
          forall j | 0 <= j < i + 1
            ensures !ms[j].Settles? && forall other :: !Causes(timed, hasParent, timeoutReason, ms[j], other)
          {
            assert j > 0 ==> ms[j] == rest[j - 1];
          }
          assert IsFirstCause(timed, hasParent, timeoutReason, ms, why, i + 1);
        }
      }
    }
  }

  /**
   * A guarded operation is cancelled with a reason exactly when that is the one of the first
   * deadline, if it has a timeout, or cancellation of the parent, if it has one, before it
   * settles. A parent that is cancelled at the start comes before all that.
   */
  lemma {:induction false} GuardedIsCancelledIff(timeoutMs: int, hasParent: bool, cancelledParent: Option<string>,
                                                 timeoutReason: string, ms: seq<Moment>, why: string)
    ensures
      var reason := PassAll(Guard(timeoutMs, hasParent, cancelledParent), timeoutReason, ms).source.reason;
      reason == Some(why) <==>
        if hasParent && cancelledParent.Some? then why == cancelledParent.value
        else IsCausedBy(timeoutMs > 0, hasParent, timeoutReason, ms, why)
  {
    var g := Guard(timeoutMs, hasParent, cancelledParent);
    if g.source.reason.Some? {
      ReasonIsFinal(g, timeoutReason, ms);
    } else {
      FirstOfTimeoutAndParentWins(g, timeoutReason, ms);
      VerdictIsFirstCause(timeoutMs > 0, hasParent, timeoutReason, ms, why);
    }
  }

  /** The timer of one operation. */
  class TimeoutManager {
    const source: CancellationSource
    const reason: string
    var armed: bool
    var fired: bool

    constructor (source: CancellationSource, timeoutMs: int, reason: string)
      ensures this.source == source && this.reason == reason && armed == (timeoutMs > 0) && !fired
    {
      this.source, this.reason, armed, fired := source, reason, timeoutMs > 0, false;
    }

    /** The deadline is reached. */
    method Elapse()
      requires armed
      modifies this, source
      ensures !armed && fired && source.View() == Next(old(source.View()), Cancel(reason, NoDrops))
    {
      armed, fired := false, true;
      source.CancelAll(reason, NoDrops);
    }

    method DisposeTimer()
      modifies this`armed
      ensures !armed
    {
      armed := false;
    }
  }

  /** One operation run under a timeout and, possibly, a parent's signal. */
  class GuardedOperation {
    const source: CancellationSource
    const timer: TimeoutManager
    var linked: bool

    ghost predicate Valid()
      reads this
    {
      timer.source == source
    }

    ghost function View(): Guarded
      reads this, source, timer
    {
      Guarded(source.View(), timer.armed, timer.fired, linked)
    }

    constructor (timeoutMs: int, hasParent: bool, cancelledParent: Option<string>, timeoutReason: string)
      ensures Valid() && fresh(source) && fresh(timer) && timer.reason == timeoutReason
      ensures View() == Guard(timeoutMs, hasParent, cancelledParent)
    {
      var created := new CancellationSource();
      if hasParent && cancelledParent.Some? {
        created.CancelAll(cancelledParent.value, NoDrops);
      }
      var manager := new TimeoutManager(created, timeoutMs, timeoutReason);
      source, timer, linked := created, manager, hasParent && cancelledParent == None;
    }

    method ParentCancelled(why: string)
      requires Valid()
      modifies this, source
      ensures View() == Pass(old(View()), timer.reason, ParentCancels(why))
    {
      if linked {
        source.CancelAll(why, NoDrops);
        linked := false;
      }
    }

    method DeadlineReached()
      requires Valid()
      modifies timer, source
      ensures View() == Pass(old(View()), timer.reason, Deadline)
    {
      if timer.armed {
        timer.Elapse();
      }
    }

    /** The operation returned or threw: timer, subscription and listeners are dropped. */
    method Settled()
      requires Valid()
      modifies this, timer, source
      ensures View() == Pass(old(View()), timer.reason, Settles)
      ensures !timer.armed && !linked && source.listeners == [] && source.calls == old(source.calls)
    {
      timer.DisposeTimer();
      linked := false;
      source.DisposeListeners();
    }

    method Listen(l: Listener)
      requires Valid()
      modifies source
      ensures View() == Pass(old(View()), timer.reason, Listens(l))
      ensures if source.cancelled then source.calls == old(source.calls) + [Call(l, source.reason)] else l in source.listeners
    {
      var _ := source.OnCancelled(l);
    }
  }
}
