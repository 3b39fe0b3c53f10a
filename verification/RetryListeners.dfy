/** What a retried operation leaves on the token it was given. */
module RetryListeners {
  import opened Prelude
  import opened Cancellation
  import opened Retry

  ghost predicate NoDispose(es: seq<Event>) { forall e | e in es :: !e.Dispose? }

  /** The events of others: they do not have the listeners from `first` on, which the delays create. */
  ghost predicate Foreign(es: seq<Event>, first: Listener) {
    forall e | e in es :: (e.Register? || e.Unsubscribe? ==> e.listener < first)
  }

  /** Without what the delays registered. */
  function Outside(es: seq<Event>, first: Listener): seq<Event> {
    if es == [] then []
    else
      var e := es[|es| - 1];
      Outside(es[..|es| - 1], first) + if e.Register? && e.listener >= first then [] else [e]
  }

  /** The listeners that the delays registered. */
  function Own(es: seq<Event>, first: Listener): seq<Listener> {
    if es == [] then []
    else
      var e := es[|es| - 1];
      Own(es[..|es| - 1], first) + if e.Register? && e.listener >= first then [e.listener] else []
  }

  function Below(ls: seq<Listener>, first: Listener): seq<Listener> {
    if ls == [] then [] else Below(ls[..|ls| - 1], first) + if ls[|ls| - 1] < first then [ls[|ls| - 1]] else []
  }

  function From(ls: seq<Listener>, first: Listener): seq<Listener> {
    if ls == [] then [] else From(ls[..|ls| - 1], first) + if ls[|ls| - 1] < first then [] else [ls[|ls| - 1]]
  }

  // ---- The token's life as one sequence of events ----------------------------------------------

  function TrialEvents<T, E>(t: Trial<T, E>, l: Listener): seq<Event> {
    t.during + [Register(l)] + t.waiting
  }

  /** What happens to the token in the turns before `n`. */
  function Before<T, E>(trials: nat -> Trial<T, E>, first: Listener, n: nat): seq<Event> {
    if n == 0 then [] else Before(trials, first, n - 1) + TrialEvents(trials(n - 1), first + (n - 1))
  }

  /** What happens to the token in a call whose last turn is `last`. */
  function Life<T, E>(p: Policy, s: Signal, trials: nat -> Trial<T, E>, first: Listener, last: nat): seq<Event> {
    Before(trials, first, last) +
    if AtHead(s, trials, first, last).reason.Some? then []
    else if Delays(p, last, TurnAt(s, trials, first, last)) then TrialEvents(trials(last), first + last)
    else trials(last).during
  }

  lemma {:induction false} TrialRuns<T, E>(s: Signal, t: Trial<T, E>, l: Listener)
    ensures Run(s, TrialEvents(t, l)) == AfterDelay(s, t, l)
  {
    hide Next;
    RunAppend(s, t.during + [Register(l)], t.waiting);
    RunAppend(s, t.during, [Register(l)]);
    assert [Register(l)][..0] == [];
  }

  lemma {:induction false} HeadRuns<T, E>(s: Signal, trials: nat -> Trial<T, E>, first: Listener, n: nat)
    ensures AtHead(s, trials, first, n) == Run(s, Before(trials, first, n))
  {
    hide Next, TrialEvents, AfterDelay;
    if n > 0 {
      HeadRuns(s, trials, first, n - 1);
      RunAppend(s, Before(trials, first, n - 1), TrialEvents(trials(n - 1), first + (n - 1)));
      TrialRuns(AtHead(s, trials, first, n - 1), trials(n - 1), first + (n - 1));
    }
  }

  /** The state a call leaves the token in is that after these events. */
  lemma {:induction false} LifeRuns<T, E>(p: Policy, s: Signal, trials: nat -> Trial<T, E>, first: Listener, last: nat)
    ensures AtEnd(p, s, trials, first, last) == Run(s, Life(p, s, trials, first, last))
  {
    hide Next, TrialEvents, AfterDelay, Before, AtHead, Delays, TurnAt, Run;
    var head, before := AtHead(s, trials, first, last), Before(trials, first, last);
    HeadRuns(s, trials, first, last);
    TrialRuns(head, trials(last), first + last);
    RunAppend(s, before, TrialEvents(trials(last), first + last));
    RunAppend(s, before, trials(last).during);
    assert before + [] == before;
  }

  // ---- The listeners of the delays -------------------------------------------------------------

  lemma {:induction false} OwnAppend(es: seq<Event>, more: seq<Event>, first: Listener)
    ensures Own(es + more, first) == Own(es, first) + Own(more, first)
  {
    if more == [] {
      assert es + more == es;
    } else {
      OwnAppend(es, more[..|more| - 1], first);
      assert (es + more)[..|es + more| - 1] == es + more[..|more| - 1];
    }
  }

  lemma {:induction false} ForeignOwn(es: seq<Event>, first: Listener)
    requires Foreign(es, first)
    ensures Own(es, first) == []
  {
    if es != [] {
      ForeignOwn(es[..|es| - 1], first);
    }
  }

  lemma {:induction false} TrialOwn<T, E>(t: Trial<T, E>, first: Listener, l: Listener)
    requires Foreign(t.during, first) && Foreign(t.waiting, first) && l >= first
    ensures Own(TrialEvents(t, l), first) == [l]
  {
    OwnAppend(t.during + [Register(l)], t.waiting, first);
    OwnAppend(t.during, [Register(l)], first);
    ForeignOwn(t.during, first);
    ForeignOwn(t.waiting, first);
    assert [Register(l)][..0] == [];
  }

  lemma {:induction false} NoneForeign(first: Listener)
    ensures Foreign([], first)
  {
  }

  function Numbers(first: Listener, n: nat): (r: seq<Listener>) {
    seq(n, i requires 0 <= i => first + i)
  }

  ghost predicate AllForeign<T, E>(trials: nat -> Trial<T, E>, first: Listener) {
    forall i: nat :: Foreign(trials(i).during, first) && Foreign(trials(i).waiting, first)
  }

  lemma {:induction false} NumbersSnoc(first: Listener, n: nat)
    ensures Numbers(first, n) + [first + n] == Numbers(first, n + 1) && Numbers(first, n) + [] == Numbers(first, n)
    ensures Numbers(first, 0) == []
  {
  }

  lemma {:induction false} OneMoreOwn(es: seq<Event>, more: seq<Event>, first: Listener, n: nat)
    requires Own(es, first) == Numbers(first, n) && Own(more, first) == [first + n]
    ensures Own(es + more, first) == Numbers(first, n + 1)
  {
    OwnAppend(es, more, first);
    NumbersSnoc(first, n);
  }

  lemma {:induction false} BeforeOwn<T, E>(trials: nat -> Trial<T, E>, first: Listener, n: nat)
    requires AllForeign(trials, first)
    ensures Own(Before(trials, first, n), first) == Numbers(first, n)
  {
    hide TrialEvents, Foreign, Own, Numbers;
    if n == 0 {
      ForeignOwn([], first) by {
        NoneForeign(first);
      }
      NumbersSnoc(first, 0);
    } else {
      BeforeOwn(trials, first, n - 1);
      TrialOwn(trials(n - 1), first, first + (n - 1));
      OneMoreOwn(Before(trials, first, n - 1), TrialEvents(trials(n - 1), first + (n - 1)), first, n - 1);
    }
  }

  /** How many delays a call announces. */
  function Announced<T, E>(p: Policy, script: nat -> Turn<T, E>, last: nat): nat {
    last + if Delays(p, last, script(last)) then 1 else 0
  }

  lemma {:induction false} LifeOwn<T, E>(p: Policy, s: Signal, trials: nat -> Trial<T, E>, first: Listener, last: nat)
    requires AllForeign(trials, first)
    ensures Own(Life(p, s, trials, first, last), first) == Numbers(first, Announced(p, Script(s, trials, first), last))
  {
    hide TrialEvents, Foreign, AtHead, Before, Own, Numbers;
    var before := Before(trials, first, last);
    BeforeOwn(trials, first, last);
    TrialOwn(trials(last), first, first + last);
    ForeignOwn(trials(last).during, first);
    OwnAppend(before, TrialEvents(trials(last), first + last), first);
    OwnAppend(before, trials(last).during, first);
    assert before + [] == before;
    NumbersSnoc(first, last);
  }

  // ---- What is left on the token -----------------------------------------------------------------

  ghost predicate OwnStay(es: seq<Event>, first: Listener) {
    forall e | e in es :: !e.Cancel? && !e.Dispose? && (e.Unsubscribe? ==> e.listener < first)
  }

  lemma {:induction false} SplitSizes(ls: seq<Listener>, first: Listener)
    ensures |ls| == |Below(ls, first)| + |From(ls, first)|
    ensures forall l :: l in Below(ls, first) <==> l in ls && l < first
    ensures forall l :: l in From(ls, first) <==> l in ls && l >= first
  {
    if ls != [] {
      var init, l := ls[..|ls| - 1], ls[|ls| - 1];
      assert ls == init + [l];
      SplitSizes(init, first);
    }
  }

  lemma {:induction false} WithoutSnoc(ls: seq<Listener>, l: Listener, gone: set<Listener>)
    ensures Without(ls + [l], gone) == Without(ls, gone) + if l in gone then [] else [l]
  {
    if ls == [] {
      assert [l][1..] == [] && [] + [l] == [l];
    } else {
      var first, more := if ls[0] in gone then [] else [ls[0]], if l in gone then [] else [l];
      assert (ls + [l])[1..] == ls[1..] + [l];
      WithoutSnoc(ls[1..], l, gone);
      assert first + (Without(ls[1..], gone) + more) == (first + Without(ls[1..], gone)) + more;
    }
  }

  lemma {:induction false} SplitSnoc(ls: seq<Listener>, l: Listener, first: Listener)
    ensures Below(ls + [l], first) == Below(ls, first) + if l < first then [l] else []
    ensures From(ls + [l], first) == From(ls, first) + if l < first then [] else [l]
  {
    assert (ls + [l])[..|ls|] == ls;
  }

  lemma {:induction false} SplitWithout(ls: seq<Listener>, l: Listener, first: Listener)
    requires l < first
    ensures Below(Without(ls, {l}), first) == Without(Below(ls, first), {l})
    ensures From(Without(ls, {l}), first) == From(ls, first)
  {
    hide Without, Below, From;
    if ls == [] {
      NothingSplits(l, first);
    } else {
      var init, x := ls[..|ls| - 1], ls[|ls| - 1];
      assert ls == init + [x];
      SplitWithout(init, l, first);
      WithoutSnoc(init, x, {l});
      SplitSnoc(init, x, first);
      SplitSnoc(Without(init, {l}), x, first);
      WithoutSnoc(Below(init, first), x, {l});
      assert Below(init, first) + [] == Below(init, first) && From(init, first) + [] == From(init, first);
      assert Without(init, {l}) + [] == Without(init, {l});
    }
  }

  lemma {:induction false} NothingSplits(l: Listener, first: Listener)
    ensures Below([], first) == From([], first) == [] == Without([], {l})
  {
  }

  /** `s` is `o` with the listeners `own` among its own, and neither is cancelled. */
  ghost predicate Apart(s: Signal, o: Signal, own: seq<Listener>, first: Listener) {
    && s.reason == o.reason == None && Below(s.listeners, first) == o.listeners
    && From(s.listeners, first) == own
  }

  lemma {:induction false} OwnJoins(s: Signal, o: Signal, own: seq<Listener>, first: Listener, l: Listener)
    requires Apart(s, o, own, first) && l >= first && l !in own
    ensures Apart(Next(s, Register(l)), o, own + [l], first)
  {
    SplitSizes(s.listeners, first);
    SplitSnoc(s.listeners, l, first);
    assert Below(s.listeners, first) + [] == Below(s.listeners, first);
  }

  lemma {:induction false} OtherMoves(s: Signal, o: Signal, own: seq<Listener>, first: Listener, e: Event)
    requires Apart(s, o, own, first) && (e.Register? || e.Unsubscribe?) && e.listener < first
    ensures Apart(Next(s, e), Next(o, e), own, first)
  {
    hide Below, From, Without;
    SplitSizes(s.listeners, first);
    SplitSnoc(s.listeners, e.listener, first);
    SplitWithout(s.listeners, e.listener, first);
    assert From(s.listeners, first) + [] == From(s.listeners, first);
  }

  /** Others' listeners are as they would be without the delays, and those of the delays stay, in order. */
  lemma {:induction false} StayApart(es: seq<Event>, first: Listener)
    requires OwnStay(es, first) && Distinct(Own(es, first))
    ensures Apart(Run(Quiet, es), Run(Quiet, Outside(es, first)), Own(es, first), first)
  {
    if es != [] {
      hide Run, Next, Distinct, Apart;
      var init, e := es[..|es| - 1], es[|es| - 1];
      assert es == init + [e];
      assert e in es;
      RunLast(init, e);
      if e.Register? && e.listener >= first {
        DistinctSnoc(Own(init, first), e.listener);
        StayApart(init, first);
        assert Outside(init, first) + [] == Outside(init, first);
        OwnJoins(Run(Quiet, init), Run(Quiet, Outside(init, first)), Own(init, first), first, e.listener);
      } else {
        assert Own(init, first) + [] == Own(init, first);
        StayApart(init, first);
        RunLast(Outside(init, first), e);
        OtherMoves(Run(Quiet, init), Run(Quiet, Outside(init, first)), Own(init, first), first, e);
      }
    }
  }

  lemma {:induction false} DistinctSnoc(ls: seq<Listener>, l: Listener)
    requires Distinct(ls + [l])
    ensures Distinct(ls) && l !in ls
  {
    assert (ls + [l])[|ls|] == l;
    forall i, j | 0 <= i < j < |ls| ensures ls[i] != ls[j] {
      assert (ls + [l])[i] != (ls + [l])[j];
    }
    forall i | 0 <= i < |ls| ensures ls[i] != l {
      assert (ls + [l])[i] != (ls + [l])[|ls|];
    }
  }

  /** Once cancelled, a token has no listener and gets none. */
  lemma {:induction false} NoneOnceCancelled(es: seq<Event>)
    ensures Run(Quiet, es).reason.Some? ==> Run(Quiet, es).listeners == []
    ensures Run(Quiet, es).reason == None ==> NoCancel(es)
  {
    if es != [] {
      hide Delivered;
      assert es == es[..|es| - 1] + [es[|es| - 1]];
      NoneOnceCancelled(es[..|es| - 1]);
    }
  }

  lemma {:induction false} BeforeStays<T, E>(trials: nat -> Trial<T, E>, first: Listener, n: nat)
    requires AllForeign(trials, first)
    ensures forall e | e in Before(trials, first, n) :: e.Unsubscribe? ==> e.listener < first
  {
    if n > 0 {
      BeforeStays(trials, first, n - 1);
      assert Foreign(trials(n - 1).during, first) && Foreign(trials(n - 1).waiting, first);
    }
  }

  lemma {:induction false} LifeStays<T, E>(p: Policy, s: Signal, trials: nat -> Trial<T, E>, first: Listener, last: nat)
    requires AllForeign(trials, first)
    ensures forall e | e in Life(p, s, trials, first, last) :: e.Unsubscribe? ==> e.listener < first
  {
    hide AtHead, Before, Delays, TurnAt;
    BeforeStays(trials, first, last);
    assert Foreign(trials(last).during, first) && Foreign(trials(last).waiting, first);
  }

  /**
   * A call leaves one listener on the token for every delay it announced, beside those that would
   * be there without it, unless the token was cancelled or its source disposed; nothing removes
   * the listener of a delay that has passed. A cancelled token is left with none.
   */
  lemma {:induction false} OneListenerPerDelay<T, E>(p: Policy, before: seq<Event>, trials: nat -> Trial<T, E>, first: Listener, last: nat)
    requires Foreign(before, first) && AllForeign(trials, first)
    ensures
      var s := Run(Quiet, before);
      var es, t := before + Life(p, s, trials, first, last), AtEnd(p, s, trials, first, last);
      var others, n := Run(Quiet, Outside(es, first)).listeners, Announced(p, Script(s, trials, first), last);
      && (t.reason.Some? ==> t.listeners == [])
      && (t.reason == None && NoDispose(es) ==>
            && |t.listeners| == |others| + n
            && forall l :: l in t.listeners <==> l in others || first <= l < first + n)
  {
    hide Life, AtEnd, Run, Announced, Script, Outside, Own, Foreign, AllForeign;
    var s := Run(Quiet, before);
    var life, t, n := Life(p, s, trials, first, last), AtEnd(p, s, trials, first, last), Announced(p, Script(s, trials, first), last);
    var es := before + life;
    LifeRuns(p, s, trials, first, last);
    RunAppend(Quiet, before, life);
    NoneOnceCancelled(es);
    if t.reason == None && NoDispose(es) {
      ForeignOwn(before, first);
      LifeOwn(p, s, trials, first, last);
      OwnAppend(before, life, first);
      assert [] + Numbers(first, n) == Numbers(first, n);
      EventsStay(before, life, first) by {
        LifeStays(p, s, trials, first, last);
      }
      NumbersAre(first, n);
      StayApart(es, first);
      SplitSizes(t.listeners, first);
    }
  }

  lemma {:induction false} EventsStay(before: seq<Event>, life: seq<Event>, first: Listener)
    requires Foreign(before, first) && (forall e | e in life :: e.Unsubscribe? ==> e.listener < first)
    requires NoCancel(before + life) && NoDispose(before + life)
    ensures OwnStay(before + life, first)
  {
  }

  lemma {:induction false} NumbersAre(first: Listener, n: nat)
    ensures Distinct(Numbers(first, n)) && |Numbers(first, n)| == n
    ensures forall l :: l in Numbers(first, n) <==> first <= l < first + n
  {
    forall l | first <= l < first + n ensures l in Numbers(first, n) {
      assert Numbers(first, n)[l - first] == l;
    }
  }

  // ---- When a delay is interrupted ---------------------------------------------------------------

  /** The events do not concern listener `l`: nobody else has it, and the source is not disposed. */
  ghost predicate Spares(es: seq<Event>, l: Listener) {
    forall e | e in es ::
      && !e.Dispose? && (e.Register? || e.Unsubscribe? ==> e.listener != l)
      && (e.Cancel? ==> forall x :: l !in e.drops(x))
  }

  ghost predicate AnyCancel(es: seq<Event>) { exists e :: e in es && e.Cancel? }

  lemma {:induction false} CallsGrow(s: Signal, e: Event, l: Listener)
    ensures WasCalled(s.calls, l) ==> WasCalled(Next(s, e).calls, l)
    ensures s.reason.Some? ==> Next(s, e).reason == s.reason
  {
    hide Without, Delivered;
    if WasCalled(s.calls, l) {
      var c :| c in s.calls && c.listener == l;
      assert c in Next(s, e).calls;
    }
  }

  lemma {:induction false} DeliveryReaches(ls: seq<Listener>, drops: Drops, reason: string, l: Listener)
    requires forall x :: l !in drops(x)
    ensures WasCalled(Delivered(ls, drops, reason), l) <==> l in ls
    decreases |ls|
  {
    CalledFew(reason, l);
    if ls != [] {
      hide WasCalled, Without;
      var rest := Without(ls[1..], drops(ls[0]));
      DeliveryReaches(rest, drops, reason, l);
      assert ls == [ls[0]] + ls[1..];
      CalledConcat([Call(ls[0], reason)], Delivered(rest, drops, reason), l);
    }
  }

  lemma {:induction false} CalledFew(reason: string, l: Listener)
    ensures !WasCalled([], l) && forall x: Listener :: WasCalled([Call(x, reason)], l) <==> x == l
  {
    forall x: Listener ensures WasCalled([Call(x, reason)], l) <==> x == l {
      assert [Call(x, reason)][0].listener == x;
    }
  }

  lemma {:induction false} CalledConcat(a: seq<Call>, b: seq<Call>, l: Listener)
    ensures WasCalled(a + b, l) <==> WasCalled(a, l) || WasCalled(b, l)
  {
    if WasCalled(a + b, l) {
      var c :| c in a + b && c.listener == l;
      assert c in a || c in b;
    }
    if WasCalled(a, l) {
      var c :| c in a && c.listener == l;
      assert c in a + b;
    }
    if WasCalled(b, l) {
      var c :| c in b && c.listener == l;
      assert c in a + b;
    }
  }

  /** What one event of others does to a listener that waits: a cancellation calls it, and nothing else does. */
  lemma {:induction false} OneEvent(s: Signal, e: Event, l: Listener)
    requires Spares([e], l) && s.reason == None
    ensures
      var t := Next(s, e);
      && (t.reason.Some? <==> e.Cancel?)
      && (WasCalled(t.calls, l) <==> WasCalled(s.calls, l) || (e.Cancel? && l in s.listeners))
      && (!e.Cancel? ==> (l in t.listeners <==> l in s.listeners))
  {
    assert e in [e];
    hide Without, Delivered, WasCalled;
    if e.Cancel? {
      DeliveryReaches(s.listeners, e.drops, e.reason, l);
      CalledConcat(s.calls, Delivered(s.listeners, e.drops, e.reason), l);
    }
  }

  /** So a waiting listener has been called after some events exactly when one of them cancels. */
  lemma {:induction false} SomeEvents(s: Signal, es: seq<Event>, l: Listener)
    requires Spares(es, l) && s.reason == None && !WasCalled(s.calls, l)
    ensures
      var t := Run(s, es);
      && (t.reason.Some? <==> AnyCancel(es))
      && (WasCalled(t.calls, l) <==> AnyCancel(es) && l in s.listeners)
      && (!AnyCancel(es) ==> (l in t.listeners <==> l in s.listeners))
  {
    if es != [] {
      hide Next, WasCalled;
      var init, e := es[..|es| - 1], es[|es| - 1];
      assert es == init + [e];
      SomeEvents(s, init, l);
      var t := Run(s, init);
      if AnyCancel(init) {
        var c :| c in init && c.Cancel?;
        assert c in es;
        CallsGrow(t, e, l);
        AfterReason(t, e, l);
      } else {
        assert Spares([e], l);
        OneEvent(t, e, l);
        assert AnyCancel(es) <==> e.Cancel?;
      }
    }
  }

  lemma {:induction false} AfterReason(s: Signal, e: Event, l: Listener)
    requires s.reason.Some? && (e.Register? ==> e.listener != l)
    ensures WasCalled(Next(s, e).calls, l) ==> WasCalled(s.calls, l)
  {
    if e.Register? {
      CalledConcat(s.calls, [Call(e.listener, s.reason.value)], l);
    }
  }

  lemma {:induction false} StaysCalled(s: Signal, es: seq<Event>, l: Listener)
    ensures WasCalled(s.calls, l) ==> WasCalled(Run(s, es).calls, l)
  {
    if es != [] {
      hide Next;
      StaysCalled(s, es[..|es| - 1], l);
      CallsGrow(Run(s, es[..|es| - 1]), es[|es| - 1], l);
    }
  }

  /**
   * A delay is interrupted exactly when the token is cancelled during the operation before it or
   * during the delay, when nobody disposes the source.
   */
  lemma {:induction false} DelayEndsIffCancelled<T, E>(s: Signal, t: Trial<T, E>, l: Listener)
    requires Spares(t.during, l) && Spares(t.waiting, l)
    requires s.reason == None && l !in s.listeners && !WasCalled(s.calls, l)
    ensures WasCalled(AfterDelay(s, t, l).calls, l) <==> AnyCancel(t.during) || AnyCancel(t.waiting)
  {
    hide Run, Spares, WasCalled, AnyCancel;
    SomeEvents(s, t.during, l);
    var s1 := Run(s, t.during);
    var s2 := Next(s1, Register(l));
    Registered(s1, l);
    if s1.reason.Some? {
      StaysCalled(s2, t.waiting, l);
    } else {
      SomeEvents(s2, t.waiting, l);
    }
  }

  lemma {:induction false} Registered(s: Signal, l: Listener)
    ensures s.reason.Some? ==> WasCalled(Next(s, Register(l)).calls, l)
    ensures s.reason == None ==> Next(s, Register(l)).calls == s.calls && l in Next(s, Register(l)).listeners
  {
    if s.reason.Some? {
      assert Call(l, s.reason.value) in s.calls + [Call(l, s.reason.value)];
    }
  }
}
