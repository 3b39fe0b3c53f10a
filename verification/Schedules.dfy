/** Schedules: server-side validation of loosely typed input, and the store behind create, update and toggle. */
module Schedules {
  import opened Prelude

  /** A value as the webview sends it. */
  datatype Js = Undefined | Null | Str(s: string) | Num(n: real) | Bool(b: bool) | Object

  /** The first operand unless it is null or undefined. */
  function Or(a: Js, b: Js): Js { if a.Undefined? || a.Null? then b else a }

  datatype Input = Input(id: Js, name: Js, prompt: Js, kind: Js, atIso: Js, everyMinutes: Js, dailyAt: Js,
                         timezone: Js, missedRunPolicy: Js, enabled: Js, maxRetries: Js)

  /** What the runtime knows: the clock, the date and number parsers, the time zones. */
  datatype Env = Env(now: int, parseDate: string -> Option<int>, isoOf: int -> string,
                     number: string -> Option<real>, isZone: string -> bool)

  const MAX_NAME := 100
  const MAX_PROMPT := 4000
  const MIN_EVERY_MINUTES := 1
  const MAX_EVERY_MINUTES := 43200
  const MAX_RETRIES := 5
  const MAX_ZONE := 64

  datatype Kind = Once | Recurring

  datatype Missed = Skip | RunOnce | RunAll

  datatype Schedule = Schedule(kind: Kind, atIso: Option<string>, everyMinutes: Option<int>, dailyAt: Option<string>,
                               timezone: Option<string>, missed: Missed, enabled: bool, maxRetries: int,
                               name: string, prompt: string)

  datatype Error =
    | NameRequired | PromptRequired | KindInvalid | AtRequired | AtInvalid | AtPast | OnceTakesOnlyAt
    | NeedsExactlyOne | EveryNotInteger | EveryTooSmall | EveryTooBig | DailyNotString | DailyInvalid
    | ZoneUnknown | ZoneNeedsDaily | RecurringTakesNoAt | PolicyInvalid | EnabledInvalid | RetriesInvalid
    | ServiceDisposed | IdInvalid | IdExists | IdUnknown | RunActive

  datatype Result<T> = Ok(value: T) | Err(errors: seq<Error>)

  function Trim(s: string): string {
    if s == "" then ""
    else if IsSpace(s[0]) then Trim(s[1..])
    else if IsSpace(s[|s| - 1]) then Trim(s[..|s| - 1])
    else s
  }

  function Take(s: string, n: nat): string { if |s| <= n then s else s[..n] }

  function Text(j: Js, max: nat): string { if j.Str? then Take(Trim(j.s), max) else "" }

  predicate IsDigit(c: char) { '0' <= c <= '9' }

  function Digit(c: char): int
    requires IsDigit(c)
  {
    c as int - '0' as int
  }

  /** A time of day, `H:MM` or `HH:MM`, in its padded form. */
  function Daily(t: string): Option<string> {
    if |t| == 4 && IsDigit(t[0]) && t[1] == ':' && IsDigit(t[2]) && IsDigit(t[3]) && Digit(t[2]) <= 5
    then Some(['0', t[0], ':', t[2], t[3]])
    else if |t| == 5 && IsDigit(t[0]) && IsDigit(t[1]) && t[2] == ':' && IsDigit(t[3]) && IsDigit(t[4])
            && 10 * Digit(t[0]) + Digit(t[1]) <= 23 && Digit(t[3]) <= 5
    then Some(t)
    else None
  }

  /** A number given as such or as text. */
  function NumberOf(j: Js, env: Env): Option<real> {
    if j.Str? && Trim(j.s) != "" then env.number(j.s) else if j.Num? then Some(j.n) else None
  }

  predicate IsInteger(r: real) { r == r.Floor as real }

  /** What a field contributes: a value, or an error, or nothing. */
  datatype Field<T> = Value(value: T) | Fault(error: Error)

  function AtField(j: Js, env: Env): Field<string> {
    if !j.Str? || Trim(j.s) == "" then Fault(AtRequired)
    else
      var at := env.parseDate(j.s);
      if at == None then Fault(AtInvalid) else if at.value <= env.now then Fault(AtPast) else Value(env.isoOf(at.value))
  }

  function EveryField(j: Js, env: Env): Field<int> {
    var n := NumberOf(j, env);
    if n == None || !IsInteger(n.value) then Fault(EveryNotInteger)
    else if n.value < MIN_EVERY_MINUTES as real then Fault(EveryTooSmall)
    else if n.value > MAX_EVERY_MINUTES as real then Fault(EveryTooBig)
    else Value(n.value.Floor)
  }

  function DailyField(j: Js): Field<string> {
    if !j.Str? then Fault(DailyNotString)
    else
      var d := Daily(Trim(j.s));
      if d == None then Fault(DailyInvalid) else Value(d.value)
  }

  predicate IsValidTimezone(j: Js, env: Env) { j.Str? && 0 < |j.s| <= MAX_ZONE && env.isZone(j.s) }

  function MissedField(j: Js): Field<Missed> {
    if j.Undefined? || j == Str("skip") then Value(Skip)
    else if j == Str("run-once") then Value(RunOnce)
    else if j == Str("run-all") then Value(RunAll)
    else Fault(PolicyInvalid)
  }

  function EnabledField(j: Js): Field<bool> {
    if j.Undefined? then Value(true) else if j.Bool? then Value(j.b) else Fault(EnabledInvalid)
  }

  function RetriesField(j: Js, env: Env): Field<int> {
    if j.Undefined? then Value(0)
    else
      var n := NumberOf(j, env);
      if n == None || !IsInteger(n.value) || n.value < 0.0 || n.value > MAX_RETRIES as real
      then Fault(RetriesInvalid) else Value(n.value.Floor)
  }

  // ---- What is accepted, stated as one condition ----------------------------------------------------

  ghost predicate AcceptableOnce(i: Input, env: Env) {
    AtField(i.atIso, env).Value? && i.everyMinutes.Undefined? && i.dailyAt.Undefined?
  }

  ghost predicate AcceptableEvery(i: Input, env: Env) {
    EveryField(i.everyMinutes, env).Value? && !i.everyMinutes.Undefined? && i.dailyAt.Undefined? && i.timezone.Undefined?
    && i.atIso.Undefined?
  }

  ghost predicate AcceptableDaily(i: Input, env: Env) {
    DailyField(i.dailyAt).Value? && i.everyMinutes.Undefined? && i.atIso.Undefined?
    && (i.timezone.Undefined? || IsValidTimezone(i.timezone, env))
  }

  ghost predicate Acceptable(i: Input, env: Env) {
    && Text(i.name, MAX_NAME) != "" && Text(i.prompt, MAX_PROMPT) != ""
    && MissedField(i.missedRunPolicy).Value? && EnabledField(i.enabled).Value? && RetriesField(i.maxRetries, env).Value?
    && ((i.kind == Str("once") && AcceptableOnce(i, env))
        || (i.kind == Str("recurring") && (AcceptableEvery(i, env) || AcceptableDaily(i, env))))
  }

  /** The stored form of acceptable input. */
  ghost function Normal(i: Input, env: Env): Schedule
    requires Acceptable(i, env)
  {
    var once := i.kind == Str("once");
    Schedule(if once then Once else Recurring,
             if once then Some(AtField(i.atIso, env).value) else None,
             if !once && !i.everyMinutes.Undefined? then Some(EveryField(i.everyMinutes, env).value) else None,
             if !once && !i.dailyAt.Undefined? then Some(DailyField(i.dailyAt).value) else None,
             if !once && i.timezone.Str? then Some(i.timezone.s) else None,
             MissedField(i.missedRunPolicy).value, EnabledField(i.enabled).value, RetriesField(i.maxRetries, env).value,
             Text(i.name, MAX_NAME), Text(i.prompt, MAX_PROMPT))
  }

  /** The validation as it runs, collecting every error. */
  method ValidateScheduleInput(i: Input, env: Env) returns (r: Result<Schedule>)
    ensures r.Ok? <==> Acceptable(i, env)
    ensures r.Ok? ==> r.value == Normal(i, env)
    ensures r.Err? ==> r.errors != []
  {
    var errors: seq<Error> := [];
    var name, prompt := Text(i.name, MAX_NAME), Text(i.prompt, MAX_PROMPT);
    if name == "" {
      errors := errors + [NameRequired];
    }
    if prompt == "" {
      errors := errors + [PromptRequired];
    }
    if i.kind != Str("once") && i.kind != Str("recurring") {
      errors := errors + [KindInvalid];
    }
    var timing, more := ValidateTiming(i, env);
    errors := errors + more;
    var missed := MissedField(i.missedRunPolicy);
    if missed.Fault? {
      errors := errors + [missed.error];
    }
    var enabled := EnabledField(i.enabled);
    if enabled.Fault? {
      errors := errors + [enabled.error];
    }
    var retries := RetriesField(i.maxRetries, env);
    if retries.Fault? {
      errors := errors + [retries.error];
    }
    if |errors| > 0 {
      return Err(errors);
    }
    return Ok(Schedule(if i.kind == Str("once") then Once else Recurring, timing.atIso, timing.everyMinutes, timing.dailyAt,
                       timing.timezone, missed.value, enabled.value, retries.value, name, prompt));
  }

  datatype Timing = Timing(atIso: Option<string>, everyMinutes: Option<int>, dailyAt: Option<string>, timezone: Option<string>)

  /** The part that depends on the kind. */
  method ValidateTiming(i: Input, env: Env) returns (t: Timing, errors: seq<Error>)
    ensures i.kind == Str("once") ==>
      && (errors == [] <==> AcceptableOnce(i, env))
      && (errors == [] ==> t == Timing(Some(AtField(i.atIso, env).value), None, None, None))
    ensures i.kind == Str("recurring") ==>
      && (errors == [] <==> AcceptableEvery(i, env) || AcceptableDaily(i, env))
      && (errors == [] ==> t == Timing(None,
            if i.everyMinutes.Undefined? then None else Some(EveryField(i.everyMinutes, env).value),
            if i.dailyAt.Undefined? then None else Some(DailyField(i.dailyAt).value),
            if i.timezone.Str? then Some(i.timezone.s) else None))
    ensures i.kind != Str("once") && i.kind != Str("recurring") ==> errors == [] && t == Timing(None, None, None, None)
  {
    t, errors := Timing(None, None, None, None), [];
    if i.kind == Str("once") {
      var at := AtField(i.atIso, env);
      match at {
        case Fault(error) => errors := errors + [error];
        case Value(iso) => t := t.(atIso := Some(iso));
      }
      if !i.everyMinutes.Undefined? || !i.dailyAt.Undefined? {
        errors := errors + [OnceTakesOnlyAt];
      }
    }
    if i.kind == Str("recurring") {
      var hasEvery, hasDaily := !i.everyMinutes.Undefined?, !i.dailyAt.Undefined?;
      if hasEvery == hasDaily {
        errors := errors + [NeedsExactlyOne];
      }
      if hasEvery {
        var every := EveryField(i.everyMinutes, env);
        match every {
          case Fault(error) => errors := errors + [error];
          case Value(n) => t := t.(everyMinutes := Some(n));
        }
      }
      if hasDaily {
        var daily := DailyField(i.dailyAt);
        match daily {
          case Fault(error) => errors := errors + [error];
          case Value(hhmm) => t := t.(dailyAt := Some(hhmm));
        }
        if !i.timezone.Undefined? {
          if !IsValidTimezone(i.timezone, env) {
            errors := errors + [ZoneUnknown];
          } else {
            t := t.(timezone := Some(i.timezone.s));
          }
        }
      } else if !i.timezone.Undefined? {
        errors := errors + [ZoneNeedsDaily];
      }
      if !i.atIso.Undefined? {
        errors := errors + [RecurringTakesNoAt];
      }
    }
  }

  // ---- What is accepted and stored, field by field ------------------------------------------------------

  /** Trimming takes away what is blank at either end, and nothing else. */
  lemma {:induction false} TrimMeans(s: string) returns (i: nat, j: nat)
    ensures i <= j <= |s| && Trim(s) == s[i..j] && Blank(s[..i]) && Blank(s[j..])
    ensures Trim(s) != "" ==> !IsSpace(s[i]) && !IsSpace(s[j - 1])
    ensures Trim(s) == "" <==> Blank(s)
  {
    if s == "" {
      i, j := 0, 0;
    } else if IsSpace(s[0]) {
      hide Trim, Blank, IsSpace;
      i, j := TrimMeans(s[1..]);
      TrimFirst(s);
      SkipFirst(s, i, j);
      i, j := i + 1, j + 1;
    } else if IsSpace(s[|s| - 1]) {
      hide Trim, Blank, IsSpace;
      i, j := TrimMeans(s[..|s| - 1]);
      TrimLast(s);
      SkipLast(s, i, j);
    } else {
      i, j := 0, |s|;
      assert s[0] in s;
    }
  }

  lemma {:induction false} SkipFirst(s: string, i: nat, j: nat)
    requires s != "" && IsSpace(s[0]) && i <= j <= |s| - 1
    ensures s[1..][i..j] == s[i + 1..j + 1] && s[1..][j..] == s[j + 1..]
    ensures Blank(s[..i + 1]) <==> Blank(s[1..][..i])
    ensures Blank(s) <==> Blank(s[1..])
  {
    hide Blank, IsSpace;
    BlankFirst(s);
    BlankFirst(s[..i + 1]);
    assert s[..i + 1][1..] == s[1..][..i];
  }

  lemma {:induction false} SkipLast(s: string, i: nat, j: nat)
    requires s != "" && IsSpace(s[|s| - 1]) && i <= j <= |s| - 1
    ensures s[..|s| - 1][i..j] == s[i..j] && s[..|s| - 1][..i] == s[..i]
    ensures Blank(s[j..]) <==> Blank(s[..|s| - 1][j..])
    ensures Blank(s) <==> Blank(s[..|s| - 1])
  {
    hide Blank, IsSpace;
    BlankLast(s);
    BlankLast(s[j..]);
    assert s[j..][..|s[j..]| - 1] == s[..|s| - 1][j..];
  }

  lemma {:induction false} BlankFirst(s: string)
    requires s != ""
    ensures Blank(s) <==> IsSpace(s[0]) && Blank(s[1..])
  {
    assert s == [s[0]] + s[1..];
  }

  lemma {:induction false} BlankLast(s: string)
    requires s != ""
    ensures Blank(s) <==> Blank(s[..|s| - 1]) && IsSpace(s[|s| - 1])
  {
    assert s == s[..|s| - 1] + [s[|s| - 1]];
  }

  lemma {:induction false} TrimFirst(s: string)
    requires s != "" && IsSpace(s[0])
    ensures Trim(s) == Trim(s[1..])
  {
  }

  lemma {:induction false} TrimLast(s: string)
    requires s != "" && !IsSpace(s[0]) && IsSpace(s[|s| - 1])
    ensures Trim(s) == Trim(s[..|s| - 1])
  {
  }

  function Two(n: nat): string
    requires n < 100
  {
    ["0123456789"[n / 10], "0123456789"[n % 10]]
  }

  /** `t` is a time of day, with or without a leading zero, and `padded` its form with one. */
  ghost predicate IsTime(t: string, padded: string, h: nat, m: nat) {
    h <= 23 && m <= 59 && padded == Two(h) + ":" + Two(m) && (t == padded || (h <= 9 && t == Decimal(h) + ":" + Two(m)))
  }

  ghost predicate IsTimeOfDay(t: string, padded: string) { exists h: nat, m: nat :: IsTime(t, padded, h, m) }

  lemma {:induction false} DigitIs(c: char)
    ensures IsDigit(c) ==> 0 <= Digit(c) <= 9 && "0123456789"[Digit(c)] == c
    ensures forall n: nat | n < 10 :: IsDigit("0123456789"[n]) && Digit("0123456789"[n]) == n
  {
  }

  lemma {:induction false} DailyIff(t: string, padded: string)
    ensures Daily(t) == Some(padded) <==> IsTimeOfDay(t, padded)
  {
    forall c: char ensures IsDigit(c) ==> 0 <= Digit(c) <= 9 && "0123456789"[Digit(c)] == c {
      DigitIs(c);
    }
    if h: nat, m: nat :| IsTime(t, padded, h, m) {
      TimeIsRead(t, padded, h, m);
    }
    if Daily(t) == Some(padded) {
      hide IsDigit, Digit;
      if |t| == 4 {
        ShortTime(t, padded);
      } else {
        LongTime(t, padded);
      }
    }
  }

  lemma {:induction false} TimeIsRead(t: string, padded: string, h: nat, m: nat)
    requires IsTime(t, padded, h, m)
    ensures Daily(t) == Some(padded)
  {
    DigitIs('0');
    var p, q, x, y := "0123456789"[h / 10], "0123456789"[h % 10], "0123456789"[m / 10], "0123456789"[m % 10];
    assert padded == [p, q, ':', x, y];
    if t != padded {
      assert Decimal(h) == [q];
      assert t == [q, ':', x, y];
    }
  }

  lemma {:induction false} ShortTime(t: string, padded: string)
    requires |t| == 4 && Daily(t) == Some(padded)
    ensures IsTimeOfDay(t, padded)
  {
    DigitIs(t[0]);
    DigitIs(t[2]);
    DigitIs(t[3]);
    var h, m: nat := Digit(t[0]), 10 * Digit(t[2]) + Digit(t[3]);
    assert Two(h) == ['0', t[0]] && Two(m) == [t[2], t[3]] && Decimal(h) == [t[0]];
    assert t == Decimal(h) + ":" + Two(m);
    assert IsTime(t, padded, h, m);
  }

  lemma {:induction false} LongTime(t: string, padded: string)
    requires |t| == 5 && Daily(t) == Some(padded)
    ensures IsTimeOfDay(t, padded)
  {
    DigitIs(t[0]);
    DigitIs(t[1]);
    DigitIs(t[3]);
    DigitIs(t[4]);
    var h, m: nat := 10 * Digit(t[0]) + Digit(t[1]), 10 * Digit(t[3]) + Digit(t[4]);
    assert Two(h) == [t[0], t[1]] && Two(m) == [t[3], t[4]];
    assert t == Two(h) + ":" + Two(m);
    assert IsTime(t, padded, h, m);
  }

  ghost predicate IsText(j: Js) { j.Str? && !Blank(j.s) }

  /** The field gives the whole number `n`, as a number or as text. */
  ghost predicate GivesInt(j: Js, env: Env, n: int) {
    (j.Num? && j.n == n as real) || (IsText(j) && env.number(j.s) == Some(n as real))
  }

  ghost predicate GivesIntWithin(j: Js, env: Env, lo: int, hi: int) { exists n :: lo <= n <= hi && GivesInt(j, env, n) }

  ghost predicate GivesTimeOfDay(j: Js) { j.Str? && exists padded :: IsTimeOfDay(Trim(j.s), padded) }

  lemma {:induction false} NumberIff(j: Js, env: Env, n: int)
    ensures GivesInt(j, env, n) <==> NumberOf(j, env) == Some(n as real)
  {
    if j.Str? {
      var _, _ := TrimMeans(j.s);
    }
  }

  lemma {:induction false} EveryIff(j: Js, env: Env)
    ensures EveryField(j, env).Value? <==> GivesIntWithin(j, env, 1, 43200)
    ensures EveryField(j, env).Value? ==> GivesInt(j, env, EveryField(j, env).value)
  {
    hide GivesInt, NumberOf;
    if EveryField(j, env).Value? {
      NumberIff(j, env, EveryField(j, env).value);
    }
    if n :| 1 <= n <= 43200 && GivesInt(j, env, n) {
      NumberIff(j, env, n);
    }
  }

  lemma {:induction false} RetriesIff(j: Js, env: Env)
    ensures RetriesField(j, env).Value? <==> j.Undefined? || GivesIntWithin(j, env, 0, 5)
    ensures RetriesField(j, env).Value? ==>
      if j.Undefined? then RetriesField(j, env).value == 0 else GivesInt(j, env, RetriesField(j, env).value)
  {
    hide GivesInt, NumberOf;
    if RetriesField(j, env).Value? {
      NumberIff(j, env, RetriesField(j, env).value);
    }
    if n :| 0 <= n <= 5 && GivesInt(j, env, n) {
      NumberIff(j, env, n);
    }
  }

  lemma {:induction false} DailyFieldIff(j: Js)
    ensures DailyField(j).Value? <==> GivesTimeOfDay(j)
    ensures DailyField(j).Value? ==> j.Str? && IsTimeOfDay(Trim(j.s), DailyField(j).value)
  {
    hide Daily, Trim, IsTimeOfDay;
    if j.Str? {
      forall padded ensures Daily(Trim(j.s)) == Some(padded) <==> IsTimeOfDay(Trim(j.s), padded) {
        DailyIff(Trim(j.s), padded);
      }
    }
  }

  lemma {:induction false} TextIs(j: Js, max: nat)
    requires max > 0
    ensures Text(j, max) != "" <==> IsText(j)
    ensures IsText(j) ==> Text(j, max) == Trim(j.s)[..Min(max, |Trim(j.s)|)]
  {
    if j.Str? {
      var _, _ := TrimMeans(j.s);
    }
  }

  ghost predicate GivesMoment(j: Js, env: Env) {
    IsText(j) && env.parseDate(j.s).Some? && env.parseDate(j.s).value > env.now
  }

  lemma {:induction false} AtIff(j: Js, env: Env)
    ensures AtField(j, env).Value? <==> GivesMoment(j, env)
    ensures AtField(j, env).Value? ==> AtField(j, env).value == env.isoOf(env.parseDate(j.s).value)
  {
    if j.Str? {
      var _, _ := TrimMeans(j.s);
    }
  }

  ghost predicate GivesZone(j: Js, env: Env) { j.Str? && 1 <= |j.s| <= 64 && env.isZone(j.s) }

  /**
   * Accepted are a name and a prompt that are not blank, a known policy if any, a flag if any, up
   * to five retries, and either one moment in the future, or one of an interval of up to thirty
   * days and a time of day, the latter with a known time zone if any.
   */
  lemma {:induction false} AcceptableIff(i: Input, env: Env)
    ensures Acceptable(i, env) <==>
      && IsText(i.name) && IsText(i.prompt)
      && i.missedRunPolicy in {Undefined, Str("skip"), Str("run-once"), Str("run-all")}
      && (i.enabled.Undefined? || i.enabled.Bool?)
      && (i.maxRetries.Undefined? || GivesIntWithin(i.maxRetries, env, 0, 5))
      && ((i.kind == Str("once") && GivesMoment(i.atIso, env) && i.everyMinutes.Undefined? && i.dailyAt.Undefined?)
          || (i.kind == Str("recurring") && i.atIso.Undefined?
              && ((GivesIntWithin(i.everyMinutes, env, 1, 43200) && i.dailyAt.Undefined? && i.timezone.Undefined?)
                  || (GivesTimeOfDay(i.dailyAt) && i.everyMinutes.Undefined?
                      && (i.timezone.Undefined? || GivesZone(i.timezone, env))))))
  {
    hide Text, AtField, EveryField, DailyField, RetriesField, GivesIntWithin, GivesTimeOfDay, IsText;
    TextIs(i.name, MAX_NAME);
    TextIs(i.prompt, MAX_PROMPT);
    AtIff(i.atIso, env);
    EveryIff(i.everyMinutes, env);
    NothingGives(env, 1, 43200);
    DailyFieldIff(i.dailyAt);
    RetriesIff(i.maxRetries, env);
  }

  lemma {:induction false} NothingGives(env: Env, lo: int, hi: int)
    ensures !GivesIntWithin(Undefined, env, lo, hi)
  {
  }

  /** What is stored of accepted input. */
  lemma {:induction false} StoredIs(i: Input, env: Env)
    requires Acceptable(i, env)
    ensures IsText(i.name) && IsText(i.prompt)
    ensures
      var s, name, prompt := Normal(i, env), Trim(i.name.s), Trim(i.prompt.s);
      && s.name == name[..Min(100, |name|)] && s.prompt == prompt[..Min(4000, |prompt|)]
      && (s.enabled <==> i.enabled.Undefined? || i.enabled.b)
      && (s.missed == RunOnce <==> i.missedRunPolicy == Str("run-once"))
      && (s.missed == RunAll <==> i.missedRunPolicy == Str("run-all"))
      && (if i.maxRetries.Undefined? then s.maxRetries == 0 else GivesInt(i.maxRetries, env, s.maxRetries))
      && (s.kind.Once? <==> i.kind == Str("once"))
      && (s.kind.Once? ==> i.atIso.Str? && env.parseDate(i.atIso.s).Some?
                           && s.atIso == Some(env.isoOf(env.parseDate(i.atIso.s).value)) && s.timezone == None)
      && (s.everyMinutes.Some? <==> !i.everyMinutes.Undefined?) && (s.dailyAt.Some? <==> !i.dailyAt.Undefined?)
      && (s.everyMinutes.Some? ==> GivesInt(i.everyMinutes, env, s.everyMinutes.value))
      && (s.dailyAt.Some? ==>
            && i.dailyAt.Str? && IsTimeOfDay(Trim(i.dailyAt.s), s.dailyAt.value)
            && s.timezone == (if i.timezone.Undefined? then None else Some(i.timezone.s)))
  {
    hide Text, AtField, EveryField, DailyField, RetriesField, IsText, GivesInt, IsTimeOfDay, Trim;
    TextIs(i.name, MAX_NAME);
    TextIs(i.prompt, MAX_PROMPT);
    AtIff(i.atIso, env);
    EveryIff(i.everyMinutes, env);
    DailyFieldIff(i.dailyAt);
    RetriesIff(i.maxRetries, env);
    OnlyText(i.name);
    OnlyText(i.prompt);
    OnlyText(i.atIso);
  }

  lemma {:induction false} OnlyText(j: Js)
    ensures IsText(j) ==> j.Str?
  {
  }

  // ---- The store -----------------------------------------------------------------------------------

  /** A stored definition with its bookkeeping. */
  datatype Definition = Definition(schedule: Schedule, createdAtMs: int, lastRunAtMs: Option<int>)

  type Store = map<string, Definition>

  predicate IsIdChar(c: char) { IsDigit(c) || 'a' <= c <= 'z' || 'A' <= c <= 'Z' || c == '_' || c == '-' }

  predicate IsValidScheduleId(j: Js) {
    j.Str? && 1 <= |j.s| <= 64 && j.s[0] != '_' && j.s[0] != '-' && forall c | c in j.s :: IsIdChar(c)
  }

  function MissedName(m: Missed): string {
    match m
    case Skip => "skip"
    case RunOnce => "run-once"
    case RunAll => "run-all"
  }

  function JsText(o: Option<string>): Js { if o.Some? then Str(o.value) else Undefined }

  function JsInt(o: Option<int>): Js { if o.Some? then Num(o.value as real) else Undefined }

  /** An edit, with every field it does not give taken from the stored schedule. */
  function Merged(i: Input, s: Schedule): Input {
    Input(Undefined, Or(i.name, Str(s.name)), Or(i.prompt, Str(s.prompt)),
          Or(i.kind, Str(if s.kind.Once? then "once" else "recurring")),
          Or(i.atIso, JsText(s.atIso)), Or(i.everyMinutes, JsInt(s.everyMinutes)), Or(i.dailyAt, JsText(s.dailyAt)),
          Or(i.timezone, JsText(s.timezone)), Or(i.missedRunPolicy, Str(MissedName(s.missed))),
          Or(i.enabled, Bool(s.enabled)), Or(i.maxRetries, Num(s.maxRetries as real)))
  }

  /** The stored definition; creation time and bookkeeping survive. */
  function Upserted(store: Store, id: string, s: Schedule, now: int): Store {
    var was := if id in store then Some(store[id]) else None;
    store[id := Definition(s, if was.Some? then was.value.createdAtMs else now, if was.Some? then was.value.lastRunAtMs else None)]
  }

  datatype Event =
    | Create(input: Input, newId: string, env: Env)
    | Update(id: Js, input: Input, env: Env)
    | SetEnabled(id: Js, enabled: Js, env: Env)
    | Remove(id: Js, active: bool)
    | Ran(key: string, at: int)

  ghost function Next(store: Store, e: Event): Store {
    match e
    case Create(i, newId, env) =>
      var id := if i.id.Undefined? then Str(newId) else i.id;
      if !Acceptable(i, env) || (!i.id.Undefined? && !IsValidScheduleId(i.id)) || (!i.id.Undefined? && i.id.s in store) then store
      else Upserted(store, id.s, Normal(i, env), env.now)
    case Update(id, i, env) =>
      if !IsValidScheduleId(id) || id.s !in store || !Acceptable(Merged(i, store[id.s].schedule), env) then store
      else Upserted(store, id.s, Normal(Merged(i, store[id.s].schedule), env), env.now)
    case SetEnabled(id, enabled, env) =>
      if !IsValidScheduleId(id) || !enabled.Bool? || id.s !in store then store
      else Upserted(store, id.s, store[id.s].schedule.(enabled := enabled.b), env.now)
    case Remove(id, active) =>
      if !IsValidScheduleId(id) || active || id.s !in store then store else store - {id.s}
    case Ran(id, at) =>
      if id in store then store[id := store[id].(lastRunAtMs := Some(at))] else store
  }

  ghost function Run(es: seq<Event>): Store {
    if es == [] then map[] else Next(Run(es[..|es| - 1]), es[|es| - 1])
  }

  class ScheduleService {
    var disposed: bool
    var store: Store

    constructor ()
      ensures !disposed && store == map[]
    {
      disposed, store := false, map[];
    }

    method CreateSchedule(i: Input, newId: string, env: Env) returns (r: Result<string>)
      modifies this`store
      ensures store == if disposed then old(store) else Next(old(store), Create(i, newId, env))
      ensures r.Ok? <==>
        !disposed && Acceptable(i, env) && (i.id.Undefined? || (IsValidScheduleId(i.id) && i.id.s !in old(store)))
      ensures r.Ok? ==> r.value in store && store[r.value].schedule == Normal(i, env)
      ensures r.Err? ==> store == old(store)
    {
      if disposed {
        return Err([ServiceDisposed]);
      }
      var v := ValidateScheduleInput(i, env);
      if v.Err? {
        return Err(v.errors);
      }
      var id: string;
      if i.id.Undefined? {
        id := newId;
      } else if IsValidScheduleId(i.id) {
        if i.id.s in store {
          return Err([IdExists]);
        }
        id := i.id.s;
      } else {
        return Err([IdInvalid]);
      }
      store := Upserted(store, id, v.value, env.now);
      return Ok(id);
    }

    method UpdateSchedule(id: Js, i: Input, env: Env) returns (r: Result<string>)
      modifies this`store
      ensures store == if disposed then old(store) else Next(old(store), Update(id, i, env))
      ensures r.Ok? <==>
        !disposed && IsValidScheduleId(id) && id.s in old(store) && Acceptable(Merged(i, old(store)[id.s].schedule), env)
      ensures r.Ok? ==>
        && r.value == id.s && store.Keys == old(store).Keys
        && store[id.s].schedule == Normal(Merged(i, old(store)[id.s].schedule), env)
      ensures r.Err? ==> store == old(store)
    {
      if disposed {
        return Err([ServiceDisposed]);
      }
      if !IsValidScheduleId(id) {
        return Err([IdInvalid]);
      }
      if id.s !in store {
        return Err([IdUnknown]);
      }
      var v := ValidateScheduleInput(Merged(i, store[id.s].schedule), env);
      if v.Err? {
        return Err(v.errors);
      }
      store := Upserted(store, id.s, v.value, env.now);
      return Ok(id.s);
    }

    method SetScheduleEnabled(id: Js, enabled: Js, env: Env) returns (r: Result<string>)
      modifies this`store
      ensures store == if disposed then old(store) else Next(old(store), SetEnabled(id, enabled, env))
      ensures r.Ok? <==> !disposed && IsValidScheduleId(id) && enabled.Bool? && id.s in old(store)
      ensures store == if r.Err? then old(store) else
        var d := old(store)[id.s];
        old(store)[id.s := d.(schedule := d.schedule.(enabled := enabled.b))]
    {
      if disposed {
        return Err([ServiceDisposed]);
      }
      if !IsValidScheduleId(id) {
        return Err([IdInvalid]);
      }
      if !enabled.Bool? {
        return Err([EnabledInvalid]);
      }
      if id.s !in store {
        return Err([IdUnknown]);
      }
      store := Upserted(store, id.s, store[id.s].schedule.(enabled := enabled.b), env.now);
      return Ok(id.s);
    }

    method RemoveSchedule(id: Js, active: bool) returns (r: Result<string>)
      modifies this`store
      ensures store == if disposed then old(store) else Next(old(store), Remove(id, active))
      ensures r.Ok? <==> !disposed && IsValidScheduleId(id) && !active && id.s in old(store)
      ensures store == if r.Ok? then old(store) - {id.s} else old(store)
    {
      if disposed {
        return Err([ServiceDisposed]);
      }
      if !IsValidScheduleId(id) {
        return Err([IdInvalid]);
      }
      if active {
        return Err([RunActive]);
      }
      if id.s !in store {
        return Err([IdUnknown]);
      }
      store := store - {id.s};
      return Ok(id.s);
    }
  }

  // ---- One trigger, for good ---------------------------------------------------------------------------

  datatype Trigger = AtTime | EveryMinutes | DailyTime

  /** Exactly one trigger, of the kind's own sort, within its bounds. */
  ghost predicate Sound(s: Schedule) {
    && (match s.kind
        case Once => s.atIso.Some? && s.everyMinutes == None && s.dailyAt == None && s.timezone == None
        case Recurring =>
          s.atIso == None &&
          ((s.everyMinutes.Some? && MIN_EVERY_MINUTES <= s.everyMinutes.value <= MAX_EVERY_MINUTES
            && s.dailyAt == None && s.timezone == None)
           || (s.dailyAt.Some? && Daily(s.dailyAt.value) == s.dailyAt && s.everyMinutes == None)))
    && 0 <= s.maxRetries <= MAX_RETRIES && 0 < |s.name| <= MAX_NAME && 0 < |s.prompt| <= MAX_PROMPT
  }

  function TriggerOf(s: Schedule): Trigger {
    if s.kind.Once? then AtTime else if s.everyMinutes.Some? then EveryMinutes else DailyTime
  }

  lemma {:induction false} DailyIsCanonical(t: string)
    ensures Daily(t).Some? ==> |Daily(t).value| == 5 && Daily(Daily(t).value) == Daily(t)
  {
  }

  lemma {:induction false} NormalIsSound(i: Input, env: Env)
    requires Acceptable(i, env)
    ensures Sound(Normal(i, env))
  {
    hide Daily, Trim, Take;
    TakeLength(i.name, MAX_NAME);
    TakeLength(i.prompt, MAX_PROMPT);
    if i.dailyAt.Str? {
      DailyIsCanonical(Trim(i.dailyAt.s));
    }
  }

  lemma {:induction false} TakeLength(j: Js, max: nat)
    ensures |Text(j, max)| <= max
  {
  }

  /** An accepted edit keeps the trigger's sort: the stored trigger stays in the merge, and a mixture is refused. */
  lemma {:induction false} EditKeepsTrigger(s: Schedule, i: Input, env: Env)
    requires Sound(s) && Acceptable(Merged(i, s), env)
    ensures TriggerOf(Normal(Merged(i, s), env)) == TriggerOf(s) && Normal(Merged(i, s), env).kind == s.kind
  {
    hide Daily, Trim, Take, Text, AtField, EveryField, DailyField;
  }

  ghost predicate AllSound(store: Store) { forall id | id in store :: Sound(store[id].schedule) }

  lemma {:induction false} NextKeeps(store: Store, e: Event, id: string)
    requires AllSound(store)
    ensures AllSound(Next(store, e))
    ensures !e.Create? && id in store && id in Next(store, e) ==>
      TriggerOf(Next(store, e)[id].schedule) == TriggerOf(store[id].schedule)
      && Next(store, e)[id].createdAtMs == store[id].createdAtMs
  {
    hide Sound, Acceptable, Normal, Merged, TriggerOf;
    match e
    case Create(i, newId, env) =>
      if Acceptable(i, env) {
        NormalIsSound(i, env);
      }
    case Update(j, i, env) =>
      if IsValidScheduleId(j) && j.s in store && Acceptable(Merged(i, store[j.s].schedule), env) {
        NormalIsSound(Merged(i, store[j.s].schedule), env);
        EditKeepsTrigger(store[j.s].schedule, i, env);
      }
    case SetEnabled(j, enabled, env) =>
      if IsValidScheduleId(j) && j.s in store && enabled.Bool? {
        ToggleIsSound(store[j.s].schedule, enabled.b);
      }
    case Remove(_, _) =>
    case Ran(_, _) =>
  }

  lemma {:induction false} ToggleIsSound(s: Schedule, enabled: bool)
    requires Sound(s)
    ensures Sound(s.(enabled := enabled)) && TriggerOf(s.(enabled := enabled)) == TriggerOf(s)
  {
  }

  /** Every schedule reached from the empty store has exactly one trigger, within its bounds. */
  lemma {:induction false} ReachedSchedulesAreSound(es: seq<Event>)
    ensures AllSound(Run(es))
  {
    hide Next, Sound;
    if es != [] {
      ReachedSchedulesAreSound(es[..|es| - 1]);
      NextKeeps(Run(es[..|es| - 1]), es[|es| - 1], "");
    }
  }

  /** The identifier is never removed, nor created over (a generated identifier may not be in use). */
  ghost predicate Lives(es: seq<Event>, id: string) {
    forall e | e in es :: (e.Remove? ==> e.id != Str(id)) && (e.Create? ==> !(e.input.id.Undefined? && e.newId == id))
  }

  /** From its creation to its removal a schedule keeps its sort of trigger and its creation time. */
  lemma {:induction false} TriggerNeverChanges(es: seq<Event>, more: seq<Event>, id: string)
    requires id in Run(es) && Lives(more, id)
    ensures var before, after := Run(es), Run(es + more);
      id in after && TriggerOf(after[id].schedule) == TriggerOf(before[id].schedule)
      && after[id].createdAtMs == before[id].createdAtMs
    decreases |more|
  {
    hide TriggerOf, AllSound, Next;
    if more == [] {
      assert es + more == es;
    } else {
      var init, e := more[..|more| - 1], more[|more| - 1];
      assert more == init + [e];
      TriggerNeverChanges(es, init, id);
      assert (es + more)[..|es + more| - 1] == es + init;
      var s := Run(es + init);
      ReachedSchedulesAreSound(es + init);
      StepKeepsOne(s, e, id);
    }
  }

  lemma {:induction false} StepKeepsOne(s: Store, e: Event, id: string)
    requires AllSound(s) && id in s
    requires (e.Remove? ==> e.id != Str(id)) && (e.Create? ==> !(e.input.id.Undefined? && e.newId == id))
    ensures id in Next(s, e) && TriggerOf(Next(s, e)[id].schedule) == TriggerOf(s[id].schedule)
    ensures Next(s, e)[id].createdAtMs == s[id].createdAtMs
  {
    hide TriggerOf, Acceptable, Normal, Merged, AllSound;
    NextKeeps(s, e, id);
  }

  // ---- What an edit does -------------------------------------------------------------------------------

  ghost predicate Given(j: Js) { !j.Undefined? && !j.Null? }

  lemma {:induction false} MergedIs(i: Input, s: Schedule)
    ensures
      var m := Merged(i, s);
      && (m.name == if Given(i.name) then i.name else Str(s.name))
      && (m.prompt == if Given(i.prompt) then i.prompt else Str(s.prompt))
      && (m.enabled == if Given(i.enabled) then i.enabled else Bool(s.enabled))
      && (m.missedRunPolicy == if Given(i.missedRunPolicy) then i.missedRunPolicy else Str(MissedName(s.missed)))
      && (m.maxRetries == if Given(i.maxRetries) then i.maxRetries else Num(s.maxRetries as real))
      && (m.atIso == if Given(i.atIso) then i.atIso else JsText(s.atIso))
      && (m.everyMinutes == if Given(i.everyMinutes) then i.everyMinutes else JsInt(s.everyMinutes))
      && (m.dailyAt == if Given(i.dailyAt) then i.dailyAt else JsText(s.dailyAt))
      && (m.timezone == if Given(i.timezone) then i.timezone else JsText(s.timezone))
      && (Given(m.maxRetries) && Given(m.enabled) && Given(m.missedRunPolicy))
  {
  }

  /** An accepted edit stores what it gives: the texts, the flag, the policy and the retries. */
  lemma {:induction false} EditTakesGiven(s: Schedule, i: Input, env: Env)
    requires Sound(s) && Acceptable(Merged(i, s), env)
    ensures
      var t := Normal(Merged(i, s), env);
      var name := if Given(i.name) then i.name else Str(s.name);
      var prompt := if Given(i.prompt) then i.prompt else Str(s.prompt);
      && name.Str? && t.name == Trim(name.s)[..Min(100, |Trim(name.s)|)]
      && prompt.Str? && t.prompt == Trim(prompt.s)[..Min(4000, |Trim(prompt.s)|)]
      && (if Given(i.enabled) then i.enabled == Bool(t.enabled) else t.enabled == s.enabled)
      && (if Given(i.missedRunPolicy) then
            i.missedRunPolicy == Str(match t.missed case Skip => "skip" case RunOnce => "run-once" case RunAll => "run-all")
          else t.missed == s.missed)
      && (if Given(i.maxRetries) then GivesInt(i.maxRetries, env, t.maxRetries) else t.maxRetries == s.maxRetries)
  {
    hide Text, Trim, AtField, EveryField, DailyField, RetriesField, Merged, Sound, GivesInt;
    var m := Merged(i, s);
    MergedIs(i, s);
    TextIs(m.name, MAX_NAME);
    TextIs(m.prompt, MAX_PROMPT);
    OnlyText(m.name);
    OnlyText(m.prompt);
    RetriesIff(m.maxRetries, env);
    GivenInt(s.maxRetries, env, Normal(m, env).maxRetries);
    Policies();
  }

  lemma {:induction false} Policies()
    ensures "skip" != "run-once" && "skip" != "run-all" && "run-once" != "run-all"
  {
    assert "skip"[0] == 's' && |"run-once"| != |"run-all"| && "run-once"[0] == "run-all"[0] == 'r';
  }

  lemma {:induction false} GivenInt(n: int, env: Env, m: int)
    ensures GivesInt(Num(n as real), env, m) <==> m == n
  {
  }

  /** And its trigger: what is given replaces the stored value of that sort, and what is not given stays. */
  lemma {:induction false} EditTakesTrigger(s: Schedule, i: Input, env: Env)
    requires Sound(s) && Acceptable(Merged(i, s), env)
    ensures
      var t := Normal(Merged(i, s), env);
      && (s.kind.Once? && Given(i.atIso) ==>
            i.atIso.Str? && env.parseDate(i.atIso.s).Some? && t.atIso == Some(env.isoOf(env.parseDate(i.atIso.s).value)))
      && (Given(i.everyMinutes) ==> t.everyMinutes.Some? && GivesInt(i.everyMinutes, env, t.everyMinutes.value))
      && (!Given(i.everyMinutes) ==> t.everyMinutes == s.everyMinutes)
      && (Given(i.dailyAt) ==> i.dailyAt.Str? && t.dailyAt.Some? && IsTimeOfDay(Trim(i.dailyAt.s), t.dailyAt.value))
      && (!Given(i.dailyAt) ==> t.dailyAt == s.dailyAt)
      && (s.kind.Recurring? ==> t.timezone == if Given(i.timezone) then Some(i.timezone.s) else s.timezone)
  {
    hide Text, Trim, Daily, AtField, EveryField, DailyField, RetriesField, Merged, Sound, GivesInt, IsTimeOfDay, TriggerOf;
    var m := Merged(i, s);
    MergedIs(i, s);
    EditKeepsTrigger(s, i, env);
    SoundTriggers(s);
    AtIff(m.atIso, env);
    OnlyText(m.atIso);
    EveryIff(m.everyMinutes, env);
    if s.everyMinutes.Some? && Normal(m, env).everyMinutes.Some? {
      GivenInt(s.everyMinutes.value, env, Normal(m, env).everyMinutes.value);
    }
    DailyFieldIff(m.dailyAt);
    if s.dailyAt.Some? {
      StoredTime(s.dailyAt.value);
    }
  }

  lemma {:induction false} SoundTriggers(s: Schedule)
    requires Sound(s)
    ensures s.dailyAt.Some? ==> Daily(s.dailyAt.value) == s.dailyAt
    ensures s.kind.Once? ==> s.everyMinutes == None && s.dailyAt == None && s.timezone == None
    ensures s.kind.Recurring? ==> s.atIso == None
  {
  }

  lemma {:induction false} StoredTime(t: string)
    requires Daily(t) == Some(t)
    ensures DailyField(Str(t)) == Value(t)
  {
    DailyIsTrim(t);
  }

  /** What one operation changes of the store: the schedule it names, and of that not its history. */
  lemma {:induction false} StepTouchesOne(store: Store, e: Event, id: string)
    requires id in store
    ensures
      var next := Next(store, e);
      match e
      case Create(i, newId, env) =>
        id in next && (!i.id.Undefined? || id != newId ==> next[id] == store[id])
      case Update(j, _, _) =>
        && id in next && next[id].createdAtMs == store[id].createdAtMs && next[id].lastRunAtMs == store[id].lastRunAtMs
        && (j != Str(id) ==> next[id] == store[id])
      case SetEnabled(j, enabled, _) =>
        && id in next && next[id] == store[id].(schedule := next[id].schedule)
        && (next[id].schedule == store[id].schedule
            || (j == Str(id) && enabled == Bool(next[id].schedule.enabled)
                && next[id].schedule == store[id].schedule.(enabled := next[id].schedule.enabled)))
      case Remove(j, active) => if id in next then next[id] == store[id] else j == Str(id) && !active
      case Ran(j, at) => id in next && next[id] == if j == id then store[id].(lastRunAtMs := Some(at)) else store[id]
  {
    hide Acceptable, Normal, Merged, IsValidScheduleId;
    match e
    case Create(i, newId, env) => ValidIsText(i.id);
    case Update(j, i, env) => ValidIsText(j);
    case SetEnabled(j, enabled, env) => ValidIsText(j);
    case Remove(j, active) => ValidIsText(j);
    case Ran(_, _) =>
  }

  lemma {:induction false} ValidIsText(j: Js)
    ensures IsValidScheduleId(j) ==> j.Str?
  {
  }

  /** A schedule that is created starts now and has never run. */
  lemma {:induction false} CreatedIsNew(store: Store, i: Input, newId: string, env: Env, id: string)
    requires id !in store && id in Next(store, Create(i, newId, env))
    ensures
      var d := Next(store, Create(i, newId, env))[id];
      && d.createdAtMs == env.now && d.lastRunAtMs == None && Acceptable(i, env) && d.schedule == Normal(i, env)
      && id == if i.id.Undefined? then newId else i.id.s
  {
    hide Acceptable, Normal, IsValidScheduleId;
    ValidIsText(i.id);
  }

  ghost predicate IsWordChar(c: char) { '0' <= c <= '9' || 'a' <= c <= 'z' || 'A' <= c <= 'Z' }

  /** Letters, digits, dashes and underscores, up to 64, and a letter or digit first. */
  ghost predicate IsSafe(id: string) {
    1 <= |id| <= 64 && IsWordChar(id[0]) && forall c | c in id :: IsWordChar(c) || c == '_' || c == '-'
  }

  /** Every identifier in the store is safe or was generated. */
  lemma {:induction false} IdsAreSafe(es: seq<Event>, id: string)
    requires id in Run(es)
    ensures IsSafe(id) || exists e :: e in es && e.Create? && e.input.id.Undefined? && e.newId == id
  {
    hide Next, IsSafe;
    var init, e := es[..|es| - 1], es[|es| - 1];
    assert es == init + [e];
    if id in Run(init) {
      IdsAreSafe(init, id);
    } else {
      NewIdIsSafe(Run(init), e, id);
    }
  }

  lemma {:induction false} NewIdIsSafe(store: Store, e: Event, id: string)
    requires id !in store && id in Next(store, e)
    ensures e.Create? && ((e.input.id.Undefined? && e.newId == id) || IsSafe(id))
  {
    hide Acceptable, Normal, Merged;
    if e.Create? && !e.input.id.Undefined? {
      assert id == e.input.id.s && id[0] in id;
    }
  }

  // ---- What an edit cannot do ----------------------------------------------------------------------------

  /** A one-time schedule whose moment has passed accepts an edit only together with a new moment, in the future. */
  lemma {:induction false} PastOnceNeedsNewMoment(s: Schedule, i: Input, env: Env)
    requires Sound(s) && s.kind.Once?
    requires env.parseDate(s.atIso.value).Some? && env.parseDate(s.atIso.value).value <= env.now
    requires Acceptable(Merged(i, s), env)
    ensures i.atIso.Str? && env.parseDate(i.atIso.s).Some? && env.parseDate(i.atIso.s).value > env.now
  {
    hide Daily, Trim, Take, Text, EveryField, DailyField;
  }

  const Nothing: Input := Input(Undefined, Undefined, Undefined, Undefined, Undefined, Undefined, Undefined,
                                Undefined, Undefined, Undefined, Undefined)

  /** The stored text reads back as it is. */
  ghost predicate Settled(s: Schedule, env: Env) {
    && Text(Str(s.name), MAX_NAME) == s.name && Text(Str(s.prompt), MAX_PROMPT) == s.prompt
    && (s.timezone.Some? ==> IsValidTimezone(Str(s.timezone.value), env))
    && (s.atIso.Some? ==>
          Trim(s.atIso.value) != "" && env.parseDate(s.atIso.value).Some? && env.parseDate(s.atIso.value).value > env.now
          && env.isoOf(env.parseDate(s.atIso.value).value) == s.atIso.value)
  }

  lemma {:induction false} DailyIsTrim(t: string)
    requires Daily(t) == Some(t)
    ensures Trim(t) == t
  {
    assert !IsSpace(t[0]) && !IsSpace(t[|t| - 1]);
  }

  /** An edit that gives nothing changes nothing, exactly when the stored text reads back as it is. */
  lemma {:induction false} EmptyEditIsIdentityIff(s: Schedule, env: Env)
    requires Sound(s)
    ensures (Acceptable(Merged(Nothing, s), env) && Normal(Merged(Nothing, s), env) == s) <==> Settled(s, env)
  {
    hide Daily, Trim, Take, Text;
    if s.dailyAt.Some? {
      DailyIsTrim(s.dailyAt.value);
    }
    if s.everyMinutes.Some? {
      IntRoundTrip(s.everyMinutes.value);
    }
    IntRoundTrip(s.maxRetries);
    TakeLength(Str(s.name), MAX_NAME);
  }

  lemma {:induction false} IntRoundTrip(n: int)
    ensures (n as real).Floor == n && IsInteger(n as real)
  {
  }

  /** A name cut at its maximal length may end in a space, which the next edit drops. */
  lemma {:induction false} CutNameIsStableIff(name: string)
    requires name != ""  && !IsSpace(name[0])
    ensures Text(Str(name), |name|) == name <==> !IsSpace(name[|name| - 1])
  {
    if IsSpace(name[|name| - 1]) {
      TrimShrinks(name[..|name| - 1]);
    }
  }

  lemma {:induction false} TrimShrinks(s: string)
    ensures |Trim(s)| <= |s|
    decreases |s|
  {
    if s != "" && IsSpace(s[0]) {
      TrimShrinks(s[1..]);
    } else if s != "" && IsSpace(s[|s| - 1]) {
      TrimShrinks(s[..|s| - 1]);
    }
  }

  function Letters(n: nat): (s: string)
    ensures |s| == n && forall i | 0 <= i < n :: s[i] == 'a'
  {
    seq(n, _ => 'a')
  }

  /** A name whose hundredth character is a space is stored with it, and loses it at the next edit that keeps it. */
  lemma {:induction false} CutNameLosesSpace()
    ensures var typed := Letters(99) + " b"; var stored := Text(Str(typed), MAX_NAME);
      stored == Letters(99) + " " && Text(Str(stored), MAX_NAME) == Letters(99)
  {
    var letters := Letters(99);
    var typed, stored := letters + " b", letters + " ";
    TrimNothing(typed);
    TrimNothing(letters);
    assert typed[..100] == stored;
    assert stored[..|stored| - 1] == letters && stored[0] == 'a' && stored[|stored| - 1] == ' ';
    assert Trim(stored) == letters;
  }

  lemma {:induction false} TrimNothing(s: string)
    requires s != "" && !IsSpace(s[0]) && !IsSpace(s[|s| - 1])
    ensures Trim(s) == s
  {
  }
}
