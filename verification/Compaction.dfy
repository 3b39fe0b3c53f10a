/**
 * Context compaction: artifacts that stand for a prefix of a task's conversation, the
 * store that keeps both bounded, and the composition of summary and remaining entries.
 */
module Compaction {
  import opened Prelude
  import opened Protocol
  import opened Conversation

  const MAX_ENTRIES := 200
  const MAX_ARTIFACTS := 20

  /** The sentence put after every summary. */
  const TRAILER :=
    "\n\n(The above is a faithful summary of the earlier conversation; the original full history is preserved. Continue the task.)"

  datatype Mode = Semantic | Fallback

  /** `id` is the boundary timestamp: the stored id is an injective hash of task and timestamp. */
  datatype Artifact = Artifact(id: int, toIndex: nat, summarized: nat, remaining: nat, summaryText: string, mode: Mode)

  /** What the store keeps of a task. */
  datatype Task = Task(conv: seq<Entry>, compactions: seq<Artifact>)

  datatype Outcome = Skipped | Reused(artifact: Artifact, messages: seq<Message>)
                   | Ran(artifact: Artifact, messages: seq<Message>)

  function Appended(t: Task, e: Entry): Task {
    t.(conv := LastN(t.conv + [e], MAX_ENTRIES))
  }

  ghost predicate HasId(artifacts: seq<Artifact>, id: int) {
    exists i :: 0 <= i < |artifacts| && artifacts[i].id == id
  }

  ghost function AddedArtifact(t: Task, a: Artifact): Task {
    if HasId(t.compactions, a.id) then t
    else t.(compactions := LastN(t.compactions + [a], MAX_ARTIFACTS))
  }

  /** Index of the first artifact with an id, or the length when there is none. */
  function FindId(artifacts: seq<Artifact>, id: int): (i: nat)
    ensures i <= |artifacts|
    ensures forall k | 0 <= k < i :: artifacts[k].id != id
    ensures i < |artifacts| ==> artifacts[i].id == id
  {
    if artifacts == [] then 0
    else if artifacts[0].id == id then 0
    else
      var i := FindId(artifacts[1..], id);
      assert forall k | 0 < k < i + 1 :: artifacts[k] == artifacts[1..][k - 1];
      i + 1
  }

  function KeepCount(total: nat): nat {
    Max(4, total * 2 / 5)
  }

  /** Answers a rendered summary of some messages and, possibly, an earlier summary; or nothing. */
  type Summarizer = (seq<Message>, Option<string>) -> Option<string>

  const MAX_TITLE := 300

  /** What stands for a summary when there is none. */
  function FallbackText(title: string, toIndex: nat): string {
    "Earlier conversation was compacted by bounded truncation (semantic summarization was unavailable). " +
    "Original objective: \"" + title[..Min(MAX_TITLE, |title|)] + "\". " + Decimal(toIndex) +
    " earlier messages are preserved in the task store."
  }

  /** The summary a new one is to fold in: that of the latest artifact, if it has one. */
  function PriorText(compactions: seq<Artifact>): Option<string> {
    if compactions != [] && compactions[|compactions| - 1].mode.Semantic?
    then Some(compactions[|compactions| - 1].summaryText) else None
  }

  /** Summary and remaining entries, or nothing when that would be an invalid conversation. */
  ghost function Compose(a: Artifact, conv: seq<Entry>): seq<Message> {
    if a.summaryText == "" then []
    else
      var composed := [SummaryMessage(a.summaryText + TRAILER)] + Wire(conv[Min(a.toIndex, |conv|)..]);
      if Valid(composed) then composed else []
  }

  ghost function Compacted(t: Task, pressure: bool, summarize: Summarizer, title: string): (Task, Outcome) {
    if t.conv == [] || !pressure then (t, Skipped)
    else
      var total := |t.conv|;
      var toIndex := Boundary(t.conv, total - KeepCount(total));
      if toIndex <= 0 then (t, Skipped)
      else
        var id := t.conv[toIndex].ts;
        var at := FindId(t.compactions, id);
        if at < |t.compactions| then
          (t, Reused(t.compactions[at], Compose(t.compactions[at], t.conv)))
        else if Wire(t.conv[..toIndex]) == [] then (t, Skipped)
        else
          var summary := summarize(Wire(t.conv[..toIndex]), PriorText(t.compactions));
          var a := if summary.Some? then Artifact(id, toIndex, toIndex, total - toIndex, summary.value, Semantic)
                   else Artifact(id, toIndex, toIndex, total - toIndex, FallbackText(title, toIndex), Fallback);
          (AddedArtifact(t, a), Ran(a, Compose(a, t.conv)))
  }

  class TaskRecord {
    var conversation: seq<Entry>
    var compactions: seq<Artifact>

    constructor ()
      ensures State() == Task([], [])
    {
      conversation, compactions := [], [];
    }

    ghost function State(): Task
      reads this
    {
      Task(conversation, compactions)
    }

    method AppendMessage(e: Entry)
      modifies this
      ensures State() == Appended(old(State()), e)
    {
      conversation := conversation + [e];
      if |conversation| > MAX_ENTRIES {
        conversation := conversation[|conversation| - MAX_ENTRIES..];
      }
    }

    method AddCompactionArtifact(a: Artifact)
      modifies this
      ensures State() == AddedArtifact(old(State()), a)
    {
      for i := 0 to |compactions|
        invariant forall k | 0 <= k < i :: compactions[k].id != a.id
        invariant unchanged(this)
      {
        if compactions[i].id == a.id {
          return;
        }
      }
      compactions := compactions + [a];
      if |compactions| > MAX_ARTIFACTS {
        compactions := compactions[|compactions| - MAX_ARTIFACTS..];
      }
    }
  }

  method ComposeCompactedMessages(a: Artifact, conv: seq<Entry>) returns (ms: seq<Message>)
    ensures ms == Compose(a, conv)
  {
    if a.summaryText == "" {
      return [];
    }
    ms := [SummaryMessage(a.summaryText + TRAILER)] + Wire(conv[Min(a.toIndex, |conv|)..]);
    var issues := ValidateConversationProtocol(ms);
    if issues != [] {
      return [];
    }
  }

  method CompactIfNeeded(task: TaskRecord, pressure: bool, summarize: Summarizer, title: string) returns (r: Outcome)
    modifies task
    ensures (task.State(), r) == Compacted(old(task.State()), pressure, summarize, title)
  {
    hide Wire, Compose, AddedArtifact, HasId, StartsOrphaned, FallbackText;
    var conv := task.conversation;
    if conv == [] || !pressure {
      return Skipped;
    }
    var total := |conv|;
    var toIndex := SafeCompactionBoundary(conv, total - KeepCount(total));
    if toIndex <= 0 {
      return Skipped;
    }
    var id := conv[toIndex].ts;
    var at := FindId(task.compactions, id);
    if at < |task.compactions| {
      var ms := ComposeCompactedMessages(task.compactions[at], conv);
      return Reused(task.compactions[at], ms);
    }
    var segment := Wire(conv[..toIndex]);
    if segment == [] {
      return Skipped;
    }
    var prior: Option<string> := None;
    if |task.compactions| > 0 && task.compactions[|task.compactions| - 1].mode.Semantic? {
      prior := Some(task.compactions[|task.compactions| - 1].summaryText);
    }
    var summary := summarize(segment, prior);
    var a := if summary.Some? then Artifact(id, toIndex, toIndex, total - toIndex, summary.value, Semantic)
             else Artifact(id, toIndex, toIndex, total - toIndex, FallbackText(title, toIndex), Fallback);
    task.AddCompactionArtifact(a);
    var ms := ComposeCompactedMessages(a, conv);
    return Ran(a, ms);
  }

  // ---- One compaction ---------------------------------------------------------------

  /**
   * Bounds of a compaction that ran: exactly the intended part remains unless the entry at the
   * proposed cut is a user entry with results, which the host itself never writes; and one entry
   * more at most when such entries are paired with the calls before them.
   */
  lemma {:induction false} CompactionBounds(t: Task, pressure: bool, summarize: Summarizer, title: string)
    requires Compacted(t, pressure, summarize, title).1.Ran?
    ensures
      var a := Compacted(t, pressure, summarize, title).1.artifact;
      var total := |t.conv|;
      && 1 <= a.toIndex <= total - 4 && a.summarized + a.remaining == total && a.summarized == a.toIndex
      && KeepCount(total) <= a.remaining
      && (a.remaining == KeepCount(total) <==> !HoldsResults(t.conv[total - KeepCount(total)]))
      && (Valid(AsMessages(t.conv)) ==> a.remaining <= KeepCount(total) + 1)
  {
    hide Compose, Wire, FallbackText, FindId, AddedArtifact, AsMessages, Valid, PriorText;
    var total := |t.conv|;
    var proposed := total - KeepCount(total);
    BoundaryIsProposalIff(t.conv, proposed);
    if Valid(AsMessages(t.conv)) {
      assert 's' in "s" && !IsSpace('s');
      BoundaryKeepsProtocol(t.conv, proposed, Boundary(t.conv, proposed), "s");
    }
  }

  /**
   * Nothing happens without pressure, or when no index before the last two fifths and four entries
   * can be cut at, or when the part before it says nothing. A cut whose moment is known reuses.
   */
  lemma {:induction false} SkippedIff(t: Task, pressure: bool, summarize: Summarizer, title: string)
    ensures
      var (after, outcome) := Compacted(t, pressure, summarize, title);
      var total := |t.conv|;
      var cut := Boundary(t.conv, total - Max(4, total * 2 / 5));
      && (outcome.Skipped? <==>
            t.conv == [] || !pressure || cut <= 0
            || ((forall a | a in t.compactions :: a.id != t.conv[cut].ts) && Wire(t.conv[..cut]) == []))
      && (outcome.Reused? ==>
            && cut > 0 && outcome.artifact in t.compactions && outcome.artifact.id == t.conv[cut].ts
            && outcome.messages == Compose(outcome.artifact, t.conv))
      && (!outcome.Ran? ==> after == t)
      && (outcome.Ran? ==>
            outcome.artifact.toIndex == cut && outcome.messages == Compose(outcome.artifact, t.conv) && after.conv == t.conv)
  {
    hide Wire, Compose, Boundary, IsBoundary, StartsOrphaned, FallbackText;
    var total := |t.conv|;
    var cut := Boundary(t.conv, total - Max(4, total * 2 / 5));
    assert KeepCount(total) == Max(4, total * 2 / 5);
    if t.conv != [] && cut > 0 {
      CutWithin(t.conv, total - KeepCount(total));
      var at := FindId(t.compactions, t.conv[cut].ts);
      assert at < |t.compactions| ==> t.compactions[at] in t.compactions;
    }
  }

  lemma {:induction false} CutWithin(conv: seq<Entry>, proposed: int)
    ensures Boundary(conv, proposed) > 0 ==> Boundary(conv, proposed) <= proposed <= |conv|
  {
  }

  /** What remains is two fifths, rounded down, and four entries at least. */
  lemma {:induction false} TwoFifthsRemain(t: Task, pressure: bool, summarize: Summarizer, title: string)
    requires Compacted(t, pressure, summarize, title).1.Ran? && forall e | e in t.conv :: !HoldsResults(e)
    ensures var n, total := Compacted(t, pressure, summarize, title).1.artifact.remaining, |t.conv|;
      n >= 4 && 5 * n >= 2 * total - 4 && (n == 4 || 5 * n <= 2 * total)
  {
    CompactionBounds(t, pressure, summarize, title);
  }

  /**
   * The summarizer is asked with everything before the boundary, and with the text of the latest
   * stored artifact when that one is a summary. Its answer is the text of the new artifact.
   */
  lemma {:induction false} SummaryIsAnswer(t: Task, pressure: bool, summarize: Summarizer, title: string)
    requires Compacted(t, pressure, summarize, title).1.Ran?
    ensures
      var a, stored := Compacted(t, pressure, summarize, title).1.artifact, t.compactions;
      && a.toIndex < |t.conv| && a.id == t.conv[a.toIndex].ts && (forall b | b in stored :: b.id != a.id)
      && var earlier := if stored != [] && stored[|stored| - 1].mode.Semantic?
                        then Some(stored[|stored| - 1].summaryText) else None;
         var said := summarize(Wire(t.conv[..a.toIndex]), earlier);
         (a.mode.Semantic? <==> said.Some?) && (said.Some? ==> a.summaryText == said.value)
  {
    hide Wire, Compose, AddedArtifact, StartsOrphaned, FallbackText;
    CompactionBounds(t, pressure, summarize, title);
    WhatRan(t, pressure, summarize, title);
    var outcome := Compacted(t, pressure, summarize, title).1;
    assert outcome.artifact.id == t.conv[Boundary(t.conv, |t.conv| - KeepCount(|t.conv|))].ts;
  }

  /** Without an answer, the text names the first 300 characters of the title and how many entries it stands for. */
  lemma {:induction false} FallbackSays(t: Task, pressure: bool, summarize: Summarizer, title: string)
    requires Compacted(t, pressure, summarize, title).1.Ran?
    ensures
      var a := Compacted(t, pressure, summarize, title).1.artifact;
      a.mode.Fallback? ==>
        a.summaryText == (
          "Earlier conversation was compacted by bounded truncation (semantic summarization was unavailable). " +
          "Original objective: \"" + title[..Min(300, |title|)] + "\". " + Decimal(a.toIndex) +
          " earlier messages are preserved in the task store.")
  {
    SummaryOrFallback(t, pressure, summarize, title);
    hide Compacted, Decimal;
  }

  lemma {:induction false} SummaryOrFallback(t: Task, pressure: bool, summarize: Summarizer, title: string)
    requires Compacted(t, pressure, summarize, title).1.Ran?
    ensures var a := Compacted(t, pressure, summarize, title).1.artifact;
      a.mode.Fallback? ==> a.summaryText == FallbackText(title, a.toIndex)
  {
    hide Wire, Compose, AddedArtifact, StartsOrphaned, FallbackText, PriorText, FindId, KeepCount;
  }

  /** A new artifact is put after the latest nineteen others. */
  lemma {:induction false} TwentyLatestStay(t: Task, a: Artifact)
    requires forall b | b in t.compactions :: b.id != a.id
    ensures
      var before, after := t.compactions, AddedArtifact(t, a).compactions;
      && |after| == Min(20, |before| + 1) && after[|after| - 1] == a
      && forall i | 0 <= i < |after| - 1 :: after[i] == before[|before| - (|after| - 1) + i]
  {
  }

  lemma {:induction false} FindAdded(t: Task, a: Artifact)
    requires FindId(t.compactions, a.id) == |t.compactions| && IdsDistinct(t.compactions)
    ensures
      var artifacts := AddedArtifact(t, a).compactions;
      var at := FindId(artifacts, a.id);
      at < |artifacts| && artifacts[at] == a
  {
    AddKeepsDistinct(t, a);
    var artifacts := AddedArtifact(t, a).compactions;
    assert artifacts[|artifacts| - 1] == a;
    assert forall k | 0 <= k < |artifacts| - 1 :: artifacts[k].id != a.id;
  }

  /** Compacting again at once adds nothing and yields the same artifact and messages, whatever the summarizer is. */
  lemma {:induction false} CompactionIdempotent(t: Task, pressure: bool, f: Summarizer, g: Summarizer, title: string)
    requires IdsDistinct(t.compactions)
    requires !Compacted(t, pressure, f, title).1.Skipped?
    ensures
      var (t1, r1) := Compacted(t, pressure, f, title);
      var (t2, r2) := Compacted(t1, pressure, g, title);
      t2 == t1 && r2 == Reused(r1.artifact, r1.messages)
  {
    hide Compose, Wire, Boundary, IsBoundary, IdsDistinct, FallbackText, KeepCount, FindId, PriorText;
    var (t1, r1) := Compacted(t, pressure, f, title);
    assert t1.conv == t.conv;
    if r1.Ran? {
      FindAdded(t, r1.artifact);
    }
  }

  // ---- What the summarizer is told --------------------------------------------------------

  /** How long each message is in a transcript, and how long a transcript may be. */
  datatype Render = Render(size: Message -> nat, maxChars: nat)

  /** How many leading messages fit a budget. */
  function Rendered(ms: seq<Message>, size: Message -> nat, budget: nat): (n: nat)
    ensures n <= |ms|
  {
    if ms == [] || size(ms[0]) > budget then 0 else 1 + Rendered(ms[1..], size, budget - size(ms[0]))
  }

  /** The oldest messages come first, and the first that does not fit ends the transcript. */
  method RenderTranscript(ms: seq<Message>, render: Render) returns (parts: nat)
    ensures parts == Rendered(ms, render.size, render.maxChars)
  {
    var chars := 0;
    parts := 0;
    for i := 0 to |ms|
      invariant parts == i && chars <= render.maxChars
      invariant Rendered(ms, render.size, render.maxChars) == i + Rendered(ms[i..], render.size, render.maxChars - chars)
    {
      assert ms[i..][0] == ms[i] && ms[i..][1..] == ms[i + 1..];
      if chars + render.size(ms[i]) > render.maxChars {
        break;
      }
      parts := parts + 1;
      chars := chars + render.size(ms[i]);
    }
  }

  function TotalSize(ms: seq<Message>, size: Message -> nat): nat {
    if ms == [] then 0 else size(ms[0]) + TotalSize(ms[1..], size)
  }

  /** A prefix is in the transcript exactly when it is not longer than the transcript may be. */
  lemma {:induction false} RenderedIff(ms: seq<Message>, size: Message -> nat, budget: nat, n: nat)
    requires n <= |ms|
    ensures n <= Rendered(ms, size, budget) <==> TotalSize(ms[..n], size) <= budget
  {
    if n > 0 {
      assert ms[..n][0] == ms[0] && ms[..n][1..] == ms[1..][..n - 1];
      if size(ms[0]) <= budget {
        RenderedIff(ms[1..], size, budget - size(ms[0]), n - 1);
      }
    }
  }

  /** How many leading entries have all their messages among the first `rendered`. */
  function Heard(conv: seq<Entry>, rendered: nat): (n: nat)
    ensures n <= |conv|
  {
    if conv == [] || |EntryWire(conv[0])| > rendered then 0 else 1 + Heard(conv[1..], rendered - |EntryWire(conv[0])|)
  }

  lemma {:induction false} HeardIff(conv: seq<Entry>, rendered: nat, n: nat)
    requires n <= |conv|
    ensures n <= Heard(conv, rendered) <==> |Wire(conv[..n])| <= rendered
  {
    hide EntryWire;
    if n > 0 {
      assert conv[..n][0] == conv[0] && conv[..n][1..] == conv[1..][..n - 1];
      if |EntryWire(conv[0])| <= rendered {
        HeardIff(conv[1..], rendered - |EntryWire(conv[0])|, n - 1);
      }
    }
  }

  // ---- Whole runs ---------------------------------------------------------------------

  ghost predicate IdsDistinct(artifacts: seq<Artifact>) {
    forall i, j | 0 <= i < j < |artifacts| :: artifacts[i].id != artifacts[j].id
  }

  lemma {:induction false} AddKeepsDistinct(t: Task, a: Artifact)
    requires IdsDistinct(t.compactions)
    ensures IdsDistinct(AddedArtifact(t, a).compactions)
  {}

  /** What a compaction meets: the pressure, the summarizer, the transcript it gets, the title of the task. */
  datatype Call = Call(pressure: bool, summarize: Summarizer, render: Render, title: string)

  /**
   * A compaction awaits the summarizer between reading the task and storing its artifact;
   * `Begin` and `Land` are its two parts, between which anything may happen, and `Compact`
   * is one that nothing interrupts.
   */
  datatype Event =
    | Append(entry: Entry)
    | Replace(index: nat, entry: Entry)
    | Compact(call: Call)
    | Begin(call: Call)
    | Land(begun: nat)

  /**
   * An artifact and how it was made: how many entries the store had dropped when its
   * conversation was read, how many of its segment were in the transcript, the earlier summary
   * that the summarizer was given, and the artifact that this summary is of.
   */
  datatype Made = Made(artifact: Artifact, base: nat, heard: nat, asked: Option<string>, prior: Option<Made>)

  /**
   * A run so far: every entry ever appended, the task as stored, how its kept artifacts were
   * made, and the compactions that are under way.
   */
  datatype Run = Run(history: seq<Entry>, task: Task, made: seq<Made>, begun: seq<Made>)

  function Dropped(r: Run): int {
    |r.history| - |r.task.conv|
  }

  ghost function Step(r: Run, e: Event): Run {
    match e
    case Append(entry) => r.(history := r.history + [entry], task := Appended(r.task, entry))
    case Replace(i, entry) =>
      if i < |r.task.conv| && 0 <= Dropped(r)
      then r.(history := r.history[Dropped(r) + i := entry], task := r.task.(conv := r.task.conv[i := entry]))
      else r
    case Compact(call) =>
      var m := Making(r, call);
      if m.Some? then Stored(r, m.value) else r
    case Begin(call) =>
      var m := Making(r, call);
      if m.Some? then r.(begun := r.begun + [m.value]) else r
    case Land(i) =>
      if i < |r.begun| then Stored(r.(begun := r.begun[..i] + r.begun[i + 1..]), r.begun[i]) else r
  }

  ghost function OutcomeOf(t: Task, call: Call): Outcome {
    Compacted(t, call.pressure, call.summarize, call.title).1
  }

  /** The artifact a compaction of the task as it is now makes. */
  ghost function Making(r: Run, call: Call): Option<Made> {
    var outcome := OutcomeOf(r.task, call);
    if !outcome.Ran? then None
    else
      var a, segment := outcome.artifact, r.task.conv[..Min(outcome.artifact.toIndex, |r.task.conv|)];
      var heard := Heard(segment, Rendered(Wire(segment), call.render.size, call.render.maxChars));
      var prior := if a.mode.Semantic? && r.made != [] && r.made[|r.made| - 1].artifact.mode.Semantic?
                   then Some(r.made[|r.made| - 1]) else None;
      Some(Made(a, if Dropped(r) < 0 then 0 else Dropped(r), heard, PriorText(r.task.compactions), prior))
  }

  /** The artifact reaches the store, which ignores an id it has. */
  ghost function Stored(r: Run, m: Made): Run {
    if HasId(r.task.compactions, m.artifact.id) then r
    else r.(task := AddedArtifact(r.task, m.artifact), made := LastN(r.made + [m], MAX_ARTIFACTS))
  }

  ghost function After(events: seq<Event>): Run {
    if events == [] then Run([], Task([], []), [], [])
    else Step(After(events[..|events| - 1]), events[|events| - 1])
  }

  ghost predicate RunInv(r: Run) {
    && 0 <= Dropped(r) && r.task.conv == r.history[Dropped(r)..]
    && (|r.history| <= MAX_ENTRIES ==> Dropped(r) == 0)
    && (|r.history| > MAX_ENTRIES ==> |r.task.conv| == MAX_ENTRIES)
    && IdsDistinct(r.task.compactions) && Matches(r.task.compactions, r.made) && |r.made| <= MAX_ARTIFACTS
    && (forall m | m in r.made :: IsMade(m, Dropped(r), |r.task.conv|))
    && (forall m | m in r.begun :: IsMade(m, Dropped(r), |r.task.conv|))
  }

  ghost predicate Matches(artifacts: seq<Artifact>, made: seq<Made>) {
    |artifacts| == |made| && forall k | 0 <= k < |made| :: made[k].artifact == artifacts[k]
  }

  /** Made no later than now, at an index the conversation still has, and after what it folds in. */
  ghost predicate IsMade(m: Made, dropped: int, total: int) {
    m.base <= dropped && 1 <= m.artifact.toIndex <= total - 4 && m.heard <= m.artifact.toIndex && Chained(m)
  }

  /** Each summary was made with the text of the one before; and going back, less and less had been dropped. */
  ghost predicate Chained(m: Made) {
    && (m.artifact.mode.Semantic? ==> m.asked == if m.prior.Some? then Some(m.prior.value.artifact.summaryText) else None)
    && (m.prior.Some? ==>
      m.prior.value.base <= m.base && m.prior.value.artifact.mode.Semantic? && m.artifact.mode.Semantic? && Chained(m.prior.value))
  }

  lemma {:induction false} LastNIn<T>(s: seq<T>, n: nat)
    ensures forall x | x in LastN(s, n) :: x in s
  {
  }

  lemma {:induction false} PushMatches(artifacts: seq<Artifact>, made: seq<Made>, m: Made)
    requires Matches(artifacts, made)
    ensures Matches(LastN(artifacts + [m.artifact], MAX_ARTIFACTS), LastN(made + [m], MAX_ARTIFACTS))
    ensures |LastN(made + [m], MAX_ARTIFACTS)| <= MAX_ARTIFACTS
  {
  }

  lemma {:induction false} StoredKeeps(r: Run, m: Made)
    requires RunInv(r) && IsMade(m, Dropped(r), |r.task.conv|)
    ensures RunInv(Stored(r, m)) && Stored(r, m).task.conv == r.task.conv && Stored(r, m).history == r.history
    ensures !HasId(r.task.compactions, m.artifact.id) ==>
      Stored(r, m).task == AddedArtifact(r.task, m.artifact) && Stored(r, m).made == LastN(r.made + [m], MAX_ARTIFACTS)
  {
    hide IdsDistinct, IsMade, LastN, Matches;
    AddKeepsDistinct(r.task, m.artifact);
    PushMatches(r.task.compactions, r.made, m);
    LastNIn(r.made + [m], MAX_ARTIFACTS);
  }

  lemma {:induction false} MakingIsMade(r: Run, call: Call)
    requires RunInv(r)
    ensures var m := Making(r, call);
      m.Some? ==>
        && IsMade(m.value, Dropped(r), |r.task.conv|) && !HasId(r.task.compactions, m.value.artifact.id)
        && m.value.base == Dropped(r) && m.value.artifact.toIndex <= |r.task.conv|
        && call.summarize(Wire(r.task.conv[..m.value.artifact.toIndex]), m.value.asked) ==
             (if m.value.artifact.mode.Semantic? then Some(m.value.artifact.summaryText) else None)
        && Compacted(r.task, call.pressure, call.summarize, call.title).0 == AddedArtifact(r.task, m.value.artifact)
  {
    hide Compacted, Heard, Rendered, Wire, IdsDistinct;
    if OutcomeOf(r.task, call).Ran? {
      WhatRan(r.task, call.pressure, call.summarize, call.title);
      CompactionBounds(r.task, call.pressure, call.summarize, call.title);
      SummaryIsAnswer(r.task, call.pressure, call.summarize, call.title);
      assert r.made != [] ==> r.made[|r.made| - 1] in r.made;
    }
  }

  /** A compaction that nothing interrupts leaves the store as the engine does in one go. */
  lemma {:induction false} CompactIsBeginLand(r: Run, call: Call)
    requires RunInv(r) && r.begun == []
    ensures Step(r, Compact(call)) == Step(Step(r, Begin(call)), Land(0))
    ensures Step(r, Compact(call)).task == Compacted(r.task, call.pressure, call.summarize, call.title).0
  {
    hide RunInv, Wire, Compose, Boundary, Heard, Rendered, FallbackText;
    MakingIsMade(r, call);
    var m := Making(r, call);
    if m.Some? {
      assert [m.value][..0] + [m.value][1..] == [];
    }
  }

  lemma {:induction false} WhatRan(t: Task, pressure: bool, summarize: Summarizer, title: string)
    requires Compacted(t, pressure, summarize, title).1.Ran?
    ensures var (task, outcome) := Compacted(t, pressure, summarize, title);
      task == AddedArtifact(t, outcome.artifact) && !HasId(t.compactions, outcome.artifact.id)
  {
    hide Wire, Compose, AddedArtifact, StartsOrphaned, FallbackText;
    var outcome := Compacted(t, pressure, summarize, title).1;
    assert outcome.artifact.id == t.conv[Boundary(t.conv, |t.conv| - KeepCount(|t.conv|))].ts;
    assert FindId(t.compactions, outcome.artifact.id) == |t.compactions|;
  }

  /** A grown conversation, or one as long, still has every index it had. */
  lemma {:induction false} StillMade(ms: seq<Made>, dropped: int, total: int, dropped': int, total': int)
    requires (forall m | m in ms :: IsMade(m, dropped, total)) && dropped <= dropped' && total <= total'
    ensures forall m | m in ms :: IsMade(m, dropped', total')
  {
  }

  lemma {:induction false} StepKeeps(r: Run, e: Event)
    requires RunInv(r)
    ensures RunInv(Step(r, e))
  {
    hide Compacted, IdsDistinct, Making, Stored, IsMade, Matches;
    match e
    case Append(entry) =>
      StillMade(r.made, Dropped(r), |r.task.conv|, Dropped(Step(r, e)), |Step(r, e).task.conv|);
      StillMade(r.begun, Dropped(r), |r.task.conv|, Dropped(Step(r, e)), |Step(r, e).task.conv|);
    case Compact(call) =>
      MakingIsMade(r, call);
      if Making(r, call).Some? {
        StoredKeeps(r, Making(r, call).value);
      }
    case Begin(call) => MakingIsMade(r, call);
    case Land(i) =>
      if i < |r.begun| {
        assert r.begun[i] in r.begun;
        StoredKeeps(r.(begun := r.begun[..i] + r.begun[i + 1..]), r.begun[i]);
      }
    case _ =>
  }

  lemma {:induction false} RunKeeps(events: seq<Event>)
    ensures RunInv(After(events))
  {
    if events != [] {
      RunKeeps(events[..|events| - 1]);
      StepKeeps(After(events[..|events| - 1]), events[|events| - 1]);
    }
  }

  /** Ids stay pairwise distinct and the store's bounds hold after any run. */
  lemma {:induction false} ArtifactIdsDistinct(events: seq<Event>)
    ensures
      var task := After(events).task;
      IdsDistinct(task.compactions) && |task.compactions| <= 20 && |task.conv| <= 200
  {
    RunKeeps(events);
  }

  /**
   * After any run, the latest artifact composes with the current conversation to its summary
   * and the wire form of exactly the entries from its boundary on; the empty fallback is
   * taken if and only if the first entry heard there holds loose results.
   */
  lemma {:induction false} LatestRecomposes(events: seq<Event>)
    requires var t := After(events).task;
      && t.compactions != [] && Valid(Wire(t.conv)) && !Blank(t.compactions[|t.compactions| - 1].summaryText)
    ensures
      var t := After(events).task;
      var a := t.compactions[|t.compactions| - 1];
      && a.toIndex <= |t.conv|
      && Compose(a, t.conv) ==
           (if OrphanHead(t.conv, a.toIndex) then []
            else [Message(User, Plain(a.summaryText + "\n\n(The above is a faithful summary of the earlier conversation; the original full history is preserved. Continue the task.)"))]
                 + Wire(t.conv[a.toIndex..]))
      && ((forall e | e in t.conv :: Captured(e)) ==> Compose(a, t.conv) != [])
  {
    hide Wire, OrphanHead, Captured, After;
    RunKeeps(events);
    var t := After(events).task;
    var a := t.compactions[|t.compactions| - 1];
    var text := a.summaryText + TRAILER;
    BlankPrefix(a.summaryText, TRAILER);
    assert After(events).made[|t.compactions| - 1] in After(events).made;
    ComposedValidIff(t.conv, a.toIndex, text);
    if forall e | e in t.conv :: Captured(e) {
      CapturedCutsAnywhere(t.conv, a.toIndex, text);
    }
  }

  lemma {:induction false} BlankPrefix(s: string, t: string)
    requires !Blank(s)
    ensures !Blank(s + t) && s != ""
  {
    var c :| c in s && !IsSpace(c);
    assert c in s + t;
  }

  /** Every stored summary was made from the text of the summary it folds in, and the first of them from none. */
  lemma {:induction false} FoldsStoredText(events: seq<Event>, m: Made)
    requires m in After(events).made && m.artifact.mode.Semantic?
    ensures m.prior.Some? ==>
      m.asked == Some(m.prior.value.artifact.summaryText) && m.prior.value.artifact.mode.Semantic?
    ensures m.prior == None ==> m.asked == None
  {
    hide After;
    RunKeeps(events);
  }

  // ---- What summary and tail leave out --------------------------------------------------------

  /**
   * Position `i` of the full history was told to the summarizer, in the transcript of the
   * artifact's own segment or by the summary folded in. A fallback text tells of no entry.
   */
  predicate Told(m: Made, i: nat) {
    m.artifact.mode.Semantic? &&
    (m.base <= i < m.base + m.heard || (m.prior.Some? && Told(m.prior.value, i)))
  }

  /** Position `i` is part of the tail that the artifact is composed with now. */
  predicate InTail(r: Run, m: Made, i: nat) { Dropped(r) + m.artifact.toIndex <= i }

  /** The end of what was told, going back along the summaries folded in. */
  function End(m: Made): nat {
    if m.prior.Some? then Max(m.base + m.heard, End(m.prior.value)) else m.base + m.heard
  }

  /** Each segment starts no later than what is folded in ends, and the oldest starts at the first entry. */
  predicate Gapless(m: Made) {
    m.base == 0 || (m.prior.Some? && m.base <= End(m.prior.value) && Gapless(m.prior.value))
  }

  /** Nothing is told after the end, and all before it exactly when there is no gap. */
  lemma {:induction false} ToldIffBefore(m: Made, i: nat)
    requires Chained(m) && m.artifact.mode.Semantic?
    ensures Told(m, i) ==> i < End(m)
    ensures Gapless(m) ==> (Told(m, i) <==> i < End(m))
  {
    if m.prior.Some? {
      ToldIffBefore(m.prior.value, i);
    }
  }

  /** A gap shows: some entry before the artifact's own segment was never told. */
  lemma {:induction false} GapShows(m: Made) returns (i: nat)
    requires Chained(m) && m.artifact.mode.Semantic? && !Gapless(m)
    ensures i < m.base && !Told(m, i)
  {
    if m.prior == None {
      i := 0;
    } else if m.base > End(m.prior.value) {
      i := End(m.prior.value);
      ToldIffBefore(m.prior.value, i);
    } else {
      i := GapShows(m.prior.value);
    }
  }

  /**
   * Every entry ever appended was told or is in the tail exactly when the artifact has a
   * summary, there is no gap in what was told, and the tail starts no later than that ends.
   */
  lemma {:induction false} NothingLostIff(events: seq<Event>, m: Made)
    requires m in After(events).made
    ensures
      var r := After(events);
      (forall i: nat | i < |r.history| :: Told(m, i) || InTail(r, m, i)) <==>
        m.artifact.mode.Semantic? && Gapless(m) && Dropped(r) + m.artifact.toIndex <= End(m)
  {
    hide After, Told, Gapless, End;
    RunKeeps(events);
    var r := After(events);
    assert IsMade(m, Dropped(r), |r.task.conv|);
    if m.artifact.mode.Fallback? {
      FallbackTells(m, 0);
      assert 0 < |r.history| && !InTail(r, m, 0);
    } else if !Gapless(m) {
      var i := GapShows(m);
      assert i < |r.history| && !InTail(r, m, i);
    } else {
      forall i: nat | i < |r.history| ensures Told(m, i) <==> i < End(m) {
        ToldIffBefore(m, i);
      }
      if Dropped(r) + m.artifact.toIndex > End(m) {
        assert End(m) < |r.history| && !InTail(r, m, End(m));
      }
    }
  }

  lemma {:induction false} FallbackTells(m: Made, i: nat)
    requires m.artifact.mode.Fallback?
    ensures !Told(m, i)
  {
  }

  /** While the store never dropped an entry, that is so exactly for a summary that was told all of its segment. */
  lemma {:induction false} NeverTrimmedIff(events: seq<Event>, m: Made)
    requires m in After(events).made && |After(events).history| <= 200
    ensures
      var r := After(events);
      (forall i: nat | i < |r.history| :: Told(m, i) || InTail(r, m, i)) <==>
        m.artifact.mode.Semantic? && m.artifact.toIndex <= End(m)
  {
    hide After;
    RunKeeps(events);
    NothingLostIff(events, m);
    assert IsMade(m, Dropped(After(events)), |After(events).task.conv|);
  }

  /** Position `i` lies after the artifact's segment, and before the tail composed with it. */
  ghost predicate InGap(r: Run, m: Made, i: nat) {
    m.base + m.artifact.toIndex <= i < Dropped(r) + m.artifact.toIndex
  }

  /** Nothing falls between segment and tail exactly when the store dropped nothing since the conversation was read. */
  lemma {:induction false} NoGapIffNotTrimmedSince(events: seq<Event>, m: Made)
    requires m in After(events).made
    ensures
      var r := After(events);
      (forall i: nat | i < |r.history| :: !InGap(r, m, i)) <==> Dropped(r) == m.base
  {
    hide After;
    RunKeeps(events);
    var r := After(events);
    assert IsMade(m, Dropped(r), |r.task.conv|);
    if Dropped(r) > m.base {
      var i := m.base + m.artifact.toIndex;
      assert i < |r.history| && InGap(r, m, i);
    }
  }

  // ---- Runs that lose entries, and one that does not ------------------------------------------

  function Said(i: nat): Entry { Entry(User, Some("hi"), None, i) }

  function Says(from: nat, to: nat): (conv: seq<Entry>)
    requires from <= to
  {
    seq(to - from, i requires 0 <= i => Said(from + i))
  }

  /** `n` short messages, each at its own moment. */
  function Talk(n: nat): seq<Event> {
    seq(n, i requires 0 <= i => Append(Said(i)))
  }

  /** A compaction under pressure, with every message as long in the transcript. */
  function Brief(size: nat, answer: Option<string>): Call {
    Call(true, (ms: seq<Message>, prior: Option<string>) => answer, Render((m: Message) => size, 48000), "task")
  }

  lemma {:induction false} AfterSnoc(events: seq<Event>, e: Event)
    ensures After(events + [e]) == Step(After(events), e)
  {
    hide Step;
    assert (events + [e])[..|events|] == events;
  }

  lemma {:induction false} AfterTalk(n: nat)
    ensures After(Talk(n)) == Run(Says(0, n), Task(Says(Max(0, n - MAX_ENTRIES), n), []), [], [])
  {
    if n > 0 {
      hide After;
      AfterTalk(n - 1);
      assert Talk(n) == Talk(n - 1) + [Append(Said(n - 1))];
      AfterSnoc(Talk(n - 1), Append(Said(n - 1)));
      SaysMore(Max(0, n - 1 - MAX_ENTRIES), n - 1);
      SaysMore(0, n - 1);
    } else {
      assert Talk(0) == [];
    }
  }

  lemma {:induction false} SaysMore(from: nat, to: nat)
    requires from <= to <= from + MAX_ENTRIES || from == 0
    ensures Says(from, to) + [Said(to)] == Says(from, to + 1)
    ensures to <= from + MAX_ENTRIES ==>
      LastN(Says(from, to + 1), MAX_ENTRIES) == Says(Max(from, to + 1 - MAX_ENTRIES), to + 1)
  {
  }

  lemma {:induction false} TotalOf(ms: seq<Message>, size: Message -> nat, k: nat)
    requires forall m :: size(m) == k
    ensures TotalSize(ms, size) == |ms| * k
  {
    if ms != [] {
      TotalOf(ms[1..], size, k);
    }
  }

  lemma {:induction false} SaysFirst(from: nat, n: nat)
    requires n > 0
    ensures var conv := Says(from, from + n); conv != [] && conv[0] == Said(from) && conv[1..] == Says(from + 1, from + 1 + (n - 1))
  {
  }

  lemma {:induction false} SaysWire(from: nat, n: nat)
    ensures |Wire(Says(from, from + n))| == n
    decreases n
  {
    if n > 0 {
      hide EntryWire, Says;
      var conv := Says(from, from + n);
      SaysFirst(from, n);
      PlainWire("hi", from);
      SaysWire(from + 1, n - 1);
      assert Wire(conv) == EntryWire(conv[0]) + Wire(conv[1..]);
    }
  }

  /** Of such messages, as many are heard as fit. */
  lemma {:induction false} SaysHeard(from: nat, to: nat, size: Message -> nat, k: nat, budget: nat, n: nat)
    requires from <= to && n <= to - from && (forall m :: size(m) == k) && n * k <= budget
    requires n < to - from ==> n * k + k > budget
    ensures Heard(Says(from, to), Rendered(Wire(Says(from, to)), size, budget)) == n
  {
    hide Wire, Heard, Rendered, TotalSize;
    var conv, ms := Says(from, to), Wire(Says(from, to));
    var rendered := Rendered(ms, size, budget);
    SaysWire(from, to - from);
    RenderedIff(ms, size, budget, n);
    TotalOf(ms[..n], size, k);
    if n < to - from {
      RenderedIff(ms, size, budget, n + 1);
      TotalOf(ms[..n + 1], size, k);
      assert conv[..n + 1] == Says(from, from + n + 1);
      SaysWire(from, n + 1);
      HeardIff(conv, rendered, n + 1);
    }
    assert conv[..n] == Says(from, from + n);
    SaysWire(from, n);
    HeardIff(conv, rendered, n);
  }

  /** Two hundred such messages are cut at 120. */
  lemma {:induction false} SaysMakes(r: Run, call: Call, k: nat, n: nat)
    requires 0 <= Dropped(r) && r.task.conv == Says(Dropped(r), Dropped(r) + 200)
    requires !HasId(r.task.compactions, Dropped(r) + 120)
    requires call.pressure && call.render.maxChars == 48000 && forall m :: call.render.size(m) == k
    requires n <= 120 && n * k <= 48000 && (n < 120 ==> n * k + k > 48000)
    ensures
      var m, stored := Making(r, call), r.task.compactions;
      && m.Some? && m.value.base == Dropped(r) && m.value.heard == n
      && m.value.artifact.id == Dropped(r) + 120 && m.value.artifact.toIndex == 120
      && m.value.asked == (if stored != [] && stored[|stored| - 1].mode.Semantic?
                           then Some(stored[|stored| - 1].summaryText) else None)
      && var said := call.summarize(Wire(r.task.conv[..120]), m.value.asked);
         && m.value.artifact.mode == (if said.Some? then Semantic else Fallback)
         && (said.Some? ==>
               && m.value.artifact.summaryText == said.value
               && m.value.prior == (if r.made != [] && r.made[|r.made| - 1].artifact.mode.Semantic?
                                    then Some(r.made[|r.made| - 1]) else None))
  {
    hide Compose, Wire, Heard, Rendered, FallbackText, Boundary, IsBoundary;
    var conv, d := r.task.conv, Dropped(r);
    assert KeepCount(200) == 80;
    BoundaryIsProposalIff(conv, 120);
    assert conv[..120] == Says(d, d + 120);
    SaysWire(d, 120);
    assert conv[120].ts == d + 120;
    SaysHeard(d, d + 120, call.render.size, k, 48000, n);
  }

  /** An entry dropped before the first compaction was neither told nor is it in the tail. */
  lemma {:induction false} TrimmedBeforeIsLost()
    ensures
      var r := After(Talk(201) + [Compact(Brief(1, Some("s")))]);
      |r.made| == 1 && !Told(r.made[0], 0) && !InTail(r, r.made[0], 0) && forall i: nat :: !InGap(r, r.made[0], i)
  {
    hide Making, After;
    AfterTalk(201);
    AfterSnoc(Talk(201), Compact(Brief(1, Some("s"))));
    SaysMakes(After(Talk(201)), Brief(1, Some("s")), 1, 120);
  }

  /** One more message after the compaction, and an entry falls between summary and tail. */
  lemma {:induction false} TrimmedSinceIsLost()
    ensures
      var r := After(Talk(200) + [Compact(Brief(1, Some("s")))] + [Append(Said(200))]);
      |r.made| == 1 && InGap(r, r.made[0], 120) && !Told(r.made[0], 120) && !InTail(r, r.made[0], 120)
  {
    OneMore(1, 120);
  }

  lemma {:induction false} OneMore(k: nat, n: nat)
    requires n <= 120 && n * k <= 48000 && (n < 120 ==> n * k + k > 48000)
    ensures
      var r := After(Talk(200) + [Compact(Brief(k, Some("s")))] + [Append(Said(200))]);
      && |r.made| == 1 && r.made[0].prior == None && r.made[0].base == 0 && r.made[0].heard == n
      && r.made[0].artifact.id == 120 && r.made[0].artifact.toIndex == 120 && r.made[0].artifact.mode.Semantic?
      && r.made[0].artifact.summaryText == "s"
      && r.task == Task(Says(1, 201), [r.made[0].artifact]) && |r.history| == 201
  {
    hide Making, After;
    var call := Compact(Brief(k, Some("s")));
    AfterTalk(200);
    AfterSnoc(Talk(200), call);
    AfterSnoc(Talk(200) + [call], Append(Said(200)));
    SaysMakes(After(Talk(200)), Brief(k, Some("s")), k, n);
    SaysMore(0, 200);
  }

  /** Compacting once more mends that: the entry that was dropped is in the summary that is folded in. */
  lemma {:induction false} FoldedSummaryCovers()
    ensures
      var call := Compact(Brief(1, Some("s")));
      var r := After(Talk(200) + [call] + [Append(Said(200))] + [call]);
      && |r.made| == 2 && Dropped(r) == r.made[1].base == 1
      && forall i: nat | i < |r.history| :: Told(r.made[1], i) || InTail(r, r.made[1], i)
  {
    hide Making, After;
    var call := Compact(Brief(1, Some("s")));
    var before := Talk(200) + [call] + [Append(Said(200))];
    OneMore(1, 120);
    AfterSnoc(before, call);
    SaysMakes(After(before), Brief(1, Some("s")), 1, 120);
  }

  /** A compaction whose summarizer repeats the earlier summary it is given. */
  function Echo(): Call {
    Call(true, (ms: seq<Message>, prior: Option<string>) => prior, Render((m: Message) => 1, 48000), "task")
  }

  /** The second summary is made from the first: repeating what it is given, it has the same text. */
  lemma {:induction false} SecondIsGivenFirst()
    ensures
      var r := After(Talk(200) + [Compact(Brief(1, Some("s")))] + [Append(Said(200))] + [Compact(Echo())]);
      && |r.task.compactions| == 2 && r.task.compactions[0].id != r.task.compactions[1].id
      && r.task.compactions[0].summaryText == r.task.compactions[1].summaryText == "s"
      && r.task.compactions[1].mode.Semantic?
  {
    hide Making, After;
    var before := Talk(200) + [Compact(Brief(1, Some("s")))] + [Append(Said(200))];
    OneMore(1, 120);
    AfterSnoc(before, Compact(Echo()));
    SaysMakes(After(before), Echo(), 1, 120);
  }

  /** With long messages the transcript ends early, and entries are lost though nothing was dropped. */
  lemma {:induction false} CutTranscriptLoses()
    ensures
      var r := After(Talk(200) + [Compact(Brief(1000, Some("s")))]);
      && |r.made| == 1 && Dropped(r) == 0 && r.made[0].artifact.mode.Semantic?
      && !Told(r.made[0], 48) && !InTail(r, r.made[0], 48)
  {
    hide Making, After;
    AfterTalk(200);
    AfterSnoc(Talk(200), Compact(Brief(1000, Some("s"))));
    SaysMakes(After(Talk(200)), Brief(1000, Some("s")), 1000, 48);
  }

  /** Without a summary the first entry is gone. */
  lemma {:induction false} FallbackLosesFirst()
    ensures
      var r := After(Talk(200) + [Compact(Brief(1, None))]);
      |r.made| == 1 && Dropped(r) == 0 && !Told(r.made[0], 0) && !InTail(r, r.made[0], 0)
  {
    hide Making, After;
    AfterTalk(200);
    AfterSnoc(Talk(200), Compact(Brief(1, None)));
    SaysMakes(After(Talk(200)), Brief(1, None), 1, 120);
  }
}
