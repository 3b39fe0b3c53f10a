/**
 * Persisted conversations: their wire form, the boundary at which a prefix may be
 * replaced by a summary, and when what remains is still a valid conversation.
 */
module Conversation {
  import opened Prelude
  import opened Protocol

  /** A persisted entry: plain text, or structured blocks. */
  datatype Entry = Entry(role: Role, text: Option<string>, blocks: Option<seq<Block>>, ts: int)

  // ---- The boundary -------------------------------------------------------------------

  /** A user entry that holds tool results. */
  predicate HoldsResults(e: Entry) {
    e.role.User? && e.blocks.Some? && ResultIds(e.blocks.value) != []
  }

  /** A tail starting at `i` would start with results whose calls are cut away. */
  predicate StartsOrphaned(conv: seq<Entry>, i: nat) {
    i < |conv| && HoldsResults(conv[i])
  }

  /** `r` is the greatest index in `1..proposed` that does not start orphaned, or -1. */
  ghost predicate IsBoundary(conv: seq<Entry>, proposed: int, r: int) {
    if proposed <= 0 || proposed > |conv| then r == -1
    else
      && (r == -1 || (1 <= r <= proposed && !StartsOrphaned(conv, r)))
      && forall j | (if r == -1 then 0 else r) < j <= proposed :: StartsOrphaned(conv, j)
  }

  function Boundary(conv: seq<Entry>, proposed: int): (r: int)
    ensures IsBoundary(conv, proposed, r)
    decreases proposed
  {
    if proposed <= 0 || proposed > |conv| then -1
    else if !StartsOrphaned(conv, proposed) then proposed
    else Boundary(conv, proposed - 1)
  }

  method SafeCompactionBoundary(conv: seq<Entry>, proposed: int) returns (r: int)
    ensures r == Boundary(conv, proposed)
  {
    if proposed <= 0 || proposed > |conv| {
      return -1;
    }
    var idx := proposed;
    while idx > 0 && StartsOrphaned(conv, idx)
      invariant 0 <= idx <= proposed
      invariant Boundary(conv, proposed) == Boundary(conv, idx)
    {
      idx := idx - 1;
    }
    if idx <= 0 {
      return -1;
    }
    return idx;
  }

  // ---- Cutting a valid conversation -----------------------------------------------------

  function SummaryMessage(summary: string): Message {
    Message(User, Plain(summary))
  }

  function Cut(ms: seq<Message>, k: nat, summary: string): seq<Message>
    requires k <= |ms|
  {
    [SummaryMessage(summary)] + ms[k..]
  }

  lemma {:induction false} AllUsesConcat(a: seq<Message>, b: seq<Message>)
    ensures AllUses(a + b) == AllUses(a) + AllUses(b)
  {
    if b == [] {
      assert a + b == a;
    } else {
      var n := |b| - 1;
      hide Uses;
      assert (a + b)[..|a + b| - 1] == a + b[..n];
      AllUsesConcat(a, b[..n]);
      assert AllUses(a + b) == AllUses(a + b[..n]) + Uses(b[n]);
    }
  }

  lemma {:induction false} DistinctSuffix(a: seq<string>, b: seq<string>)
    requires Distinct(a + b)
    ensures Distinct(b)
  {
    forall i, j | 0 <= i < j < |b| ensures b[i] != b[j] {
      assert (a + b)[|a| + i] == b[i] && (a + b)[|a| + j] == b[j];
    }
  }

  /** A summary before a tail of a valid conversation is valid iff the tail starts with no results. */
  lemma {:induction false} CutValidIff(ms: seq<Message>, k: nat, summary: string)
    requires Valid(ms) && k <= |ms| && !Blank(summary)
    ensures Valid(Cut(ms, k, summary)) <==> (k < |ms| ==> Results(ms[k]) == [])
  {
    hide AllUses, Shaped, Paired, Results, Distinct;
    var cut := Cut(ms, k, summary);
    CutUses(ms, k, summary);
    forall i | 0 <= i < |cut| ensures Shaped(cut[i]) {
      SummaryShaped(summary);
      if i > 0 {
        assert cut[i] == ms[k + i - 1] && Shaped(ms[k + i - 1]);
      }
    }
    forall i | 0 <= i < |cut| && i != 1 ensures Paired(cut, i) {
      CutPaired(ms, k, summary, i);
    }
    if k < |ms| {
      CutHead(ms, k, summary);
    }
  }

  lemma {:induction false} SummaryShaped(summary: string)
    requires !Blank(summary)
    ensures Shaped(SummaryMessage(summary))
  {
  }

  lemma {:induction false} CutPaired(ms: seq<Message>, k: nat, summary: string, i: nat)
    requires k <= |ms| && i != 1 && i < |Cut(ms, k, summary)|
    requires forall j | 0 <= j < |ms| :: Paired(ms, j)
    ensures Paired(Cut(ms, k, summary), i)
  {
    var cut := Cut(ms, k, summary);
    if i > 1 {
      assert cut[i] == ms[k + i - 1] && cut[i - 1] == ms[k + i - 2] && Paired(ms, k + i - 1);
    }
  }

  lemma {:induction false} CutHead(ms: seq<Message>, k: nat, summary: string)
    requires k < |ms|
    requires Paired(ms, k)
    ensures Paired(Cut(ms, k, summary), 1) <==> Results(ms[k]) == []
  {
    var cut := Cut(ms, k, summary);
    assert cut[1] == ms[k] && Offered(cut, 1) == [];
    if Results(ms[k]) != [] {
      assert Results(ms[k])[0] in Results(cut[1]) && !Paired(cut, 1);
    }
  }

  /** No tool call of the tail is repeated in it. */
  lemma {:induction false} CutUses(ms: seq<Message>, k: nat, summary: string)
    requires k <= |ms| && Distinct(AllUses(ms))
    ensures Distinct(AllUses(Cut(ms, k, summary)))
  {
    var first := [SummaryMessage(summary)];
    assert first[..0] == [] && AllUses(first) == [];
    hide AllUses;
    assert ms == ms[..k] + ms[k..];
    AllUsesConcat(ms[..k], ms[k..]);
    DistinctSuffix(AllUses(ms[..k]), AllUses(ms[k..]));
    AllUsesConcat(first, ms[k..]);
    assert [] + AllUses(ms[k..]) == AllUses(ms[k..]);
  }

  // ---- One message per entry --------------------------------------------------------------

  /** The entry read as one wire message, as the boundary check does. */
  function AsMessage(e: Entry): Message {
    Message(e.role, match e.blocks case Some(bs) => Blocks(bs)
                                   case None => Plain(if e.text.Some? then e.text.value else ""))
  }

  function AsMessages(conv: seq<Entry>): (ms: seq<Message>)
    ensures |ms| == |conv| && forall i | 0 <= i < |conv| :: ms[i] == AsMessage(conv[i])
  {
    seq(|conv|, i requires 0 <= i < |conv| => AsMessage(conv[i]))
  }

  /** In that reading a plain entry must say something, and one with blocks must have one. */
  lemma {:induction false} ReadEntriesSpeak(conv: seq<Entry>, e: Entry)
    requires Valid(AsMessages(conv)) && e in conv
    ensures !e.role.Unknown?
    ensures if e.blocks.Some? then e.blocks.value != [] else e.text.Some? && !Blank(e.text.value)
  {
    hide AllUses, Paired;
    var i :| 0 <= i < |conv| && conv[i] == e;
    assert Shaped(AsMessages(conv)[i]);
    assert Blank("");
  }

  /** In a valid conversation results never follow results, so one step back is enough. */
  lemma {:induction false} OrphansAreIsolated(conv: seq<Entry>, i: nat)
    requires Valid(AsMessages(conv)) && StartsOrphaned(conv, i)
    ensures i > 0 && !StartsOrphaned(conv, i - 1)
  {
    var ms := AsMessages(conv);
    assert Paired(ms, i) && Results(ms[i])[0] in Results(ms[i]);
  }

  /**
   * The promise of the boundary: replacing everything before it by a summary keeps a valid
   * conversation valid. It gives up only when the first entry after the head is orphaned.
   */
  lemma {:induction false} BoundaryKeepsProtocol(conv: seq<Entry>, proposed: int, r: int, summary: string)
    requires Valid(AsMessages(conv)) && IsBoundary(conv, proposed, r) && !Blank(summary)
    requires 1 <= proposed <= |conv|
    ensures r >= 1 ==> Valid(Cut(AsMessages(conv), r, summary)) && r >= proposed - 1
    ensures r == -1 <==> proposed == 1 && StartsOrphaned(conv, 1)
  {
    var ms := AsMessages(conv);
    if r >= 1 {
      if r < |conv| && Results(ms[r]) != [] {
        assert Shaped(ms[r]);
      }
      CutValidIff(ms, r, summary);
    }
    if r != proposed {
      OrphansAreIsolated(conv, proposed);
    }
  }

  /** The proposal itself is the boundary exactly when no user entry with results is there. */
  lemma {:induction false} BoundaryIsProposalIff(conv: seq<Entry>, proposed: int)
    requires 1 <= proposed <= |conv|
    ensures Boundary(conv, proposed) == proposed <==> !StartsOrphaned(conv, proposed)
    ensures (forall e | e in conv :: !HoldsResults(e)) ==> Boundary(conv, proposed) == proposed
  {
    if Boundary(conv, proposed) == proposed {
      assert IsBoundary(conv, proposed, proposed);
    }
  }

  // ---- The wire form used for a session -----------------------------------------------------

  function JoinTexts(bs: seq<Block>): string {
    if bs == [] then ""
    else
      var rest := JoinTexts(bs[1..]);
      if !bs[0].Text? then rest
      else if exists b :: b in bs[1..] && b.Text? then bs[0].text + "\n" + rest
      else bs[0].text
  }

  function Filter(bs: seq<Block>, keep: Block -> bool): (r: seq<Block>)
    ensures forall b :: b in r <==> b in bs && keep(b)
  {
    if bs == [] then []
    else if keep(bs[|bs| - 1]) then Filter(bs[..|bs| - 1], keep) + [bs[|bs| - 1]]
    else Filter(bs[..|bs| - 1], keep)
  }

  function AssistantBlocks(bs: seq<Block>): seq<Block> {
    Filter(bs, (b: Block) => b.Text? || b.ToolUse?)
  }

  function ResultBlocks(bs: seq<Block>): seq<Block> {
    Filter(bs, (b: Block) => b.ToolResult?)
  }

  /** User entries keep text and images; structured assistant entries are split in two. */
  function EntryWire(e: Entry): seq<Message> {
    if e.role.User? || e.blocks.None? then
      var bs := if e.blocks.Some? then e.blocks.value else [];
      var text := if e.text.Some? then e.text.value else JoinTexts(bs);
      var images := Filter(bs, (b: Block) => b.Image?);
      if images == [] then [Message(e.role, Plain(text))]
      else [Message(e.role, Blocks(images + if text != "" then [Text(text)] else []))]
    else
      var said, results := AssistantBlocks(e.blocks.value), ResultBlocks(e.blocks.value);
      (if said != [] then [Message(Assistant, Blocks(said))] else []) +
      (if results != [] then [Message(User, Blocks(results))] else [])
  }

  function Wire(conv: seq<Entry>): seq<Message> {
    if conv == [] then [] else EntryWire(conv[0]) + Wire(conv[1..])
  }

  lemma {:induction false} WireConcat(a: seq<Entry>, b: seq<Entry>)
    ensures Wire(a + b) == Wire(a) + Wire(b)
  {
    if a == [] {
      assert a + b == b;
    } else {
      assert (a + b)[1..] == a[1..] + b;
      WireConcat(a[1..], b);
    }
  }

  lemma {:induction false} FilterNone(bs: seq<Block>)
    ensures ResultIds(AssistantBlocks(bs)) == [] && ResultIds(ResultBlocks(bs)) == ResultIds(bs)
    ensures UseIds(AssistantBlocks(bs)) == UseIds(bs) && UseIds(ResultBlocks(bs)) == []
    ensures forall b | b in bs && b.ToolResult? :: ResultIds(bs) != []
  {
    if bs != [] {
      FilterNone(bs[..|bs| - 1]);
      FilterSnoc(bs, (b: Block) => b.Text? || b.ToolUse?);
      FilterSnoc(bs, (b: Block) => b.ToolResult?);
    }
  }

  lemma {:induction false} FilterSnoc(bs: seq<Block>, keep: Block -> bool)
    requires bs != []
    ensures Filter(bs, keep) == Filter(bs[..|bs| - 1], keep) + if keep(bs[|bs| - 1]) then [bs[|bs| - 1]] else []
    ensures keep(bs[|bs| - 1]) ==> Filter(bs, keep)[..|Filter(bs, keep)| - 1] == Filter(bs[..|bs| - 1], keep)
  {}

  /** An assistant entry that holds results but nothing they could answer. */
  predicate LooseResults(e: Entry) {
    && !e.role.User? && e.blocks.Some?
    && AssistantBlocks(e.blocks.value) == [] && ResultBlocks(e.blocks.value) != []
  }

  /** An entry that puts nothing on the wire. */
  predicate Silent(e: Entry) {
    && !e.role.User? && e.blocks.Some?
    && AssistantBlocks(e.blocks.value) == [] && ResultBlocks(e.blocks.value) == []
  }

  /** The first entry from `k` on that is heard holds loose results. */
  ghost predicate OrphanHead(conv: seq<Entry>, k: nat) {
    exists j :: k <= j < |conv| && LooseResults(conv[j]) && forall i | k <= i < j :: Silent(conv[i])
  }

  /** Which entries put what at the head of their wire form. */
  lemma {:induction false} EntryHead(e: Entry)
    ensures EntryWire(e) == [] <==> Silent(e)
    ensures EntryWire(e) != [] ==> (Results(EntryWire(e)[0]) != [] <==> LooseResults(e))
  {
    if e.role.User? || e.blocks.None? {
      var bs := if e.blocks.Some? then e.blocks.value else [];
      var text := if e.text.Some? then e.text.value else JoinTexts(bs);
      var images := Filter(bs, (b: Block) => b.Image?);
      var texts := if text != "" then [Text(text)] else [];
      assert forall i | 0 <= i < |images| :: images[i] in images;
      NoResults(images + texts);
      assert EntryWire(e)[0].content == if images == [] then Plain(text) else Blocks(images + texts);
    } else {
      FilterNone(e.blocks.value);
      if ResultBlocks(e.blocks.value) != [] {
        assert ResultBlocks(e.blocks.value)[0] in e.blocks.value;
      }
    }
  }

  lemma {:induction false} NoResults(bs: seq<Block>)
    requires forall i | 0 <= i < |bs| :: bs[i].Image? || bs[i].Text?
    ensures ResultIds(bs) == []
  {
    if bs != [] {
      NoResults(bs[..|bs| - 1]);
    }
  }

  lemma {:induction false} HeadResults(conv: seq<Entry>)
    ensures (Wire(conv) != [] && Results(Wire(conv)[0]) != []) <==> OrphanHead(conv, 0)
  {
    if conv != [] {
      hide EntryWire, Silent, LooseResults, Results;
      var e, rest := conv[0], conv[1..];
      EntryHead(e);
      if Silent(e) {
        assert Wire(conv) == Wire(rest);
        HeadResults(rest);
        SilentHead(conv);
      } else {
        assert Wire(conv)[0] == EntryWire(e)[0];
        if LooseResults(e) {
          assert OrphanHead(conv, 0);
        }
      }
    }
  }

  lemma {:induction false} SilentHead(conv: seq<Entry>)
    requires conv != [] && Silent(conv[0])
    ensures OrphanHead(conv, 0) <==> OrphanHead(conv[1..], 0)
  {
    OrphanHeadShift(conv, 1);
    if OrphanHead(conv, 1) {
      var j :| 1 <= j < |conv| && LooseResults(conv[j]) && forall i | 1 <= i < j :: Silent(conv[i]);
      assert forall i | 0 <= i < j :: Silent(conv[i]);
    }
  }

  lemma {:induction false} OrphanHeadShift(conv: seq<Entry>, k: nat)
    requires k <= |conv|
    ensures OrphanHead(conv[k..], 0) <==> OrphanHead(conv, k)
  {
    var tail := conv[k..];
    if OrphanHead(tail, 0) {
      var j :| 0 <= j < |tail| && LooseResults(tail[j]) && forall i | 0 <= i < j :: Silent(tail[i]);
      assert forall i | k <= i < k + j :: conv[i] == tail[i - k];
      assert LooseResults(conv[k + j]);
    }
    if OrphanHead(conv, k) {
      var j :| k <= j < |conv| && LooseResults(conv[j]) && forall i | k <= i < j :: Silent(conv[i]);
      assert forall i | 0 <= i < j - k :: tail[i] == conv[k + i];
      assert LooseResults(tail[j - k]);
    }
  }

  /**
   * The composition that a session receives: a summary, then the wire form of the entries
   * from `k` on. For a conversation with a valid wire form it is valid if and only if the
   * first entry heard after the cut is not one of loose results.
   */
  lemma {:induction false} ComposedValidIff(conv: seq<Entry>, k: nat, summary: string)
    requires Valid(Wire(conv)) && k <= |conv| && !Blank(summary)
    ensures Valid([SummaryMessage(summary)] + Wire(conv[k..])) <==> !OrphanHead(conv, k)
  {
    assert conv == conv[..k] + conv[k..];
    WireConcat(conv[..k], conv[k..]);
    var n := |Wire(conv[..k])|;
    assert Wire(conv)[n..] == Wire(conv[k..]);
    CutValidIff(Wire(conv), n, summary);
    HeadResults(conv[k..]);
    OrphanHeadShift(conv, k);
  }

  function LooseExample(): seq<Entry> {
    [Entry(User, Some("hi"), None, 1),
     Entry(Assistant, None, Some([ToolUse("a")]), 2),
     Entry(Assistant, None, Some([ToolResult("a")]), 3)]
  }

  lemma {:induction false} LooseExampleWire()
    ensures Wire(LooseExample()) == [Message(User, Plain("hi")), Message(Assistant, Blocks([ToolUse("a")])),
                                     Message(User, Blocks([ToolResult("a")]))]
    ensures LooseResults(LooseExample()[2])
  {
    hide Wire, EntryWire;
    var conv := LooseExample();
    PlainWire("hi", 1);
    CallWire("a", 2);
    AnswerWire("a", 3);
    WireOfThree(conv[0], conv[1], conv[2]);
  }

  lemma {:induction false} PlainWire(text: string, ts: int)
    ensures EntryWire(Entry(User, Some(text), None, ts)) == [Message(User, Plain(text))]
  {}

  lemma {:induction false} CallWire(id: string, ts: int)
    ensures EntryWire(Entry(Assistant, None, Some([ToolUse(id)]), ts)) == [Message(Assistant, Blocks([ToolUse(id)]))]
  {
    OneBlock(ToolUse(id));
  }

  lemma {:induction false} AnswerWire(id: string, ts: int)
    ensures
      var e := Entry(Assistant, None, Some([ToolResult(id)]), ts);
      EntryWire(e) == [Message(User, Blocks([ToolResult(id)]))] && LooseResults(e)
  {
    OneBlock(ToolResult(id));
  }

  /**
   * The boundary looks for results in user entries, whose results never reach the wire, and
   * not in assistant entries: it accepts a cut after which the composition is refused.
   */
  lemma {:induction false} BoundaryMissesLooseResults()
    ensures Valid(Wire(LooseExample())) && IsBoundary(LooseExample(), 2, 2)
    ensures !Valid([SummaryMessage("s")] + Wire(LooseExample()[2..]))
  {
    hide Valid, Wire;
    LooseExampleWire();
    ThreeMessages(Message(User, Plain("hi")), Message(Assistant, Blocks([ToolUse("a")])),
                  Message(User, Blocks([ToolResult("a")])));
    assert 's' in "s" && !IsSpace('s');
    ComposedValidIff(LooseExample(), 2, "s");
  }

  lemma {:induction false} OneBlock(b: Block)
    ensures AssistantBlocks([b]) == if b.Text? || b.ToolUse? then [b] else []
    ensures ResultBlocks([b]) == if b.ToolResult? then [b] else []
  {
    assert [b][..0] == [];
    FilterSnoc([b], (b: Block) => b.Text? || b.ToolUse?);
    FilterSnoc([b], (b: Block) => b.ToolResult?);
  }

  lemma {:induction false} WireOfThree(a: Entry, b: Entry, c: Entry)
    ensures Wire([a, b, c]) == EntryWire(a) + EntryWire(b) + EntryWire(c)
  {
    assert [a, b, c][1..] == [b, c] && [b, c][1..] == [c] && [c][1..] == [];
    assert Wire([c]) == EntryWire(c) && Wire([b, c]) == EntryWire(b) + EntryWire(c);
  }

  lemma {:induction false} UsesSnoc(init: seq<Message>, m: Message)
    ensures AllUses(init + [m]) == AllUses(init) + Uses(m)
  {
    hide Uses;
    assert (init + [m])[..|init|] == init;
  }

  lemma {:induction false} ThreeMessages(hi: Message, use: Message, result: Message)
    requires hi == Message(User, Plain("hi"))
    requires use == Message(Assistant, Blocks([ToolUse("a")])) && result == Message(User, Blocks([ToolResult("a")]))
    ensures Valid([hi, use, result])
  {
    var ms := [hi, use, result];
    assert [ToolUse("a")][..0] == [] && [ToolResult("a")][..0] == [];
    assert UseIds([ToolUse("a")]) == ["a"] && ResultIds([ToolUse("a")]) == [];
    assert UseIds([ToolResult("a")]) == [] && ResultIds([ToolResult("a")]) == ["a"];
    assert ms == ([] + [hi] + [use]) + [result];
    assert Uses(hi) == [] && Uses(use) == ["a"] && Uses(result) == [];
    UsesSnoc([], hi);
    UsesSnoc([] + [hi], use);
    UsesSnoc([] + [hi] + [use], result);
    assert AllUses(ms) == ["a"];
    assert 'h' in "hi" && !IsSpace('h');
    assert "a"[0] == 'a';
    assert Paired(ms, 2);
  }

  // ---- What the wire form keeps of an entry ----------------------------------------------------

  ghost predicate HasText(bs: seq<Block>) { exists b :: b in bs && b.Text? }

  lemma {:induction false} JoinFirst(b: Block, rest: seq<Block>)
    ensures JoinTexts([b] + rest) ==
      if !b.Text? then JoinTexts(rest) else if HasText(rest) then b.text + "\n" + JoinTexts(rest) else b.text
    ensures HasText([b] + rest) <==> b.Text? || HasText(rest)
  {
    assert ([b] + rest)[0] == b && ([b] + rest)[1..] == rest;
  }

  /** Texts are joined by line breaks, and other blocks do not matter to that. */
  lemma {:induction false} JoinTextsConcat(a: seq<Block>, b: seq<Block>)
    ensures JoinTexts(a + b) ==
      if !HasText(a) then JoinTexts(b) else if !HasText(b) then JoinTexts(a) else JoinTexts(a) + "\n" + JoinTexts(b)
  {
    if a == [] {
      assert a + b == b;
    } else {
      hide JoinTexts, HasText;
      var first, rest := a[0], a[1..];
      assert a == [first] + rest && a + b == [first] + (rest + b);
      JoinTextsConcat(rest, b);
      JoinFirst(first, rest);
      JoinFirst(first, rest + b);
      TextInEither(rest, b);
      if first.Text? && HasText(rest) && HasText(b) {
        Glue(first.text, JoinTexts(rest), JoinTexts(b));
      }
    }
  }

  lemma {:induction false} Glue(a: string, b: string, c: string)
    ensures a + "\n" + (b + "\n" + c) == a + "\n" + b + "\n" + c
  {
  }

  lemma {:induction false} NoTexts(bs: seq<Block>)
    requires !HasText(bs)
    ensures JoinTexts(bs) == ""
  {
    if bs != [] {
      assert bs[0] in bs;
      NoTexts(bs[1..]);
    }
  }

  lemma {:induction false} JoinOne(b: Block)
    ensures JoinTexts([b]) == if b.Text? then b.text else ""
    ensures HasText([b]) <==> b.Text?
  {
    assert [b][0] == b && [b][1..] == [];
  }

  /** Filtering that keeps texts keeps what they say. */
  lemma {:induction false} FilterKeepsTexts(bs: seq<Block>, keep: Block -> bool)
    requires forall b: Block :: b.Text? ==> keep(b)
    ensures JoinTexts(Filter(bs, keep)) == JoinTexts(bs) && (HasText(Filter(bs, keep)) <==> HasText(bs))
  {
    if bs != [] {
      hide JoinTexts, HasText, Filter;
      var init, b := bs[..|bs| - 1], bs[|bs| - 1];
      var kept := Filter(init, keep);
      assert bs == init + [b];
      FilterKeepsTexts(init, keep);
      FilterSnoc(bs, keep);
      JoinOne(b);
      JoinTextsConcat(init, [b]);
      TextInEither(init, [b]);
      if keep(b) {
        JoinTextsConcat(kept, [b]);
        TextInEither(kept, [b]);
      } else {
        assert kept + [] == kept;
        if !HasText(init) {
          NoTexts(init);
        }
      }
    }
  }

  /** And filtering that keeps images keeps their number. */
  lemma {:induction false} FilterKeepsImages(bs: seq<Block>, keep: Block -> bool)
    requires keep(Image)
    ensures multiset(Filter(bs, keep))[Image] == multiset(bs)[Image]
  {
    if bs != [] {
      hide Filter;
      var init, b := bs[..|bs| - 1], bs[|bs| - 1];
      assert bs == init + [b];
      FilterKeepsImages(init, keep);
      FilterSnoc(bs, keep);
    }
  }

  lemma {:induction false} TextInEither(a: seq<Block>, b: seq<Block>)
    ensures HasText(a + b) <==> HasText(a) || HasText(b)
  {
  }

  /** What a message says in words. */
  function Speech(m: Message): string {
    if m.content.Plain? then m.content.text else JoinTexts(m.content.blocks)
  }

  /** A user's entry becomes one message that says the same, with the same number of images and nothing else. */
  lemma {:induction false} UserEntryKeeps(e: Entry)
    requires e.role.User? || e.blocks == None
    ensures |EntryWire(e)| == 1
    ensures
      var m, bs := EntryWire(e)[0], if e.blocks.Some? then e.blocks.value else [];
      && m.role == e.role && Speech(m) == (if e.text.Some? then e.text.value else JoinTexts(bs))
      && multiset(BlocksOf(m))[Image] == multiset(bs)[Image]
      && forall b | b in BlocksOf(m) :: b.Image? || b.Text?
  {
    var bs := if e.blocks.Some? then e.blocks.value else [];
    var images := Filter(bs, (b: Block) => b.Image?);
    var text := if e.text.Some? then e.text.value else JoinTexts(bs);
    FilterKeepsImages(bs, (b: Block) => b.Image?);
    assert !HasText(images);
    hide JoinTexts, Filter, HasText;
    if images == [] {
      assert Image !in multiset(images);
    } else {
      JoinTextsConcat(images, [Text(text)]);
      JoinOne(Text(text));
      NoTexts(images);
      var rest := if text != "" then [Text(text)] else [];
      assert Image !in multiset(rest) && images + [] == images;
    }
  }

  /**
   * A structured entry of the assistant becomes what it said and called, in one message, and the
   * results, in a user message after that; texts, calls and results are the same, in order.
   */
  lemma {:induction false} AssistantEntryKeeps(e: Entry)
    requires !e.role.User? && e.blocks.Some?
    ensures
      var bs, ms := e.blocks.value, EntryWire(e);
      var said, answered := AssistantPart(ms), UserPart(ms);
      && |ms| == (if said == [] then 0 else 1) + (if answered == [] then 0 else 1)
      && (forall m | m in ms :: m.content.Blocks?)
      && UseIds(said) == UseIds(bs) && ResultIds(said) == [] && JoinTexts(said) == JoinTexts(bs)
      && ResultIds(answered) == ResultIds(bs) && UseIds(answered) == [] && !HasText(answered)
  {
    var bs := e.blocks.value;
    FilterNone(bs);
    FilterKeepsTexts(bs, (b: Block) => b.Text? || b.ToolUse?);
  }

  /** The blocks of the leading assistant message, if there is one. */
  function AssistantPart(ms: seq<Message>): seq<Block> {
    if ms != [] && ms[0].role.Assistant? then BlocksOf(ms[0]) else []
  }

  /** The blocks of the closing user message, if there is one. */
  function UserPart(ms: seq<Message>): seq<Block> {
    if ms != [] && ms[|ms| - 1].role.User? then BlocksOf(ms[|ms| - 1]) else []
  }

  // ---- Entries captured from runs --------------------------------------------------------------

  /** What a run capture holds: the text, and the tool-call ids of its three maps in insertion order. */
  datatype Capture = Capture(text: string, inputs: seq<string>, names: seq<string>, results: seq<string>)

  function Calls(ids: seq<string>): (bs: seq<Block>)
    ensures |bs| == |ids| && forall i | 0 <= i < |ids| :: bs[i] == ToolUse(ids[i])
  {
    seq(|ids|, i requires 0 <= i < |ids| => ToolUse(ids[i]))
  }

  function Answers(ids: seq<string>): (bs: seq<Block>)
    ensures |bs| == |ids| && forall i | 0 <= i < |ids| :: bs[i] == ToolResult(ids[i])
  {
    seq(|ids|, i requires 0 <= i < |ids| => ToolResult(ids[i]))
  }

  /** The persisted blocks of a run: text, then calls in first-seen order, then results. */
  function ComposeRunBlocks(c: Capture): seq<Block> {
    (if c.text != "" then [Text(c.text)] else [])
    + Calls(Dedup(c.inputs + c.names + c.results))
    + Answers(c.results)
  }

  /** Every result of a composed entry answers a call of the same entry, and no call repeats. */
  lemma {:induction false} ComposedPairs(c: Capture)
    ensures
      var bs := ComposeRunBlocks(c);
      && UseIds(bs) == Dedup(c.inputs + c.names + c.results) && ResultIds(bs) == c.results
      && Distinct(UseIds(bs)) && forall r | r in ResultIds(bs) :: r in UseIds(bs)
  {
    var text := if c.text != "" then [Text(c.text)] else [];
    var ids := Dedup(c.inputs + c.names + c.results);
    IdsConcat(text + Calls(ids), Answers(c.results));
    IdsConcat(text, Calls(ids));
    IdsOfCalls(ids);
    IdsOfAnswers(c.results);
    NoResults(text);
    if c.text != "" {
      assert [Text(c.text)][..0] == [];
    }
    assert UseIds(text) == [];
  }

  /** A composed entry says what the run said. */
  lemma {:induction false} ComposedSays(c: Capture)
    ensures JoinTexts(ComposeRunBlocks(c)) == c.text
  {
    hide JoinTexts;
    var text, calls, answers := if c.text != "" then [Text(c.text)] else [], Calls(Dedup(c.inputs + c.names + c.results)), Answers(c.results);
    NoTexts(calls);
    NoTexts(answers);
    TextInEither(text, calls);
    JoinTextsConcat(text + calls, answers);
    JoinTextsConcat(text, calls);
    JoinOne(Text(c.text));
    if c.text == "" {
      NoTexts(text);
    }
  }

  lemma {:induction false} IdsConcat(a: seq<Block>, b: seq<Block>)
    ensures UseIds(a + b) == UseIds(a) + UseIds(b) && ResultIds(a + b) == ResultIds(a) + ResultIds(b)
  {
    if b == [] {
      assert a + b == a;
    } else {
      assert (a + b)[..|a + b| - 1] == a + b[..|b| - 1];
      IdsConcat(a, b[..|b| - 1]);
    }
  }

  lemma {:induction false} IdsOfCalls(ids: seq<string>)
    ensures UseIds(Calls(ids)) == ids && ResultIds(Calls(ids)) == []
  {
    if ids != [] {
      assert Calls(ids)[..|ids| - 1] == Calls(ids[..|ids| - 1]);
      IdsOfCalls(ids[..|ids| - 1]);
    }
  }

  lemma {:induction false} IdsOfAnswers(ids: seq<string>)
    ensures ResultIds(Answers(ids)) == ids && UseIds(Answers(ids)) == []
  {
    if ids != [] {
      assert Answers(ids)[..|ids| - 1] == Answers(ids[..|ids| - 1]);
      IdsOfAnswers(ids[..|ids| - 1]);
    }
  }

  /** The entry is a user turn, plain text, or the blocks of some run capture. */
  ghost predicate Captured(e: Entry) {
    e.role.User? || e.blocks.None? || exists c :: e.blocks == Some(ComposeRunBlocks(c))
  }

  lemma {:induction false} CapturedNotLoose(e: Entry)
    requires Captured(e)
    ensures !LooseResults(e)
  {
    if LooseResults(e) {
      hide ComposeRunBlocks, AssistantBlocks, ResultBlocks;
      var c :| e.blocks == Some(ComposeRunBlocks(c));
      ComposedPairs(c);
      var bs := e.blocks.value;
      FilterNone(bs);
    }
  }

  /** Conversations written by the host can be cut anywhere. */
  lemma {:induction false} CapturedCutsAnywhere(conv: seq<Entry>, k: nat, summary: string)
    requires Valid(Wire(conv)) && k <= |conv| && !Blank(summary)
    requires forall e | e in conv :: Captured(e)
    ensures Valid([SummaryMessage(summary)] + Wire(conv[k..]))
  {
    forall j | k <= j < |conv| ensures !LooseResults(conv[j]) {
      CapturedNotLoose(conv[j]);
    }
    ComposedValidIff(conv, k, summary);
  }
}
