/**
 * The wire protocol of a conversation: which tool calls and results belong together, and
 * the strict validator.
 */
module Protocol {
  import opened Prelude

  /** `Other` stands for any block the validator ignores, a `tool_use` without an id included. */
  datatype Block = Text(text: string) | ToolUse(id: string) | ToolResult(useId: string) | Image | Other

  datatype Role = User | Assistant | Unknown

  datatype Content = Plain(text: string) | Blocks(blocks: seq<Block>)

  datatype Message = Message(role: Role, content: Content)

  /** Ids of the tool calls a message offers, in order; "" marks a result without an id. */
  function UseIds(bs: seq<Block>): seq<string> {
    if bs == [] then []
    else if bs[|bs| - 1].ToolUse? then UseIds(bs[..|bs| - 1]) + [bs[|bs| - 1].id]
    else UseIds(bs[..|bs| - 1])
  }

  function ResultIds(bs: seq<Block>): seq<string> {
    if bs == [] then []
    else if bs[|bs| - 1].ToolResult? then ResultIds(bs[..|bs| - 1]) + [bs[|bs| - 1].useId]
    else ResultIds(bs[..|bs| - 1])
  }

  function BlocksOf(m: Message): seq<Block> {
    if m.content.Blocks? then m.content.blocks else []
  }

  /** The tool calls a message adds to the conversation: a message of unknown role is skipped. */
  function Uses(m: Message): seq<string> {
    if m.role.Unknown? then [] else UseIds(BlocksOf(m))
  }

  function Results(m: Message): seq<string> {
    ResultIds(BlocksOf(m))
  }

  function AllUses(ms: seq<Message>): seq<string> {
    if ms == [] then [] else AllUses(ms[..|ms| - 1]) + Uses(ms[|ms| - 1])
  }

  /** The tool calls that results in message `i` may answer. */
  function Offered(ms: seq<Message>, i: nat): seq<string>
    requires i < |ms|
  {
    if i > 0 && ms[i - 1].role.Assistant? then UseIds(BlocksOf(ms[i - 1])) else []
  }

  // ---- The rules, declared ----------------------------------------------------------

  ghost predicate Shaped(m: Message) {
    && !m.role.Unknown?
    && (m.content.Plain? ==> !Blank(m.content.text))
    && (m.content.Blocks? ==> m.content.blocks != [])
    && (Image in BlocksOf(m) ==> m.role.User?)
    && (Results(m) != [] ==> m.role.User?)
  }

  /** Every result of message `i` answers a call of the assistant message right before it. */
  ghost predicate Paired(ms: seq<Message>, i: nat)
    requires i < |ms|
  {
    forall r | r in Results(ms[i]) :: r != "" && r in Offered(ms, i)
  }

  /** A conversation the provider protocol accepts. */
  ghost predicate Valid(ms: seq<Message>) {
    && ms != []
    && (forall i | 0 <= i < |ms| :: Shaped(ms[i]))
    && (forall i | 0 <= i < |ms| :: Paired(ms, i))
    && Distinct(AllUses(ms))
  }

  // ---- The validator ------------------------------------------------------------------

  datatype IssueKind = EmptyMessage | InvalidRole | OrphanedToolResult | DuplicateToolUseId
                     | AssistantAfterToolResultUnpaired | ResultBeforeUse | ImageInAssistantMessage

  datatype Issue = Issue(kind: IssueKind, index: nat)

  /** What each kind of issue says about message `i`. */
  ghost predicate Breaks(ms: seq<Message>, kind: IssueKind, i: nat)
    requires i < |ms|
  {
    var m := ms[i];
    match kind
    case InvalidRole => m.role.Unknown?
    case EmptyMessage =>
      !m.role.Unknown? && (if m.content.Plain? then Blank(m.content.text) else m.content.blocks == [])
    case DuplicateToolUseId =>
      exists j :: 0 <= j < |Uses(m)| && (Uses(m)[j] in AllUses(ms[..i]) || Uses(m)[j] in Uses(m)[..j])
    case ImageInAssistantMessage => m.role.Assistant? && Image in BlocksOf(m)
    case ResultBeforeUse => m.role.Assistant? && Results(m) != []
    case OrphanedToolResult => !m.role.Unknown? && !Paired(ms, i)
    case AssistantAfterToolResultUnpaired => false
  }

  /** The list tells exactly which rule each of the first `n` messages breaks. */
  ghost predicate Reports(ms: seq<Message>, issues: seq<Issue>, n: nat)
    requires n <= |ms|
  {
    forall kind, i: nat :: Issue(kind, i) in issues <==> i < n && Breaks(ms, kind, i)
  }

  /** One message's blocks: what the validator adds to its list for message `i`. */
  ghost predicate Adds(ms: seq<Message>, added: seq<Issue>, i: nat)
    requires i < |ms|
  {
    forall kind, k: nat :: Issue(kind, k) in added <==> k == i && Breaks(ms, kind, i)
  }

  lemma {:induction false} PrefixUses(bs: seq<Block>, n: nat)
    requires n < |bs|
    ensures UseIds(bs[..n + 1]) == UseIds(bs[..n]) + (if bs[n].ToolUse? then [bs[n].id] else [])
    ensures ResultIds(bs[..n + 1]) == ResultIds(bs[..n]) + (if bs[n].ToolResult? then [bs[n].useId] else [])
  {
    assert bs[..n + 1][..n] == bs[..n];
  }

  /** Whether some call among the first blocks of a message repeats an earlier id. */
  ghost predicate Repeats(seen: set<string>, uses: seq<string>) {
    exists j :: 0 <= j < |uses| && (uses[j] in seen || uses[j] in uses[..j])
  }

  lemma {:induction false} RepeatsSnoc(seen: set<string>, uses: seq<string>, id: string)
    ensures Repeats(seen, uses + [id]) <==> Repeats(seen, uses) || id in seen || id in uses
  {
    var more := uses + [id];
    forall j | 0 <= j <= |uses| ensures more[..j] == uses[..j] {}
    if Repeats(seen, uses) {
      var j :| 0 <= j < |uses| && (uses[j] in seen || uses[j] in uses[..j]);
      assert more[j] == uses[j] && more[..j] == uses[..j];
    }
    if id in seen || id in uses {
      assert more[|uses|] == id && more[..|uses|] == uses;
    }
  }

  /** The block loop over one message of known role and non-empty blocks. */
  method ScanBlocks(m: Message, i: nat, seen: set<string>)
    returns (seen': set<string>, resultIds: seq<string>, added: seq<Issue>)
    requires !m.role.Unknown? && m.content.Blocks?
    ensures forall id :: id in seen' <==> id in seen || id in Uses(m)
    ensures resultIds == Results(m)
    ensures forall kind, k: nat :: Issue(kind, k) in added <==>
      && k == i
      && (|| (kind.DuplicateToolUseId? && Repeats(seen, Uses(m)))
          || (kind.ImageInAssistantMessage? && m.role.Assistant? && Image in BlocksOf(m)))
  {
    var bs := m.content.blocks;
    seen', resultIds, added := seen, [], [];
    for n := 0 to |bs|
      invariant forall id :: id in seen' <==> id in seen || id in UseIds(bs[..n])
      invariant resultIds == ResultIds(bs[..n])
      invariant forall kind, k: nat :: Issue(kind, k) in added <==>
        && k == i
        && (|| (kind.DuplicateToolUseId? && Repeats(seen, UseIds(bs[..n])))
            || (kind.ImageInAssistantMessage? && m.role.Assistant? && Image in bs[..n]))
    {
      PrefixUses(bs, n);
      assert bs[..n + 1] == bs[..n] + [bs[n]];
      match bs[n]
      case ToolUse(id) =>
        RepeatsSnoc(seen, UseIds(bs[..n]), id);
        if id in seen' {
          added := added + [Issue(DuplicateToolUseId, i)];
        }
        seen' := seen' + {id};
      case ToolResult(id) =>
        resultIds := resultIds + [id];
      case Image =>
        if m.role.Assistant? {
          added := added + [Issue(ImageInAssistantMessage, i)];
        }
      case _ =>
    }
    assert bs[..|bs|] == bs;
  }

  lemma {:induction false} PairedByIndex(ms: seq<Message>, i: nat)
    requires i < |ms|
    ensures !Paired(ms, i) <==>
      exists j :: 0 <= j < |Results(ms[i])| && (Results(ms[i])[j] == "" || Results(ms[i])[j] !in Offered(ms, i))
  {
    var rs := Results(ms[i]);
    if !Paired(ms, i) {
      var r :| r in rs && !(r != "" && r in Offered(ms, i));
      var j :| 0 <= j < |rs| && rs[j] == r;
      assert rs[j] == "" || rs[j] !in Offered(ms, i);
    }
    if Paired(ms, i) {
      assert forall j | 0 <= j < |rs| :: rs[j] in rs;
    }
  }

  /** The pairing check for the results of message `i`. */
  method CheckResults(ms: seq<Message>, i: nat, resultIds: seq<string>) returns (added: seq<Issue>)
    requires i < |ms| && !ms[i].role.Unknown? && resultIds == Results(ms[i])
    ensures forall kind, k: nat :: Issue(kind, k) in added <==>
      && k == i
      && (|| (kind.ResultBeforeUse? && ms[i].role.Assistant? && resultIds != [])
          || (kind.OrphanedToolResult? && !Paired(ms, i)))
  {
    added := [];
    if resultIds != [] {
      if !ms[i].role.User? {
        added := [Issue(ResultBeforeUse, i)];
      }
      var prev := Offered(ms, i);
      for n := 0 to |resultIds|
        invariant forall kind, k: nat :: Issue(kind, k) in added <==>
          && k == i
          && (|| (kind.ResultBeforeUse? && ms[i].role.Assistant?)
              || (kind.OrphanedToolResult? && exists j :: 0 <= j < n && (resultIds[j] == "" || resultIds[j] !in prev)))
      {
        if resultIds[n] == "" || resultIds[n] !in prev {
          added := added + [Issue(OrphanedToolResult, i)];
        }
      }
      PairedByIndex(ms, i);
    }
  }

  method ValidateConversationProtocol(ms: seq<Message>) returns (issues: seq<Issue>)
    ensures issues == [] <==> Valid(ms)
    ensures ms == [] ==> issues == [Issue(EmptyMessage, 0)]
    ensures ms != [] ==> Reports(ms, issues, |ms|)
  {
    if ms == [] {
      return [Issue(EmptyMessage, 0)];
    }
    issues := [];
    var seen := {};
    for i := 0 to |ms|
      invariant Reports(ms, issues, i)
      invariant forall id :: id in seen <==> id in AllUses(ms[..i])
    {
      var m := ms[i];
      assert ms[..i + 1][..i] == ms[..i];
      ghost var before := issues;
      var added := [];
      if m.role.Unknown? {
        added := [Issue(InvalidRole, i)];
      } else if m.content.Plain? {
        if Blank(m.content.text) {
          added := [Issue(EmptyMessage, i)];
        }
      } else if m.content.blocks == [] {
        added := [Issue(EmptyMessage, i)];
      } else {
        var fromBlocks, resultIds;
        ghost var seen0 := seen;
        seen, resultIds, fromBlocks := ScanBlocks(m, i, seen);
        var fromResults := CheckResults(ms, i, resultIds);
        added := fromBlocks + fromResults;
        assert Repeats(seen0, Uses(m)) <==> Breaks(ms, DuplicateToolUseId, i);
      }
      assert Adds(ms, added, i);
      issues := issues + added;
    }
    NoIssueIffValid(ms, issues);
  }

  lemma {:induction false} DistinctUses(ms: seq<Message>)
    ensures Distinct(AllUses(ms)) <==> forall i | 0 <= i < |ms| :: !Breaks(ms, DuplicateToolUseId, i)
  {
    if ms != [] {
      var n := |ms| - 1;
      var init := ms[..n];
      DistinctUses(init);
      forall i | 0 <= i < n ensures Breaks(init, DuplicateToolUseId, i) <==> Breaks(ms, DuplicateToolUseId, i) {
        assert init[..i] == ms[..i] && init[i] == ms[i];
      }
      DistinctConcat(AllUses(init), Uses(ms[n]));
      assert Distinct(AllUses(ms)) <==> Distinct(AllUses(init)) && !Breaks(ms, DuplicateToolUseId, n);
    }
  }

  lemma {:induction false} DistinctConcat(a: seq<string>, b: seq<string>)
    ensures Distinct(a + b) <==>
      Distinct(a) && !exists j :: 0 <= j < |b| && (b[j] in a || b[j] in b[..j])
  {
    var c := a + b;
    if Distinct(c) {
      forall i, j | 0 <= i < j < |a| ensures a[i] != a[j] {
        assert c[i] != c[j];
      }
      forall j | 0 <= j < |b| ensures b[j] !in a && b[j] !in b[..j] {
        assert c[|a| + j] == b[j];
        assert forall i | 0 <= i < |a| :: c[i] == a[i];
        assert forall i | 0 <= i < j :: c[|a| + i] == b[..j][i];
      }
    }
    if Distinct(a) && !exists j :: 0 <= j < |b| && (b[j] in a || b[j] in b[..j]) {
      forall i, j | 0 <= i < j < |c| ensures c[i] != c[j] {
        if j >= |a| {
          assert b[j - |a|] !in a && b[j - |a|] !in b[..j - |a|];
          if i >= |a| {
            assert b[..j - |a|][i - |a|] == c[i];
          }
        }
      }
    }
  }

  lemma {:induction false} NoIssueIffValid(ms: seq<Message>, issues: seq<Issue>)
    requires ms != [] && Reports(ms, issues, |ms|)
    ensures issues == [] <==> Valid(ms)
  {
    DistinctUses(ms);
    if issues != [] {
      assert Issue(issues[0].kind, issues[0].index) in issues;
      assert Breaks(ms, issues[0].kind, issues[0].index);
    } else {
      forall i | 0 <= i < |ms| ensures Shaped(ms[i]) && Paired(ms, i) && !Breaks(ms, DuplicateToolUseId, i) {
        assert forall kind :: Issue(kind, i) !in issues;
        assert !Breaks(ms, InvalidRole, i) && !Breaks(ms, EmptyMessage, i) && !Breaks(ms, ImageInAssistantMessage, i)
            && !Breaks(ms, ResultBeforeUse, i) && !Breaks(ms, OrphanedToolResult, i);
      }
    }
  }

  // ---- The protocol, block by block ---------------------------------------------------------

  lemma {:induction false} IdsAreIn(bs: seq<Block>, id: string)
    ensures id in UseIds(bs) <==> ToolUse(id) in bs
    ensures id in ResultIds(bs) <==> ToolResult(id) in bs
  {
    if bs != [] {
      assert bs == bs[..|bs| - 1] + [bs[|bs| - 1]];
      IdsAreIn(bs[..|bs| - 1], id);
    }
  }

  /** No two blocks are the same call. */
  ghost predicate CallsOnce(bs: seq<Block>) {
    forall a, b | 0 <= a < b < |bs| && bs[a].ToolUse? :: bs[a] != bs[b]
  }

  lemma {:induction false} DistinctSnoc(ids: seq<string>, id: string)
    ensures Distinct(ids + [id]) <==> Distinct(ids) && id !in ids
  {
    DistinctConcat(ids, [id]);
    assert [id][..0] == [] && [id][0] == id;
  }

  lemma {:induction false} CallsSnoc(bs: seq<Block>, b: Block)
    ensures CallsOnce(bs + [b]) <==> CallsOnce(bs) && (b.ToolUse? ==> b !in bs)
  {
    var more := bs + [b];
    assert more[..|bs|] == bs && more[|bs|] == b;
    if CallsOnce(more) {
      forall i, j | 0 <= i < j < |bs| && bs[i].ToolUse? ensures bs[i] != bs[j] {
        assert more[i] == bs[i] && more[j] == bs[j];
      }
      if b.ToolUse? {
        forall i | 0 <= i < |bs| ensures bs[i] != b {
          assert more[i] == bs[i];
        }
      }
    }
  }

  lemma {:induction false} DistinctUseIds(bs: seq<Block>)
    ensures Distinct(UseIds(bs)) <==> CallsOnce(bs)
  {
    if bs != [] {
      hide Distinct, CallsOnce;
      var init, b := bs[..|bs| - 1], bs[|bs| - 1];
      assert bs == init + [b];
      DistinctUseIds(init);
      CallsSnoc(init, b);
      if b.ToolUse? {
        DistinctSnoc(UseIds(init), b.id);
        IdsAreIn(init, b.id);
      }
    }
  }

  ghost predicate Calls(m: Message, id: string) {
    !m.role.Unknown? && m.content.Blocks? && ToolUse(id) in m.content.blocks
  }

  lemma {:induction false} UsesAre(m: Message, id: string)
    ensures id in Uses(m) <==> Calls(m, id)
  {
    if m.content.Blocks? {
      IdsAreIn(m.content.blocks, id);
    }
  }

  lemma {:induction false} AllUsesAre(ms: seq<Message>, id: string)
    ensures id in AllUses(ms) <==> exists i :: 0 <= i < |ms| && Calls(ms[i], id)
  {
    if ms != [] {
      hide Uses, Calls;
      var n := |ms| - 1;
      AllUsesAre(ms[..n], id);
      UsesAre(ms[n], id);
      if i :| 0 <= i < |ms| && Calls(ms[i], id) {
        assert i < n ==> ms[..n][i] == ms[i];
      }
      if i :| 0 <= i < |ms[..n]| && Calls(ms[..n][i], id) {
        assert ms[i] == ms[..n][i];
      }
    }
  }

  /** No call is made twice, in one message or in two. */
  ghost predicate NoCallTwice(ms: seq<Message>) {
    && (forall m | m in ms && !m.role.Unknown? && m.content.Blocks? :: CallsOnce(m.content.blocks))
    && forall i, j, id | 0 <= i < j < |ms| && Calls(ms[i], id) :: !Calls(ms[j], id)
  }

  lemma {:induction false} DistinctJoin(a: seq<string>, b: seq<string>)
    ensures Distinct(a + b) <==> Distinct(a) && Distinct(b) && forall id | id in a :: id !in b
  {
    var c := a + b;
    if Distinct(c) {
      forall i, j | 0 <= i < j < |a| ensures a[i] != a[j] {
        assert c[i] != c[j];
      }
      forall i, j | 0 <= i < j < |b| ensures b[i] != b[j] {
        assert c[|a| + i] != c[|a| + j];
      }
      forall i, j | 0 <= i < |a| && 0 <= j < |b| ensures a[i] != b[j] {
        assert c[i] != c[|a| + j];
      }
    }
    if Distinct(a) && Distinct(b) && forall id | id in a :: id !in b {
      forall i, j | 0 <= i < j < |c| ensures c[i] != c[j] {
        if i < |a| {
          assert c[i] == a[i] && a[i] in a;
        }
      }
    }
  }

  lemma {:induction false} NoCallSnoc(ms: seq<Message>, m: Message)
    ensures NoCallTwice(ms + [m]) <==>
      && NoCallTwice(ms) && (!m.role.Unknown? && m.content.Blocks? ==> CallsOnce(m.content.blocks))
      && forall i, id | 0 <= i < |ms| && Calls(ms[i], id) :: !Calls(m, id)
  {
    hide CallsOnce, Calls;
    var more := ms + [m];
    assert more[|ms|] == m && forall i | 0 <= i < |ms| :: more[i] == ms[i];
    assert m in more && forall x :: x in more <==> x in ms || x == m;
    if NoCallTwice(more) {
      forall i, j, id | 0 <= i < j < |ms| && Calls(ms[i], id) ensures !Calls(ms[j], id) {
        assert Calls(more[i], id);
        assert !Calls(more[j], id);
      }
      forall i, id | 0 <= i < |ms| && Calls(ms[i], id) ensures !Calls(m, id) {
        assert Calls(more[i], id);
        assert !Calls(more[|ms|], id);
      }
    }
  }

  lemma {:induction false} DistinctIffNoCallTwice(ms: seq<Message>)
    ensures Distinct(AllUses(ms)) <==> NoCallTwice(ms)
  {
    if ms != [] {
      hide Distinct, NoCallTwice, Calls, Uses;
      var init, m := ms[..|ms| - 1], ms[|ms| - 1];
      assert ms == init + [m];
      DistinctIffNoCallTwice(init);
      NoCallSnoc(init, m);
      DistinctJoin(AllUses(init), Uses(m));
      OneMessage(m);
      forall id ensures id in AllUses(init) <==> exists i :: 0 <= i < |init| && Calls(init[i], id) {
        AllUsesAre(init, id);
      }
      forall id ensures id in Uses(m) <==> Calls(m, id) {
        UsesAre(m, id);
      }
    } else {
      assert Distinct(AllUses([])) && NoCallTwice([]);
    }
  }

  lemma {:induction false} OneMessage(m: Message)
    ensures Distinct(Uses(m)) <==> (!m.role.Unknown? && m.content.Blocks? ==> CallsOnce(m.content.blocks))
  {
    DistinctUseIds(BlocksOf(m));
  }

  /** A plain message is empty when it has nothing but spaces, tabs and line breaks. */
  lemma {:induction false} EmptyIff(ms: seq<Message>, i: nat)
    requires i < |ms| && ms[i].role.User? && ms[i].content.Plain?
    ensures Breaks(ms, EmptyMessage, i) <==>
      forall k | 0 <= k < |ms[i].content.text| :: ms[i].content.text[k] in {' ', '\t', '\n', '\r'}
  {
    var text := ms[i].content.text;
    if Blank(text) {
      forall k | 0 <= k < |text| ensures text[k] in {' ', '\t', '\n', '\r'} {
        assert text[k] in text;
      }
    }
  }

  /** A block may stand in its message: images and results in user messages, and a result right after the call it answers. */
  ghost predicate MayStand(ms: seq<Message>, i: nat, b: Block)
    requires i < |ms|
  {
    && (b.Image? || b.ToolResult? ==> ms[i].role.User?)
    && (b.ToolResult? ==> b.useId != "" && i > 0 && ms[i - 1].role.Assistant? && Calls(ms[i - 1], b.useId))
  }

  /** What the protocol demands, in terms of the blocks themselves. */
  lemma {:induction false} ValidIff(ms: seq<Message>)
    ensures Valid(ms) <==>
      && ms != [] && NoCallTwice(ms)
      && forall i | 0 <= i < |ms| ::
           && !ms[i].role.Unknown?
           && (if ms[i].content.Plain? then !Blank(ms[i].content.text)
               else ms[i].content.blocks != [] && forall b | b in ms[i].content.blocks :: MayStand(ms, i, b))
  {
    hide Distinct, NoCallTwice, UseIds, ResultIds, AllUses, Blank;
    DistinctIffNoCallTwice(ms);
    forall i | 0 <= i < |ms|
      ensures Shaped(ms[i]) && Paired(ms, i) <==>
        && !ms[i].role.Unknown?
        && (if ms[i].content.Plain? then !Blank(ms[i].content.text)
            else ms[i].content.blocks != [] && forall b | b in ms[i].content.blocks :: MayStand(ms, i, b))
    {
      MessageIff(ms, i);
    }
  }

  lemma {:induction false} MessageIff(ms: seq<Message>, i: nat)
    requires i < |ms|
    ensures Shaped(ms[i]) && Paired(ms, i) <==>
      && !ms[i].role.Unknown?
      && (if ms[i].content.Plain? then !Blank(ms[i].content.text)
          else ms[i].content.blocks != [] && forall b | b in ms[i].content.blocks :: MayStand(ms, i, b))
  {
    assert UseIds([]) == [];
    hide UseIds, Blank;
    var m := ms[i];
    if m.content.Blocks? {
      var bs := m.content.blocks;
      forall id ensures id in ResultIds(bs) <==> ToolResult(id) in bs {
        IdsAreIn(bs, id);
      }
      forall id ensures id in Offered(ms, i) <==> i > 0 && ms[i - 1].role.Assistant? && Calls(ms[i - 1], id) {
        if i > 0 {
          IdsAreIn(BlocksOf(ms[i - 1]), id);
        }
      }
      hide ResultIds, Offered, Calls;
      if ResultIds(bs) != [] {
        assert ResultIds(bs)[0] in ResultIds(bs) && ToolResult(ResultIds(bs)[0]) in bs;
      }
      if Shaped(m) && Paired(ms, i) {
        forall b | b in bs ensures MayStand(ms, i, b) {
          if b.Image? {
            assert Image in BlocksOf(m);
          }
          if b.ToolResult? {
            assert b == ToolResult(b.useId);
            assert b.useId in ResultIds(bs) && Results(m) == ResultIds(bs) && b.useId in Offered(ms, i);
          }
        }
      }
      if bs != [] && !m.role.Unknown? && forall b | b in bs :: MayStand(ms, i, b) {
        forall r | r in ResultIds(bs) ensures r != "" && r in Offered(ms, i) {
          assert MayStand(ms, i, ToolResult(r));
        }
      }
    } else {
      assert ResultIds([]) == [];
    }
  }
}
