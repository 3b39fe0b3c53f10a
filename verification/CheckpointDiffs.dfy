/** The bounded diffs that accompany a comparison of two checkpoints. */
module CheckpointDiffs {
  import opened Prelude
  import opened Checkpoints

  const MAX_COMPARE_FILES := 20
  const MAX_COMPARE_BYTES := 30_000
  const DIFF_EXCERPT_CHARS := 5_000
  const GIANT := 200_000
  const TAIL := 5

  datatype Operation = AddedFile | RemovedFile | ModifiedFile | RenamedFile

  /** What the diff engine answers for one pair of contents. */
  datatype Patch = Patch(operation: Operation, additions: nat, deletions: nat, unified: string)

  type Engine = (Path, Option<Path>, Option<string>, Option<string>) -> Patch

  datatype FileDiff = FileDiff(path: Path, oldPath: Option<Path>, operation: Operation,
                               additions: nat, deletions: nat, binary: bool, unified: Option<string>)

  /** A comparison with its lists in the order they are shown in. */
  datatype Listing = Listing(modified: seq<Path>, renamed: seq<Rename>, added: seq<Path>, removed: seq<Path>)

  ghost predicate Lists(l: Listing, c: Comparison) {
    && l.renamed == c.renamed && Distinct(l.modified) && Distinct(l.added) && Distinct(l.removed)
    && (forall p :: p in l.modified <==> p in c.modified)
    && (forall p :: p in l.added <==> p in c.added)
    && (forall p :: p in l.removed <==> p in c.removed)
  }

  function Targets(rs: seq<Rename>): (r: seq<Path>)
    ensures |r| == |rs| && forall i | 0 <= i < |rs| :: r[i] == rs[i].to
  {
    seq(|rs|, i requires 0 <= i < |rs| => rs[i].to)
  }

  function Take<T>(s: seq<T>, n: nat): seq<T> { s[..Min(n, |s|)] }

  function DiffPaths(l: Listing): seq<Path> {
    l.modified + Targets(l.renamed) + Take(l.added, TAIL) + Take(l.removed, TAIL)
  }

  /** The first rename to `p`. */
  function RenameTo(rs: seq<Rename>, p: Path): Option<Path> {
    if rs == [] then None else if rs[0].to == p then Some(rs[0].from) else RenameTo(rs[1..], p)
  }

  function Lookup(m: Files, p: Path): Option<Snap> { if p in m then Some(m[p]) else None }

  function ContentOf(f: Option<Snap>): Option<string> {
    if f.Some? && f.value.existed then Some(if f.value.content.Some? then f.value.content.value else "") else None
  }

  function LengthOf(c: Option<string>): nat { if c.Some? then |c.value| else 0 }

  /** The paths, snapshots and contents one step of the loop works on. */
  datatype Work = Work(path: Path, isRename: bool, oldPath: Option<Path>, was: Option<Snap>, now: Option<Snap>) {
    function Old(): Option<string> { ContentOf(was) }

    function New(): Option<string> { ContentOf(now) }

    predicate Binary() {
      (Old().Some? && '\0' in Old().value) || (New().Some? && '\0' in New().value)
    }

    predicate Giant() { !Binary() && LengthOf(Old()) + LengthOf(New()) > GIANT }

    /** The operation shown where the engine is not asked. */
    function Label(): Operation {
      if isRename then RenamedFile
      else if was.Some? && !was.value.existed then AddedFile
      else if now.Some? && !now.value.existed then RemovedFile
      else ModifiedFile
    }
  }

  function WorkOf(a: Files, b: Files, rs: seq<Rename>, p: Path): Work {
    var from := RenameTo(rs, p);
    var oldPath := if from.Some? && from.value == "" then None else from;
    Work(p, from.Some?, oldPath, Lookup(a, if oldPath.Some? then oldPath.value else p), Lookup(b, p))
  }

  function Excerpt(w: Work, engine: Engine): string {
    Take(engine(w.path, w.oldPath, w.Old(), w.New()).unified, DIFF_EXCERPT_CHARS)
  }

  function Entry(w: Work, engine: Engine): FileDiff {
    if w.Binary() then FileDiff(w.path, w.oldPath, w.Label(), 0, 0, true, None)
    else if w.Giant() then FileDiff(w.path, w.oldPath, w.Label(), 0, 0, false, None)
    else
      var patch, text := engine(w.path, w.oldPath, w.Old(), w.New()), Excerpt(w, engine);
      FileDiff(w.path, w.oldPath, patch.operation, patch.additions, patch.deletions, false,
               if text == "" then None else Some(text))
  }

  function Size(w: Work, engine: Engine): nat {
    if w.Binary() || w.Giant() then 0 else |Excerpt(w, engine)|
  }

  function Works(a: Files, b: Files, rs: seq<Rename>, paths: seq<Path>): (ws: seq<Work>)
    ensures |ws| == |paths| && forall i | 0 <= i < |paths| :: ws[i] == WorkOf(a, b, rs, paths[i])
  {
    seq(|paths|, i requires 0 <= i < |paths| => WorkOf(a, b, rs, paths[i]))
  }

  function Total(ws: seq<Work>, engine: Engine): nat {
    if ws == [] then 0 else Total(ws[..|ws| - 1], engine) + Size(ws[|ws| - 1], engine)
  }

  function Entries(ws: seq<Work>, engine: Engine): (r: seq<FileDiff>)
    ensures |r| == |ws| && forall i | 0 <= i < |ws| :: r[i] == Entry(ws[i], engine)
  {
    seq(|ws|, i requires 0 <= i < |ws| => Entry(ws[i], engine))
  }

  /** `n` is the number of leading files that fit: one more would exceed the byte budget or the file limit. */
  ghost predicate Fits(ws: seq<Work>, engine: Engine, n: nat) {
    && n <= |ws| && n <= 20 && Total(ws[..n], engine) <= 30_000
    && (n < |ws| && n < 20 ==> Total(ws[..n + 1], engine) > 30_000)
  }

  ghost predicate AnyGiant(ws: seq<Work>) { exists w :: w in ws && w.Giant() }

  /** One turn of the loop: contents that are binary or giant are listed without a diff, at no cost. */
  method DiffOne(w: Work, engine: Engine) returns (entry: FileDiff, size: nat, giant: bool)
    ensures entry == Entry(w, engine) && size == Size(w, engine) && giant == w.Giant()
    ensures size <= DIFF_EXCERPT_CHARS && (entry.unified.Some? ==> |entry.unified.value| == size > 0)
    ensures entry.binary || giant ==> entry.unified == None && size == 0
  {
    hide Work.Old, Work.New, Work.Label;
    if w.Binary() {
      return FileDiff(w.path, w.oldPath, w.Label(), 0, 0, true, None), 0, false;
    }
    if LengthOf(w.Old()) + LengthOf(w.New()) > GIANT {
      return FileDiff(w.path, w.oldPath, w.Label(), 0, 0, false, None), 0, true;
    }
    var patch := engine(w.path, w.oldPath, w.Old(), w.New());
    var unified := Take(patch.unified, DIFF_EXCERPT_CHARS);
    entry := FileDiff(w.path, w.oldPath, patch.operation, patch.additions, patch.deletions, false,
                      if unified == "" then None else Some(unified));
    return entry, |unified|, false;
  }

  method Diffs(a: Files, b: Files, l: Listing, engine: Engine) returns (diffs: seq<FileDiff>, truncated: bool)
    ensures var ws := Works(a, b, l.renamed, DiffPaths(l));
      && |diffs| <= |ws| && Fits(ws, engine, |diffs|) && diffs == Entries(ws[..|diffs|], engine)
      && (truncated <==> |diffs| < |ws| || AnyGiant(ws[..|diffs|]))
  {
    var diffPaths := DiffPaths(l);
    ghost var ws := Works(a, b, l.renamed, diffPaths);
    var bytes := 0;
    diffs, truncated := [], false;
    NoneShown(ws, engine);
    hide AnyGiant, Total, Works, WorkOf, DiffPaths, Work.Giant, Entry, Size, Entries;
    var shown := Take(diffPaths, MAX_COMPARE_FILES);
    for i := 0 to |shown|
      invariant |diffs| == i && diffs == Entries(ws[..i], engine)
      invariant bytes == Total(ws[..i], engine) <= MAX_COMPARE_BYTES
      invariant truncated <==> AnyGiant(ws[..i])
    {
      Snoc(ws, i, engine);
      var entry, size, giant := DiffOne(WorkOf(a, b, l.renamed, shown[i]), engine);
      bytes := bytes + size;
      if bytes > MAX_COMPARE_BYTES {
        truncated := true;
        break;
      }
      truncated := truncated || giant;
      diffs := diffs + [entry];
    }
    if |diffPaths| > MAX_COMPARE_FILES {
      truncated := true;
    }
  }

  lemma {:induction false} NoneShown(ws: seq<Work>, engine: Engine)
    ensures Total(ws[..0], engine) == 0 && Entries(ws[..0], engine) == [] && !AnyGiant(ws[..0])
  {
  }

  /** What the loop costs and lists for files the engine is asked about. */
  lemma {:induction false} SizeAndEntry(w: Work, engine: Engine)
    ensures var text := Entry(w, engine).unified; Size(w, engine) == if text.Some? then |text.value| else 0
    ensures Size(w, engine) <= DIFF_EXCERPT_CHARS
    ensures w.Binary() || w.Giant() ==> Entry(w, engine).operation == w.Label()
  {
    hide Work.Old, Work.New, Work.Label;
  }

  lemma {:induction false} Snoc(ws: seq<Work>, i: nat, engine: Engine)
    requires i < |ws|
    ensures ws[..i + 1] == ws[..i] + [ws[i]]
    ensures Total(ws[..i + 1], engine) == Total(ws[..i], engine) + Size(ws[i], engine)
    ensures Entries(ws[..i + 1], engine) == Entries(ws[..i], engine) + [Entry(ws[i], engine)]
    ensures AnyGiant(ws[..i + 1]) <==> AnyGiant(ws[..i]) || ws[i].Giant()
  {
    assert ws[..i + 1][..i] == ws[..i];
  }

  // ---- What is shown for one file ------------------------------------------------------------

  /** What the engine is given for a snapshot: nothing for a file that did not exist. */
  ghost predicate IsGiven(f: Option<Snap>, c: Option<string>) {
    && (c.Some? <==> f.Some? && f.value.existed)
    && (c.Some? && f.value.content.Some? ==> c == f.value.content)
    && (c.Some? && f.value.content == None ==> c == Some(""))
  }

  ghost predicate HoldsNul(c: Option<string>) { c.Some? && '\0' in c.value }

  ghost function Chars(c: Option<string>): nat { if c.Some? then |c.value| else 0 }

  /**
   * The two contents are those of the snapshots. A file with a NUL in one of them is shown as
   * binary, one of more than 200000 characters in both is not diffed, and any other shows what
   * the engine says of them, with the first 5000 characters of its text.
   */
  lemma {:induction false} EntryShows(w: Work, engine: Engine, was: Option<string>, now: Option<string>)
    requires IsGiven(w.was, was) && IsGiven(w.now, now)
    ensures
      var d, said := Entry(w, engine), engine(w.path, w.oldPath, was, now);
      && d.path == w.path && d.oldPath == w.oldPath
      && (d.binary <==> HoldsNul(was) || HoldsNul(now))
      && (w.Giant() <==> !d.binary && Chars(was) + Chars(now) > 200_000)
      && (if d.binary || w.Giant() then d.additions == d.deletions == 0 && d.unified == None && Size(w, engine) == 0
          else
            && d.operation == said.operation && d.additions == said.additions && d.deletions == said.deletions
            && Size(w, engine) == Min(5000, |said.unified|)
            && d.unified == (if said.unified == "" then None else Some(said.unified[..Min(5000, |said.unified|)])))
  {
    assert was == w.Old() && now == w.New();
  }

  /** What is shown where the engine is not asked. */
  lemma {:induction false} UnaskedShows(w: Work, engine: Engine)
    requires w.Binary() || w.Giant()
    ensures
      var op := Entry(w, engine).operation;
      && (op == RenamedFile <==> w.isRename)
      && (op == AddedFile <==> !w.isRename && w.was.Some? && !w.was.value.existed)
      && (op == RemovedFile <==>
            !w.isRename && !(w.was.Some? && !w.was.value.existed) && w.now.Some? && !w.now.value.existed)
  {
    hide Work.Old, Work.New;
  }

  /** A path that is no new name is diffed between its own two snapshots. */
  lemma {:induction false} OthersAreDiffedInPlace(a: seq<Snap>, b: seq<Snap>, p: Path)
    requires p !in Tos(Compared(a, b).renamed)
    ensures
      var w := WorkOf(Index(a), Index(b), Compared(a, b).renamed, p);
      && w.path == p && !w.isRename && w.oldPath == None
      && w.was == (if p in Index(a) then Some(Index(a)[p]) else None)
      && w.now == (if p in Index(b) then Some(Index(b)[p]) else None)
  {
    hide Index, Order, Missing, LastWith, Renames, Print;
    Parts(a, b);
    RenameToIs(Compared(a, b).renamed, p);
  }

  /** The candidates are the modified paths, the new names, and the first five added and removed ones, in this order. */
  lemma {:induction false} CandidateAt(l: Listing, i: nat)
    requires i < |DiffPaths(l)|
    ensures
      var m, n := |l.modified|, |l.renamed|;
      var k := m + n + Min(5, |l.added|);
      && |DiffPaths(l)| == k + Min(5, |l.removed|)
      && DiffPaths(l)[i] == if i < m then l.modified[i] else if i < m + n then l.renamed[i - m].to
                            else if i < k then l.added[i - m - n] else l.removed[i - k]
  {
  }

  // ---- What the shown diffs cover ------------------------------------------------------------

  function TotalText(diffs: seq<FileDiff>): nat {
    if diffs == [] then 0
    else
      var last := diffs[|diffs| - 1];
      TotalText(diffs[..|diffs| - 1]) + if last.unified.Some? then |last.unified.value| else 0
  }

  /** However many files changed, at most 20 are shown, with at most 5000 characters each and 30000 in all. */
  lemma {:induction false} ShownIsBounded(ws: seq<Work>, engine: Engine, n: nat)
    requires Fits(ws, engine, n)
    ensures var diffs := Entries(ws[..n], engine);
      && |diffs| <= 20 && TotalText(diffs) <= 30_000
      && forall d | d in diffs && d.unified.Some? :: |d.unified.value| <= 5000
  {
    TextIsTotal(ws[..n], engine);
  }

  lemma {:induction false} TextIsTotal(ws: seq<Work>, engine: Engine)
    ensures TotalText(Entries(ws, engine)) == Total(ws, engine)
  {
    if ws != [] {
      var init, w := ws[..|ws| - 1], ws[|ws| - 1];
      TextIsTotal(init, engine);
      var diffs := Entries(ws, engine);
      assert diffs[..|diffs| - 1] == Entries(init, engine);
      SizeAndEntry(w, engine);
    }
  }

  /** The longest affordable prefix: no other number of files fits. */
  lemma {:induction false} FitsOnce(ws: seq<Work>, engine: Engine, m: nat, n: nat)
    requires Fits(ws, engine, m) && Fits(ws, engine, n)
    ensures m == n
  {
    if m < n {
      TotalGrows(ws, engine, m + 1, n);
    } else if n < m {
      TotalGrows(ws, engine, n + 1, m);
    }
  }

  lemma {:induction false} TotalGrows(ws: seq<Work>, engine: Engine, m: nat, n: nat)
    requires m <= n <= |ws|
    ensures Total(ws[..m], engine) <= Total(ws[..n], engine)
    decreases n
  {
    if m < n {
      TotalGrows(ws, engine, m, n - 1);
      Snoc(ws, n - 1, engine);
    }
  }

  /** The paths the comparison says differ, named as in the second checkpoint where they still exist. */
  function Changed(c: Comparison): set<Path> {
    c.modified + Tos(c.renamed) + c.added + c.removed
  }

  lemma {:induction false} TargetsAre(rs: seq<Rename>)
    ensures forall p :: p in Targets(rs) <==> p in Tos(rs)
    ensures OneToOne(rs) ==> Distinct(Targets(rs))
  {
    forall p | p in Tos(rs) ensures p in Targets(rs) {
      var r :| r in rs && r.to == p;
      var i :| 0 <= i < |rs| && rs[i] == r;
      assert Targets(rs)[i] == p;
    }
  }

  lemma {:induction false} Take5(s: seq<Path>)
    requires Distinct(s)
    ensures Distinct(Take(s, TAIL)) && (forall p | p in Take(s, TAIL) :: p in s)
    ensures (forall p | p in s :: p in Take(s, TAIL)) <==> |s| <= TAIL
  {
    if |s| > TAIL {
      assert s[TAIL] !in Take(s, TAIL);
    } else {
      assert Take(s, TAIL) == s;
    }
  }

  lemma {:induction false} DistinctAppend(s: seq<Path>, t: seq<Path>)
    requires Distinct(s) && Distinct(t) && forall p | p in s :: p !in t
    ensures Distinct(s + t)
  {
    forall i, j | 0 <= i < j < |s + t| ensures (s + t)[i] != (s + t)[j] {
      if i < |s| {
        assert (s + t)[i] == s[i] && s[i] in s;
      }
    }
  }

  /** No path is diffed twice, and the candidates are all the changed paths exactly when at most five were added and removed. */
  lemma {:induction false} CandidatesAre(a: seq<Snap>, b: seq<Snap>, l: Listing)
    requires Lists(l, Compared(a, b))
    ensures Distinct(DiffPaths(l)) && (forall p | p in DiffPaths(l) :: p in Changed(Compared(a, b)))
    ensures (forall p | p in Changed(Compared(a, b)) :: p in DiffPaths(l)) <==> |l.added| <= TAIL && |l.removed| <= TAIL
  {
    hide Compared, Take, Targets, Tos, Froms, Index, Unchanged;
    var c := Compared(a, b);
    Parts(a, b);
    TargetsAre(l.renamed);
    Take5(l.added);
    Take5(l.removed);
    var added, removed := Take(l.added, TAIL), Take(l.removed, TAIL);
    DistinctAppend(l.modified, Targets(l.renamed));
    DistinctAppend(l.modified + Targets(l.renamed), added);
    DistinctAppend(l.modified + Targets(l.renamed) + added, removed);
    forall p ensures p in DiffPaths(l) <==> p in c.modified || p in Tos(c.renamed) || p in added || p in removed {
    }
  }

  lemma {:induction false} Parts(a: seq<Snap>, b: seq<Snap>)
    ensures var c := Compared(a, b);
      && (c.modified !! Tos(c.renamed) !! c.added !! c.removed) && OneToOne(c.renamed)
      && (forall p | p in c.removed :: p in Index(a) && p !in Index(b))
      && (forall p | p in c.added + Tos(c.renamed) :: p in Index(b) && p !in Index(a))
  {
    hide Index, Order, Missing, LastWith, Renames, Print, Modified, Unchanged, Froms, Tos;
    EveryPathOnce(a, b);
    RenamesInjective(Index(a), Missing(Order(a), Index(b)), Index(b), Missing(Order(b), Index(a)));
  }

  /** Every changed path has its diff exactly when nothing was cut off and at most five paths were added and removed. */
  lemma {:induction false} AllShownIff(a: seq<Snap>, b: seq<Snap>, l: Listing, n: nat)
    requires Lists(l, Compared(a, b)) && n <= |DiffPaths(l)|
    ensures (forall p | p in Changed(Compared(a, b)) :: p in DiffPaths(l)[..n]) <==>
      n == |DiffPaths(l)| && |l.added| <= TAIL && |l.removed| <= TAIL
  {
    hide Compared, DiffPaths, Changed;
    CandidatesAre(a, b, l);
    var paths := DiffPaths(l);
    if n < |paths| {
      assert paths[n] in paths && paths[n] !in paths[..n];
    } else {
      assert paths[..n] == paths;
    }
  }

  /**
   * A comparison that is not flagged as truncated shows every changed path exactly when at most
   * five were added and at most five removed: the flag does not tell of the paths past the fifth.
   */
  lemma {:induction false} UnflaggedShowsAllIff(a: seq<Snap>, b: seq<Snap>, l: Listing, engine: Engine,
                                                diffs: seq<FileDiff>, truncated: bool)
    requires Lists(l, Compared(a, b))
    requires var ws := Works(Index(a), Index(b), l.renamed, DiffPaths(l));
      && |diffs| <= |ws| && diffs == Entries(ws[..|diffs|], engine)
      && (truncated <==> |diffs| < |ws| || AnyGiant(ws[..|diffs|]))
    requires !truncated
    ensures (forall p | p in Changed(Compared(a, b)) :: exists d :: d in diffs && d.path == p) <==>
      |l.added| <= TAIL && |l.removed| <= TAIL
  {
    hide Compared, DiffPaths, Changed, Work.Giant, Index;
    var paths := DiffPaths(l);
    var ws := Works(Index(a), Index(b), l.renamed, paths);
    AllShownIff(a, b, l, |paths|);
    assert paths[..|paths|] == paths;
    forall p ensures p in paths <==> exists d :: d in diffs && d.path == p {
      PathsShown(ws, engine, p);
      if i :| 0 <= i < |paths| && paths[i] == p {
        assert ws[i].path == p && ws[i] in ws;
      }
    }
  }

  lemma {:induction false} PathsShown(ws: seq<Work>, engine: Engine, p: Path)
    ensures (exists d :: d in Entries(ws, engine) && d.path == p) <==> exists w :: w in ws && w.path == p
  {
    hide Entry;
    var diffs := Entries(ws, engine);
    if w :| w in ws && w.path == p {
      var i :| 0 <= i < |ws| && ws[i] == w;
      EntryPath(w, engine);
      assert diffs[i].path == p && diffs[i] in diffs;
    }
    if d :| d in diffs && d.path == p {
      var i :| 0 <= i < |diffs| && diffs[i] == d;
      EntryPath(ws[i], engine);
      assert ws[i].path == p && ws[i] in ws;
    }
  }

  lemma {:induction false} EntryPath(w: Work, engine: Engine)
    ensures Entry(w, engine).path == w.path
  {
  }

  lemma {:induction false} RenameToIs(rs: seq<Rename>, p: Path)
    requires OneToOne(rs)
    ensures RenameTo(rs, p) == None <==> p !in Tos(rs)
    ensures forall r | r in rs && r.to == p :: RenameTo(rs, p) == Some(r.from)
  {
    if rs != [] {
      var tail := rs[1..];
      RenameToIs(tail, p);
      assert rs == [rs[0]] + tail;
      forall r | r in tail ensures r.to != rs[0].to {
        var i :| 0 <= i < |tail| && tail[i] == r;
        assert rs[i + 1] == r;
      }
    }
  }

  /** The diff of a renamed path is taken between the two ends of its pair. */
  lemma {:induction false} RenamedIsDiffedAcross(a: seq<Snap>, b: seq<Snap>, r: Rename)
    requires r in Compared(a, b).renamed
    ensures r.from in Index(a) && r.to in Index(b)
    ensures WorkOf(Index(a), Index(b), Compared(a, b).renamed, r.to) ==
      Work(r.to, true, Some(r.from), Some(Index(a)[r.from]), Some(Index(b)[r.to]))
  {
    hide Index, Order, Missing, LastWith, Print;
    Parts(a, b);
    EveryPathOnce(a, b);
    RenameToIs(Compared(a, b).renamed, r.to);
    var left, right := Index(a), Index(b);
    RenamesNamed(right, LastWith(left, Missing(Order(a), right)), Missing(Order(b), left));
  }

  lemma {:induction false} RenamesNamed(b: Files, last: map<string, Path>, added: seq<Path>)
    requires forall p | p in added :: p in b
    ensures forall r | r in Renames(b, last, added) :: r.from != ""
  {
    if added != [] {
      assert added == added[..|added| - 1] + [added[|added| - 1]];
      RenamesNamed(b, last, added[..|added| - 1]);
    }
  }

  /** The engine is asked about the contents. */
  predicate Asked(w: Work) { !w.Binary() && !w.Giant() }

  /**
   * An added path is labelled as added exactly when the engine is asked and says so, and a
   * removed one likewise: the label for contents it is not asked about is always another.
   */
  lemma {:induction false} AddedIsMislabelled(a: seq<Snap>, b: seq<Snap>, p: Path, engine: Engine)
    ensures
      var w := WorkOf(Index(a), Index(b), Compared(a, b).renamed, p);
      var op, said := Entry(w, engine).operation, engine(w.path, w.oldPath, w.Old(), w.New()).operation;
      && (p in Compared(a, b).added ==>
            && p in Index(b) && (op == AddedFile <==> Asked(w) && said == AddedFile)
            && (!Asked(w) ==> op == if Index(b)[p].existed then ModifiedFile else RemovedFile))
      && (p in Compared(a, b).removed ==>
            && p in Index(a) && (op == RemovedFile <==> Asked(w) && said == RemovedFile)
            && (!Asked(w) ==> op == if Index(a)[p].existed then ModifiedFile else AddedFile))
  {
    hide Index, Order, Missing, LastWith, Renames, Print, Work.Binary, Work.Giant, Work.Old, Work.New;
    Parts(a, b);
    RenameToIs(Compared(a, b).renamed, p);
    SizeAndEntry(WorkOf(Index(a), Index(b), Compared(a, b).renamed, p), engine);
  }

  // ---- Comparisons that do ---------------------------------------------------------------------

  lemma {:induction false} FromNothing(b: seq<Snap>)
    ensures Index([]) == map[] && Compared([], b).renamed == [] && Compared([], b).added == Index(b).Keys
    ensures Compared([], b).removed == {} && Compared([], b).modified == {}
  {
    hide Order, Missing, LastWith, Renames, Print;
    var rs := Compared([], b).renamed;
    assert rs != [] ==> rs[0] in rs;
    EveryPathOnce([], b);
  }

  /** A binary file that was added is shown as modified. */
  lemma {:induction false} BinaryAddedSaysModified(engine: Engine)
    ensures var b := [Snap("p", true, None, Some("\0"))];
      && "p" in Compared([], b).added
      && Entry(WorkOf(Index([]), Index(b), Compared([], b).renamed, "p"), engine).operation == ModifiedFile
  {
    var b := [Snap("p", true, None, Some("\0"))];
    OneFile(b[0]);
    FromNothing(b);
    hide *;
    NulIsBinary(b[0]);
    AddedIsMislabelled([], b, "p", engine);
    NotAsked(WorkOf(map[], Index(b), [], "p"));
  }

  lemma {:induction false} NulIsBinary(f: Snap)
    requires f == Snap("p", true, None, Some("\0"))
    ensures "p" in map[f.path := f] && map[f.path := f]["p"].existed && WorkOf(map[], map[f.path := f], [], "p").Binary()
  {
    assert "\0"[0] == '\0';
  }

  lemma {:induction false} NotAsked(w: Work)
    ensures w.Binary() ==> !Asked(w)
  {
  }

  function Name(n: nat): (p: Path)
    ensures |p| == n + 1
  {
    seq(n + 1, _ => 'f')
  }

  function Names(n: nat): (r: seq<Path>)
    ensures |r| == n && forall i | 0 <= i < n :: r[i] == Name(i)
  {
    seq(n, i requires 0 <= i => Name(i))
  }

  /** `n` empty files. */
  function Empty(n: nat): (files: seq<Snap>)
    ensures |files| == n && forall i | 0 <= i < n :: files[i] == Snap(Name(i), true, None, Some(""))
  {
    seq(n, i requires 0 <= i => Snap(Name(i), true, None, Some("")))
  }

  function Silent(path: Path, oldPath: Option<Path>, was: Option<string>, now: Option<string>): Patch {
    Patch(AddedFile, 0, 0, "")
  }

  lemma {:induction false} EmptyIndex(n: nat)
    ensures forall p :: p in Index(Empty(n)) <==> p in Names(n)
    ensures forall p | p in Index(Empty(n)) :: Index(Empty(n))[p] == Snap(p, true, None, Some(""))
  {
    if n == 0 {
      assert Empty(0) == [] && Names(0) == [];
    } else {
      EmptyIndex(n - 1);
      assert Empty(n)[..n - 1] == Empty(n - 1);
      assert Names(n) == Names(n - 1) + [Name(n - 1)];
    }
  }

  lemma {:induction false} NamesDistinct(n: nat)
    ensures Distinct(Names(n))
  {
    forall i, j | 0 <= i < j < n ensures Names(n)[i] != Names(n)[j] {
      assert |Name(i)| != |Name(j)|;
    }
  }

  lemma {:induction false} NoTotal(ws: seq<Work>, engine: Engine)
    requires forall w | w in ws :: Size(w, engine) == 0
    ensures Total(ws, engine) == 0
  {
    if ws != [] {
      NoTotal(ws[..|ws| - 1], engine);
      assert ws[|ws| - 1] in ws;
    }
  }

  lemma {:induction false} EmptyWork(m: Files, p: Path)
    requires p in m && m[p] == Snap(p, true, None, Some(""))
    ensures var w := WorkOf(map[], m, [], p); w.path == p && Size(w, Silent) == 0 && !w.Giant()
  {
  }

  /** Nothing is cut off and nothing is flagged when only empty files are listed. */
  lemma {:induction false} EmptyWorks(m: Files, paths: seq<Path>)
    requires |paths| <= MAX_COMPARE_FILES
    requires forall p | p in paths :: p in m && m[p] == Snap(p, true, None, Some(""))
    ensures var ws := Works(map[], m, [], paths);
      |ws| == |paths| && Fits(ws, Silent, |paths|) && !AnyGiant(ws) && forall p :: (exists d :: d in Entries(ws, Silent) && d.path == p) <==> p in paths
  {
    hide WorkOf, Size, Work.Giant, Entry, Total, Silent;
    var ws := Works(map[], m, [], paths);
    forall w | w in ws ensures Size(w, Silent) == 0 && !w.Giant() && w.path in paths {
      var i :| 0 <= i < |paths| && ws[i] == w;
      EmptyWork(m, paths[i]);
    }
    assert ws[..|paths|] == ws;
    NoTotal(ws, Silent);
    forall p ensures (exists d :: d in Entries(ws, Silent) && d.path == p) <==> p in paths {
      PathsShown(ws, Silent, p);
      if i :| 0 <= i < |paths| && paths[i] == p {
        EmptyWork(m, p);
        assert ws[i] in ws;
      }
    }
  }

  /** Six added empty files: five are shown, nothing is flagged, and the sixth is missing. */
  lemma {:induction false} SixthAddedIsMissing()
    ensures
      var b, l := Empty(6), Listing([], [], Names(6), []);
      var ws := Works(Index([]), Index(b), l.renamed, DiffPaths(l));
      && Lists(l, Compared([], b)) && |ws| == 5 && Fits(ws, Silent, 5) && !AnyGiant(ws)
      && Name(5) in Compared([], b).added && !exists d :: d in Entries(ws, Silent) && d.path == Name(5)
  {
    hide *;
    EmptyListed(6);
    Candidates(Names(6));
    SixthNotBefore();
    EmptyWorks(Index(Empty(6)), Names(6)[..5]);
  }

  lemma {:induction false} EmptyListed(n: nat)
    ensures Index([]) == map[] && |Names(n)| == n && Lists(Listing([], [], Names(n), []), Compared([], Empty(n)))
    ensures forall p :: p in Names(n) <==> p in Compared([], Empty(n)).added
    ensures forall p | p in Names(n) :: p in Index(Empty(n)) && Index(Empty(n))[p] == Snap(p, true, None, Some(""))
  {
    EmptyIndex(n);
    FromNothing(Empty(n));
    NamesDistinct(n);
    hide Index, Compared, Empty;
  }

  lemma {:induction false} Candidates(added: seq<Path>)
    requires |added| == 6
    ensures DiffPaths(Listing([], [], added, [])) == added[..5]
    ensures added[5] in added && |added[..5]| == 5 && (forall p | p in added[..5] :: p in added)
    ensures MAX_COMPARE_FILES == 20 && forall ws: seq<Work> | |ws| == 5 :: ws[..5] == ws
  {
  }

  lemma {:induction false} SixthNotBefore()
    ensures |Names(6)| == 6 && Names(6)[5] == Name(5) && Name(5) !in Names(6)[..5]
  {
    forall i | 0 <= i < 5 ensures Names(6)[..5][i] != Name(5) {
      assert |Name(i)| != |Name(5)|;
    }
  }
}
