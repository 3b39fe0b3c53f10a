/** Comparison of two checkpoints: the partition of paths, rename matching, bounded diffs. */
module Checkpoints {
  import opened Prelude

  type Path = string

  datatype Snap = Snap(path: Path, existed: bool, hash: Option<string>, content: Option<string>)

  type Files = map<Path, Snap>

  /** The map of a checkpoint's files; of two entries with one path the later wins. */
  function Index(files: seq<Snap>): Files {
    if files == [] then map[]
    else Index(files[..|files| - 1])[files[|files| - 1].path := files[|files| - 1]]
  }

  /** Its keys in insertion order. */
  function Order(files: seq<Snap>): (r: seq<Path>)
    ensures Distinct(r) && forall p :: p in r <==> p in Index(files)
  {
    if files == [] then []
    else
      var init, p := Order(files[..|files| - 1]), files[|files| - 1].path;
      if p in init then init else init + [p]
  }

  /** What two snapshots of a path are compared by. */
  function ContentKey(f: Snap): Option<string> {
    if f.hash.Some? then f.hash else f.content
  }

  /** What renames are matched by; an empty hash matches nothing. */
  function Print(f: Snap): Option<string> {
    if f.hash.Some? then (if f.hash.value == "" then None else f.hash)
    else if f.content.Some?
    then Some("c:" + Decimal(|f.content.value|) + ":" + f.content.value[..Min(|f.content.value|, 64)])
    else None
  }

  /** The paths of `order` that `other` lacks. */
  function Missing(order: seq<Path>, other: Files): (r: seq<Path>)
    ensures forall p :: p in r <==> p in order && p !in other
    ensures Distinct(order) ==> Distinct(r)
  {
    if order == [] then []
    else
      var init, p := order[..|order| - 1], order[|order| - 1];
      assert order == init + [p];
      assert Distinct(order) ==> Distinct(init) && p !in init by {
        if Distinct(order) {
          forall i | 0 <= i < |init| ensures init[i] != p {
            assert order[i] != order[|order| - 1];
          }
          forall i, j | 0 <= i < j < |init| ensures init[i] != init[j] {
            assert order[i] != order[j];
          }
        }
      }
      if p in other then Missing(init, other) else Missing(init, other) + [p]
  }

  /** The last of `removed` with each fingerprint. */
  function LastWith(a: Files, removed: seq<Path>): (m: map<string, Path>)
    requires forall p | p in removed :: p in a
    ensures forall h | h in m :: m[h] in removed && Print(a[m[h]]) == Some(h)
    ensures forall p | p in removed && Print(a[p]).Some? :: Print(a[p]).value in m
  {
    if removed == [] then map[]
    else
      var init, p := removed[..|removed| - 1], removed[|removed| - 1];
      assert removed == init + [p];
      if Print(a[p]).Some? then LastWith(a, init)[Print(a[p]).value := p] else LastWith(a, init)
  }

  datatype Rename = Rename(from: Path, to: Path)

  /** The first added path of each fingerprint is paired with the last removed one. */
  function Renames(b: Files, last: map<string, Path>, added: seq<Path>): seq<Rename>
    requires forall p | p in added :: p in b
  {
    if added == [] then []
    else
      var init, p := added[..|added| - 1], added[|added| - 1];
      var h := Print(b[p]);
      Renames(b, last, init) +
      if h.Some? && h.value in last && last[h.value] != "" && (forall q | q in init :: Print(b[q]) != h)
      then [Rename(last[h.value], p)] else []
  }

  function Froms(rs: seq<Rename>): set<Path> { set r | r in rs :: r.from }

  function Tos(rs: seq<Rename>): set<Path> { set r | r in rs :: r.to }

  datatype Comparison = Comparison(added: set<Path>, removed: set<Path>, modified: set<Path>,
                                   renamed: seq<Rename>, kept: nat)

  function Modified(a: Files, b: Files): set<Path> {
    set p | p in a && p in b && ContentKey(a[p]) != ContentKey(b[p])
  }

  function Unchanged(a: Files, b: Files): set<Path> {
    set p | p in a && p in b && ContentKey(a[p]) == ContentKey(b[p])
  }

  function RenamesOf(a: seq<Snap>, b: seq<Snap>): seq<Rename> {
    Renames(Index(b), LastWith(Index(a), Missing(Order(a), Index(b))), Missing(Order(b), Index(a)))
  }

  function Compared(a: seq<Snap>, b: seq<Snap>): Comparison {
    var renamed := RenamesOf(a, b);
    Comparison(Index(b).Keys - Index(a).Keys - Tos(renamed), Index(a).Keys - Index(b).Keys - Froms(renamed),
               Modified(Index(a), Index(b)), renamed, |Unchanged(Index(a), Index(b))|)
  }

  /** The fingerprints that are paired: found on both sides, and not removed from the empty path. */
  ghost predicate IsPaired(b: Files, last: map<string, Path>, added: seq<Path>, h: string)
    requires forall p | p in added :: p in b
  {
    h in last && last[h] != "" && exists q :: q in added && Print(b[q]) == Some(h)
  }

  // ---- The comparison, step by step -----------------------------------------------------

  method BuildIndex(files: seq<Snap>) returns (m: Files, order: seq<Path>)
    ensures m == Index(files) && order == Order(files)
  {
    m, order := map[], [];
    for i := 0 to |files|
      invariant m == Index(files[..i]) && order == Order(files[..i])
    {
      assert files[..i + 1][..i] == files[..i];
      if files[i].path !in m {
        order := order + [files[i].path];
      }
      m := m[files[i].path := files[i]];
    }
    assert files[..|files|] == files;
  }

  lemma {:induction false} MissingNone(other: Files)
    ensures Missing([], other) == []
  {
  }

  lemma {:induction false} MissingSnoc(init: seq<Path>, p: Path, other: Files)
    ensures Missing(init + [p], other) == if p in other then Missing(init, other) else Missing(init, other) + [p]
  {
    assert (init + [p])[..|init|] == init;
  }

  lemma {:induction false} NotBefore(order: seq<Path>, i: nat)
    requires Distinct(order) && i < |order|
    ensures order[..i + 1] == order[..i] + [order[i]] && order[i] !in order[..i]
  {
  }

  /** The paths of `seen` found in both checkpoints, split by whether their content is the same. */
  ghost predicate Split(a: Files, b: Files, seen: seq<Path>, modified: set<Path>, same: set<Path>) {
    && (forall p :: p in modified <==> p in seen && p in a && p in b && ContentKey(a[p]) != ContentKey(b[p]))
    && (forall p :: p in same <==> p in seen && p in a && p in b && ContentKey(a[p]) == ContentKey(b[p]))
  }

  lemma {:induction false} SplitNone(a: Files, b: Files)
    ensures Split(a, b, [], {}, {})
  {
  }

  lemma {:induction false} SplitSnoc(a: Files, b: Files, seen: seq<Path>, p: Path, modified: set<Path>, same: set<Path>)
    requires Split(a, b, seen, modified, same) && p in a && p !in seen
    ensures p !in same
    ensures p !in b ==> Split(a, b, seen + [p], modified, same)
    ensures p in b && ContentKey(a[p]) == ContentKey(b[p]) ==> Split(a, b, seen + [p], modified, same + {p})
    ensures p in b && ContentKey(a[p]) != ContentKey(b[p]) ==> Split(a, b, seen + [p], modified + {p}, same)
  {
  }

  lemma {:induction false} SplitAll(a: Files, b: Files, order: seq<Path>, modified: set<Path>, same: set<Path>)
    requires Split(a, b, order, modified, same) && Enumerates(order, a)
    ensures modified == Modified(a, b) && same == Unchanged(a, b)
  {
  }

  /** `order` lists the keys of `m`, each once. */
  ghost predicate Enumerates(order: seq<Path>, m: Files) {
    Distinct(order) && forall p :: p in order <==> p in m
  }

  lemma {:induction false} KeyAt(order: seq<Path>, m: Files, i: nat)
    requires Enumerates(order, m) && i < |order|
    ensures order[i] in m && order[..i + 1] == order[..i] + [order[i]] && order[i] !in order[..i]
  {
    NotBefore(order, i);
  }

  /** Sorts the paths of the first checkpoint into removed, modified and unchanged. */
  method Classify(a: Files, order: seq<Path>, b: Files) returns (removed: seq<Path>, modified: set<Path>, kept: nat)
    requires Enumerates(order, a)
    ensures removed == Missing(order, b) && modified == Modified(a, b) && kept == |Unchanged(a, b)|
  {
    hide Enumerates, Missing, ContentKey, Index, Order, Split, Modified, Unchanged, Distinct;
    removed, modified, kept := [], {}, 0;
    MissingNone(b);
    SplitNone(a, b);
    ghost var same: set<Path> := {};
    for i := 0 to |order|
      invariant removed == Missing(order[..i], b)
      invariant Split(a, b, order[..i], modified, same)
      invariant kept == |same|
    {
      var p := order[i];
      KeyAt(order, a, i);
      MissingSnoc(order[..i], p, b);
      SplitSnoc(a, b, order[..i], p, modified, same);
      if p !in b {
        removed := removed + [p];
      } else if ContentKey(a[p]) == ContentKey(b[p]) {
        kept := kept + 1;
        same := same + {p};
      } else {
        modified := modified + {p};
      }
    }
    assert order[..|order|] == order;
    SplitAll(a, b, order, modified, same);
  }

  method IndexByPrint(a: Files, removed: seq<Path>) returns (last: map<string, Path>)
    requires forall p | p in removed :: p in a
    ensures last == LastWith(a, removed)
  {
    last := map[];
    for i := 0 to |removed|
      invariant last == LastWith(a, removed[..i])
    {
      var p := removed[i];
      assert removed[..i + 1][..i] == removed[..i];
      if Print(a[p]).Some? {
        last := last[Print(a[p]).value := p];
      }
    }
    assert removed[..|removed|] == removed;
  }

  /** The matching loop: a pair is made while both its paths are still unmatched. */
  method MatchRenames(a: Files, removed: seq<Path>, b: Files, added: seq<Path>, last: map<string, Path>)
    returns (renamed: seq<Rename>, addedSet: set<Path>, removedSet: set<Path>)
    requires (forall p | p in removed :: p in a) && (forall p | p in added :: p in b)
    requires Distinct(added) && last == LastWith(a, removed)
    ensures renamed == Renames(b, last, added)
    ensures addedSet == (set p | p in added) - Tos(renamed)
    ensures removedSet == (set p | p in removed) - Froms(renamed)
  {
    hide Renames, LastWith, Print, Froms, Tos, Distinct;
    NoEnds();
    addedSet, removedSet, renamed := set p | p in added, set p | p in removed, [];
    RenamesNone(b, last);
    for i := 0 to |added|
      invariant renamed == Renames(b, last, added[..i])
      invariant addedSet == (set p | p in added) - Tos(renamed)
      invariant removedSet == (set p | p in removed) - Froms(renamed)
    {
      var p := added[i];
      ghost var init := added[..i];
      MatchStep(a, removed, b, last, added, i);
      var h := Print(b[p]);
      var from := if h.Some? && h.value in last then Some(last[h.value]) else None;
      if from.Some? && from.value != "" && p in addedSet && from.value in removedSet {
        EndsAre(renamed, Rename(from.value, p));
        renamed := renamed + [Rename(from.value, p)];
        addedSet := addedSet - {p};
        removedSet := removedSet - {from.value};
      }
    }
    assert added[..|added|] == added;
  }

  lemma {:induction false} EndsAre(rs: seq<Rename>, r: Rename)
    ensures Froms(rs + [r]) == Froms(rs) + {r.from} && Tos(rs + [r]) == Tos(rs) + {r.to}
  {
  }

  lemma {:induction false} RenamesNone(b: Files, last: map<string, Path>)
    ensures Renames(b, last, []) == []
  {
  }

  lemma {:induction false} NoEnds()
    ensures Froms([]) == {} && Tos([]) == {}
  {
  }

  lemma {:induction false} RenamesSnoc(b: Files, last: map<string, Path>, init: seq<Path>, p: Path)
    requires (forall q | q in init :: q in b) && p in b
    ensures (forall q | q in init + [p] :: q in b) && (init + [p])[..|init|] == init
    ensures Renames(b, last, init + [p]) == Renames(b, last, init) +
      if Print(b[p]).Some? && Print(b[p]).value in last && last[Print(b[p]).value] != ""
         && (forall q | q in init :: Print(b[q]) != Print(b[p]))
      then [Rename(last[Print(b[p]).value], p)] else []
  {
    hide Print;
    assert (init + [p])[..|init|] == init;
  }

  /** One turn of the matching loop pairs exactly the first added path of a fingerprint. */
  lemma {:induction false} MatchStep(a: Files, removed: seq<Path>, b: Files, last: map<string, Path>, added: seq<Path>, i: nat)
    requires (forall p | p in removed :: p in a) && (forall p | p in added :: p in b)
    requires Distinct(added) && last == LastWith(a, removed) && i < |added|
    ensures forall q | q in added[..i] + [added[i]] :: q in b
    ensures added[..i + 1] == added[..i] + [added[i]] && added[i] in added
    ensures var p, rs := added[i], Renames(b, last, added[..i]);
      var h := Print(b[p]);
      && p !in Tos(rs)
      && Renames(b, last, added[..i + 1]) == rs +
         if h.Some? && h.value in last && last[h.value] != "" && last[h.value] in removed && last[h.value] !in Froms(rs)
         then [Rename(last[h.value], p)] else []
  {
    hide Print, Renames, LastWith, Distinct, Froms;
    var p, init := added[i], added[..i];
    NotBefore(added, i);
    var h := Print(b[p]);
    RenamesSnoc(b, last, init, p);
    var _ := RenamesMean(b, last, init);
    if h.Some? && h.value in last && last[h.value] != "" {
      FromTaken(a, removed, b, last, init, h.value);
      assert last[h.value] in removed;
    }
  }

  lemma {:induction false} MissingKeys(order: seq<Path>, m: Files, other: Files)
    requires forall p :: p in order <==> p in m
    ensures (set p | p in Missing(order, other)) == m.Keys - other.Keys
  {
  }

  method CompareCheckpoints(a: seq<Snap>, b: seq<Snap>) returns (r: Comparison)
    ensures r == Compared(a, b)
    ensures forall p :: p in r.modified <==> p in Index(a) && p in Index(b) && Differ(Index(a)[p], Index(b)[p])
  {
    ModifiedDiffer(a, b);
    hide Modified, Unchanged, Renames, LastWith, Missing, Index, Order, Froms, Tos;
    var mapA, orderA := BuildIndex(a);
    var mapB, orderB := BuildIndex(b);
    var removed, modified, kept := Classify(mapA, orderA, mapB);
    var added := Missing(orderB, mapA);
    var last := IndexByPrint(mapA, removed);
    var renamed, addedSet, removedSet := MatchRenames(mapA, removed, mapB, added, last);
    MissingKeys(orderA, mapA, mapB);
    MissingKeys(orderB, mapB, mapA);
    return Comparison(addedSet, removedSet, modified, renamed, kept);
  }

  // ---- What the parts say about the files ----------------------------------------------------

  /** By their hashes if both have one, by their contents if none has; a hash is compared with a content otherwise. */
  ghost predicate Differ(f: Snap, g: Snap) {
    match (f.hash, g.hash)
    case (Some(h), Some(k)) => h != k
    case (None, None) => f.content != g.content
    case (Some(h), None) => g.content != Some(h)
    case (None, Some(k)) => f.content != Some(k)
  }

  /** A path of both checkpoints is modified exactly when its two files differ. */
  lemma {:induction false} ModifiedDiffer(a: seq<Snap>, b: seq<Snap>)
    ensures forall p :: p in Compared(a, b).modified <==> p in Index(a) && p in Index(b) && Differ(Index(a)[p], Index(b)[p])
  {
    hide Index, RenamesOf, Unchanged, Froms, Tos;
  }

  /** The index holds for each listed path the last file listed under it. */
  lemma {:induction false} IndexIsLast(files: seq<Snap>, p: Path) returns (i: nat)
    requires p in Index(files)
    ensures i < |files| && files[i] == Index(files)[p] && files[i].path == p
    ensures forall j | i < j < |files| :: files[j].path != p
  {
    var init, f := files[..|files| - 1], files[|files| - 1];
    if f.path == p {
      i := |files| - 1;
    } else {
      i := IndexIsLast(init, p);
    }
  }

  /** Listing more files moves no path: paths stand in the order of their first listing. */
  lemma {:induction false} OrderGrows(files: seq<Snap>, k: nat)
    requires k <= |files|
    ensures Order(files[..k]) <= Order(files)
  {
    if k < |files| {
      OrderGrows(files[..|files| - 1], k);
      assert files[..|files| - 1][..k] == files[..k];
    } else {
      assert files[..k] == files;
    }
  }

  /** The missing paths stand in the same order. */
  lemma {:induction false} MissingGrows(order: seq<Path>, other: Files, k: nat)
    requires k <= |order|
    ensures Missing(order[..k], other) <= Missing(order, other)
  {
    if k < |order| {
      MissingGrows(order[..|order| - 1], other, k);
      assert order[..|order| - 1][..k] == order[..k];
    } else {
      assert order[..k] == order;
    }
  }

  // ---- What the matching is ------------------------------------------------------------------

  lemma {:induction false} PairedSnoc(b: Files, last: map<string, Path>, init: seq<Path>, p: Path, h: string)
    requires (forall q | q in init :: q in b) && p in b
    ensures IsPaired(b, last, init + [p], h) <==>
      IsPaired(b, last, init, h) || (h in last && last[h] != "" && Print(b[p]) == Some(h))
  {
    if IsPaired(b, last, init, h) {
      var q :| q in init && Print(b[q]) == Some(h);
      assert q in init + [p];
    }
    if Print(b[p]) == Some(h) {
      assert p in init + [p];
    }
  }

  /** Every pair joins the last removed and an added path of one fingerprint, and each fingerprint is paired once. */
  lemma {:induction false} RenamesMean(b: Files, last: map<string, Path>, added: seq<Path>) returns (prints: set<string>)
    requires forall p | p in added :: p in b
    ensures forall h :: h in prints <==> IsPaired(b, last, added, h)
    ensures |Renames(b, last, added)| == |prints|
    ensures forall r | r in Renames(b, last, added) ::
      r.to in added && Print(b[r.to]).Some? && Print(b[r.to]).value in prints && Print(b[r.to]).value in last &&
      r.from == last[Print(b[r.to]).value]
    ensures forall h | h in prints :: exists r :: r in Renames(b, last, added) && Print(b[r.to]) == Some(h)
  {
    if added == [] {
      return {};
    }
    var init, p := added[..|added| - 1], added[|added| - 1];
    assert added == init + [p];
    prints := RenamesMean(b, last, init);
    ghost var prints0, rs0 := prints, Renames(b, last, init);
    forall h ensures IsPaired(b, last, added, h) <==> h in prints || (h in last && last[h] != "" && Print(b[p]) == Some(h)) {
      PairedSnoc(b, last, init, p, h);
    }
    var h := Print(b[p]);
    if h.Some? && h.value in last && last[h.value] != "" && h.value !in prints {
      prints := prints + {h.value};
      assert Renames(b, last, added) == rs0 + [Rename(last[h.value], p)];
    } else {
      assert Renames(b, last, added) == rs0;
    }
    var rs := Renames(b, last, added);
    forall g | g in prints ensures exists r :: r in rs && Print(b[r.to]) == Some(g) {
      if g in prints0 {
        var r :| r in rs0 && Print(b[r.to]) == Some(g);
        assert r in rs;
      } else {
        assert rs[|rs| - 1].to == p;
      }
    }
  }

  /** Whether a removed path is already matched depends only on its fingerprint. */
  lemma {:induction false} FromTaken(a: Files, removed: seq<Path>, b: Files, last: map<string, Path>, added: seq<Path>, h: string)
    requires (forall p | p in removed :: p in a) && (forall p | p in added :: p in b)
    requires last == LastWith(a, removed) && h in last && last[h] != ""
    ensures last[h] in Froms(Renames(b, last, added)) <==> exists q :: q in added && Print(b[q]) == Some(h)
  {
    var prints := RenamesMean(b, last, added);
    var rs := Renames(b, last, added);
    if exists q :: q in added && Print(b[q]) == Some(h) {
      assert IsPaired(b, last, added, h);
      var r :| r in rs && Print(b[r.to]) == Some(h);
      assert r.from in Froms(rs);
    }
    if last[h] in Froms(rs) {
      var r :| r in rs && r.from == last[h];
      assert Print(a[last[h]]) == Some(h) && Print(a[r.from]) == Print(b[r.to]);
    }
  }

  // ---- What a fingerprint of content says ----------------------------------------------------

  ghost predicate IsDigits(s: string) { forall c | c in s :: '0' <= c <= '9' }

  function Value(s: string): nat
    requires IsDigits(s)
  {
    if s == "" then 0
    else
      var init, c := s[..|s| - 1], s[|s| - 1];
      assert forall k | k in init :: k in s;
      assert c in s;
      10 * Value(init) + (c as int - '0' as int)
  }

  lemma {:induction false} DecimalValue(n: nat)
    ensures IsDigits(Decimal(n)) && Value(Decimal(n)) == n
  {
    if n >= 10 {
      DecimalValue(n / 10);
      assert Decimal(n)[..|Decimal(n)| - 1] == Decimal(n / 10);
    } else {
      assert Decimal(n)[..0] == "";
    }
  }

  lemma {:induction false} DigitsEnd(d: string, x: string, t: string)
    requires IsDigits(d) && t == d + ":" + x
    ensures |d| < |t| && t[|d|] == ':' && (forall i | 0 <= i < |d| :: t[i] != ':')
    ensures t[..|d|] == d && t[|d| + 1..] == x
  {
    forall i | 0 <= i < |d| ensures t[i] != ':' {
      assert t[i] == d[i] && d[i] in d;
    }
  }

  /** Without a hash, fingerprints are equal exactly when length and first 64 characters are: not the content. */
  lemma {:induction false} ContentPrintsEqualIff(f: Snap, g: Snap)
    requires f.hash == None && g.hash == None && f.content.Some? && g.content.Some?
    ensures var c, d := f.content.value, g.content.value;
      Print(f) == Print(g) <==> |c| == |d| && c[..Min(|c|, 64)] == d[..Min(|d|, 64)]
    ensures |f.content.value| <= 64 && Print(f) == Print(g) ==> f.content == g.content
  {
    hide Decimal, Value;
    var c, d := f.content.value, g.content.value;
    var x, y := c[..Min(|c|, 64)], d[..Min(|d|, 64)];
    DecimalValue(|c|);
    DecimalValue(|d|);
    if Print(f) == Print(g) {
      var s, t := "c:" + Decimal(|c|) + ":" + x, "c:" + Decimal(|d|) + ":" + y;
      assert s[2..] == Decimal(|c|) + ":" + x && t[2..] == Decimal(|d|) + ":" + y;
      DigitsEnd(Decimal(|c|), x, s[2..]);
      DigitsEnd(Decimal(|d|), y, s[2..]);
      if |c| <= 64 {
        assert x == c && y == d;
      }
    }
  }

  /** What stands in for the hash of a file that has none. */
  function ContentPrint(c: string): string { "c:" + Decimal(|c|) + ":" + c[..Min(|c|, 64)] }

  /** One hash, not empty; or contents of one length with the same first 64 characters; or a hash that reads like the latter. */
  ghost predicate SamePrint(f: Snap, g: Snap) {
    match (f.hash, g.hash)
    case (Some(h), Some(k)) => h == k != ""
    case (None, None) =>
      f.content.Some? && g.content.Some? && |f.content.value| == |g.content.value|
      && f.content.value[..Min(|f.content.value|, 64)] == g.content.value[..Min(|g.content.value|, 64)]
    case (Some(h), None) => g.content.Some? && h == ContentPrint(g.content.value)
    case (None, Some(k)) => f.content.Some? && k == ContentPrint(f.content.value)
  }

  lemma {:induction false} PrintsEqualIff(f: Snap, g: Snap)
    ensures Print(f).Some? && Print(f) == Print(g) <==> SamePrint(f, g)
  {
    hide Decimal;
    if f.hash == None && g.hash == None && f.content.Some? && g.content.Some? {
      ContentPrintsEqualIff(f, g);
    }
  }

  /**
   * A renamed path was removed and its new name added, with the same fingerprint; no path removed
   * later has that, nor one added before.
   */
  lemma {:induction false} RenamedAre(a: seq<Snap>, b: seq<Snap>, r: Rename) returns (i: nat, j: nat)
    requires r in Compared(a, b).renamed
    ensures
      var left, right := Index(a), Index(b);
      var removed, added := Missing(Order(a), right), Missing(Order(b), left);
      && i < |removed| && removed[i] == r.from && j < |added| && added[j] == r.to && r.from != ""
      && r.from in left && r.to in right && SamePrint(left[r.from], right[r.to])
      && (forall k | i < k < |removed| :: removed[k] in left && !SamePrint(left[removed[k]], right[r.to]))
      && (forall k | 0 <= k < j :: added[k] in right && !SamePrint(left[r.from], right[added[k]]))
  {
    hide Index, Order, Print, Missing, LastWith, Renames, SamePrint;
    var left, right := Index(a), Index(b);
    var removed, added := Missing(Order(a), right), Missing(Order(b), left);
    i := LastOf(left, removed, right, added, r);
    j := FirstOf(right, LastWith(left, removed), added, r);
    PrintsEqualIff(left[r.from], right[r.to]);
    forall k | i < k < |removed| ensures !SamePrint(left[removed[k]], right[r.to]) {
      PrintsEqualIff(left[removed[k]], right[r.to]);
    }
    forall k | 0 <= k < j ensures !SamePrint(left[r.from], right[added[k]]) {
      PrintsEqualIff(left[r.from], right[added[k]]);
    }
  }

  lemma {:induction false} LastOf(a: Files, removed: seq<Path>, b: Files, added: seq<Path>, r: Rename) returns (i: nat)
    requires (forall p | p in removed :: p in a) && forall p | p in added :: p in b
    requires r in Renames(b, LastWith(a, removed), added)
    ensures i < |removed| && removed[i] == r.from && r.to in added && Print(b[r.to]).Some?
    ensures Print(a[r.from]) == Print(b[r.to]) && forall k | i < k < |removed| :: Print(a[removed[k]]) != Print(b[r.to])
  {
    hide Renames, Print;
    var _ := RenamesMean(b, LastWith(a, removed), added);
    i := LastWithIsLast(a, removed, Print(b[r.to]).value);
  }

  lemma {:induction false} LastWithIsLast(a: Files, removed: seq<Path>, h: string) returns (i: nat)
    requires (forall p | p in removed :: p in a) && h in LastWith(a, removed)
    ensures i < |removed| && removed[i] == LastWith(a, removed)[h] && Print(a[removed[i]]) == Some(h)
    ensures forall k | i < k < |removed| :: Print(a[removed[k]]) != Some(h)
  {
    hide Print;
    var init, p := removed[..|removed| - 1], removed[|removed| - 1];
    assert removed == init + [p];
    if Print(a[p]) == Some(h) {
      i := |removed| - 1;
    } else {
      i := LastWithIsLast(a, init, h);
    }
  }

  lemma {:induction false} FirstOf(b: Files, last: map<string, Path>, added: seq<Path>, r: Rename) returns (j: nat)
    requires (forall p | p in added :: p in b) && r in Renames(b, last, added)
    ensures j < |added| && added[j] == r.to && Print(b[r.to]).Some? && r.from != ""
    ensures forall k | 0 <= k < j :: Print(b[added[k]]) != Print(b[r.to])
  {
    hide Print;
    var init, p := added[..|added| - 1], added[|added| - 1];
    assert added == init + [p];
    if r in Renames(b, last, init) {
      j := FirstOf(b, last, init, r);
    } else {
      j := |added| - 1;
      forall k | 0 <= k < j ensures Print(b[added[k]]) != Print(b[r.to]) {
        assert init[k] in init;
      }
    }
  }

  // ---- A partition of the paths --------------------------------------------------------------

  ghost predicate OneToOne(rs: seq<Rename>) {
    forall i, j | 0 <= i < j < |rs| :: rs[i].from != rs[j].from && rs[i].to != rs[j].to
  }

  lemma {:induction false} RenamesInjective(a: Files, removed: seq<Path>, b: Files, added: seq<Path>)
    requires (forall p | p in removed :: p in a) && (forall p | p in added :: p in b) && Distinct(added)
    ensures OneToOne(Renames(b, LastWith(a, removed), added))
  {
    if added != [] {
      var init, p := added[..|added| - 1], added[|added| - 1];
      hide Renames, Print, LastWith, OneToOne;
      assert added == init + [p];
      NotBefore(added, |added| - 1);
      var last := LastWith(a, removed);
      RenamesInjective(a, removed, b, init);
      RenamesSnoc(b, last, init, p);
      var rs0, rs := Renames(b, last, init), Renames(b, last, added);
      var _ := RenamesMean(b, last, init);
      if rs != rs0 {
        var r := rs[|rs0|];
        forall q | q in rs0 ensures q.from != r.from && q.to != r.to {
          assert Print(a[q.from]) == Print(b[q.to]) != Print(b[p]);
        }
        OneToOneSnoc(rs0, r);
      }
    } else {
      RenamesNone(b, LastWith(a, removed));
    }
  }

  lemma {:induction false} OneToOneSnoc(rs: seq<Rename>, r: Rename)
    requires OneToOne(rs) && forall q | q in rs :: q.from != r.from && q.to != r.to
    ensures OneToOne(rs + [r])
  {
  }

  lemma {:induction false} OneToOneInit(rs: seq<Rename>)
    requires OneToOne(rs) && rs != []
    ensures var init, r := rs[..|rs| - 1], rs[|rs| - 1];
      rs == init + [r] && OneToOne(init) && r.from !in Froms(init) && r.to !in Tos(init)
  {
  }

  lemma {:induction false} DistinctEnds(rs: seq<Rename>)
    requires OneToOne(rs)
    ensures |Froms(rs)| == |rs| && |Tos(rs)| == |rs|
  {
    hide Froms, Tos, OneToOne;
    if rs != [] {
      var init, r := rs[..|rs| - 1], rs[|rs| - 1];
      OneToOneInit(rs);
      DistinctEnds(init);
      EndsAre(init, r);
    } else {
      NoEnds();
    }
  }

  /**
   * Every path of either checkpoint is in exactly one class, the renames match removed paths
   * with added ones one to one, and the paths of a pair have one fingerprint.
   */
  lemma {:induction false} EveryPathOnce(a: seq<Snap>, b: seq<Snap>)
    ensures var c, left, right, same := Compared(a, b), Index(a), Index(b), Unchanged(Index(a), Index(b));
      && Partition(left.Keys, c.removed, c.modified, same, Froms(c.renamed))
      && Partition(right.Keys, c.added, c.modified, same, Tos(c.renamed))
      && c.removed + Froms(c.renamed) == left.Keys - right.Keys && c.added + Tos(c.renamed) == right.Keys - left.Keys
      && |left| == |c.removed| + |c.modified| + c.kept + |c.renamed|
      && |right| == |c.added| + |c.modified| + c.kept + |c.renamed|
      && (forall r | r in c.renamed ::
           r.from in left && r.to in right && Print(left[r.from]) == Print(right[r.to]) && Print(right[r.to]).Some?)
  {
    hide Index, Order, RenamesOf, Print, ContentKey, Froms, Tos, Modified, Unchanged;
    var c, left, right := Compared(a, b), Index(a), Index(b);
    PairsAreSound(a, b);
    SameBothWays(left, right);
    PartsOf(left, right, Froms(c.renamed));
    PartsOf(right, left, Tos(c.renamed));
  }

  lemma {:induction false} SameBothWays(left: Files, right: Files)
    ensures Modified(left, right) == Modified(right, left) && Unchanged(left, right) == Unchanged(right, left)
  {
    hide ContentKey;
  }

  /** Every member of `whole` is in exactly one of the four parts, and they hold nothing else. */
  ghost predicate Partition(whole: set<Path>, p: set<Path>, q: set<Path>, r: set<Path>, s: set<Path>) {
    && (forall x :: x in whole <==> x in p || x in q || x in r || x in s)
    && (forall x | x in p :: x !in q && x !in r && x !in s)
    && (forall x | x in q :: x !in r && x !in s)
    && (forall x | x in r :: x !in s)
  }

  lemma {:induction false} PartsOf(left: Files, right: Files, ends: set<Path>)
    requires ends <= left.Keys - right.Keys
    ensures var removed, modified, same := left.Keys - right.Keys - ends, Modified(left, right), Unchanged(left, right);
      && Partition(left.Keys, removed, modified, same, ends)
      && removed + ends == left.Keys - right.Keys
      && |left| == |removed| + |modified| + |same| + |ends|
  {
    hide ContentKey;
    var removed, modified, same := left.Keys - right.Keys - ends, Modified(left, right), Unchanged(left, right);
    FourParts(left.Keys, removed, modified, same, ends);
    assert |left| == |left.Keys|;
  }

  lemma {:induction false} FourParts(whole: set<Path>, p: set<Path>, q: set<Path>, r: set<Path>, s: set<Path>)
    requires Partition(whole, p, q, r, s)
    ensures |whole| == |p| + |q| + |r| + |s|
  {
    var pq, pqr := p + q, p + q + r;
    assert whole == pqr + s;
    assert p * q == {} && pq * r == {} && pqr * s == {};
  }

  lemma {:induction false} PairsAreSound(a: seq<Snap>, b: seq<Snap>)
    ensures var rs, left, right := RenamesOf(a, b), Index(a), Index(b);
      && Froms(rs) <= left.Keys - right.Keys && Tos(rs) <= right.Keys - left.Keys
      && |Froms(rs)| == |rs| && |Tos(rs)| == |rs|
      && (forall r | r in rs ::
           r.from in left && r.to in right && Print(left[r.from]) == Print(right[r.to]) && Print(right[r.to]).Some?)
  {
    hide Index, Order, LastWith, Renames, Print, Missing;
    var left, right := Index(a), Index(b);
    var removed, added := Missing(Order(a), right), Missing(Order(b), left);
    var _ := RenamesMean(right, LastWith(left, removed), added);
    RenamesInjective(left, removed, right, added);
    assert RenamesOf(a, b) == Renames(right, LastWith(left, removed), added);
    DistinctEnds(RenamesOf(a, b));
  }

  // ---- Swapping the two checkpoints ----------------------------------------------------------

  /** The fingerprints some path of `order` has. */
  ghost predicate Bears(m: Files, order: seq<Path>, h: string) {
    exists p :: p in order && p in m && Print(m[p]) == Some(h)
  }

  ghost predicate IsCommon(a: seq<Snap>, b: seq<Snap>, h: string) {
    Bears(Index(a), Missing(Order(a), Index(b)), h) && Bears(Index(b), Missing(Order(b), Index(a)), h)
  }

  /** A common fingerprint is lost because the last removed path that has it is the empty one. */
  ghost predicate Blocked(a: seq<Snap>, b: seq<Snap>) {
    exists h :: IsCommon(a, b, h) && IsLost(a, b, h)
  }

  ghost predicate IsLost(a: seq<Snap>, b: seq<Snap>, h: string) {
    var last := LastWith(Index(a), Missing(Order(a), Index(b)));
    h in last && last[h] == ""
  }

  /** One rename for each fingerprint found on both sides, except a blocked one. */
  lemma {:induction false} RenamesAreCommon(a: seq<Snap>, b: seq<Snap>) returns (common: set<string>)
    ensures forall h :: h in common <==> IsCommon(a, b, h)
    ensures |Compared(a, b).renamed| == |common| - if Blocked(a, b) then 1 else 0
  {
    hide Index, Order, Renames, Print, Missing, LastWith, Bears, IsCommon, IsPaired, IsLost;
    var left, right := Index(a), Index(b);
    var removed, added := Missing(Order(a), right), Missing(Order(b), left);
    var prints := RenamesMean(right, LastWith(left, removed), added);
    forall h ensures h in prints <==> IsCommon(a, b, h) && !IsLost(a, b, h) {
      PairedIsCommon(a, b, h);
    }
    common := prints;
    if h :| IsCommon(a, b, h) && IsLost(a, b, h) {
      common := prints + {h};
      forall g ensures g in common <==> IsCommon(a, b, g) {
        LostOnce(a, b, g, h);
      }
    }
  }

  lemma {:induction false} LostOnce(a: seq<Snap>, b: seq<Snap>, g: string, h: string)
    ensures IsLost(a, b, g) && IsLost(a, b, h) ==> g == h
  {
    hide Index, Order, Print, Missing;
    var removed := Missing(Order(a), Index(b));
    var last := LastWith(Index(a), removed);
    if IsLost(a, b, g) && IsLost(a, b, h) {
      assert last[g] in removed && Print(Index(a)[last[g]]) == Some(g);
      assert last[h] in removed && Print(Index(a)[last[h]]) == Some(h);
    }
  }

  lemma {:induction false} PairedIsCommon(a: seq<Snap>, b: seq<Snap>, h: string)
    ensures var last := LastWith(Index(a), Missing(Order(a), Index(b)));
      IsPaired(Index(b), last, Missing(Order(b), Index(a)), h) <==> IsCommon(a, b, h) && !IsLost(a, b, h)
  {
    hide Index, Order, Print, Missing, LastWith;
  }

  /** Swapping keeps what is modified and unchanged; the other counts swap exactly when neither way is blocked. */
  lemma {:induction false} SwapSymmetricIff(a: seq<Snap>, b: seq<Snap>)
    ensures var c, d := Compared(a, b), Compared(b, a);
      && d.modified == c.modified && d.kept == c.kept
      && (|d.renamed| == |c.renamed| && |d.added| == |c.removed| && |d.removed| == |c.added|
          <==> !Blocked(a, b) && !Blocked(b, a))
    ensures "" !in Index(a) && "" !in Index(b) ==> !Blocked(a, b) && !Blocked(b, a)
  {
    hide *;
    SwapContent(a, b);
    SwapRenames(a, b);
    SwapCounts(a, b);
    SwapCounts(b, a);
    NotBothBlocked(a, b);
  }

  lemma {:induction false} SwapContent(a: seq<Snap>, b: seq<Snap>)
    ensures Compared(b, a).modified == Compared(a, b).modified && Compared(b, a).kept == Compared(a, b).kept
  {
    hide Index, RenamesOf, ContentKey, Modified, Unchanged;
    SameBothWays(Index(a), Index(b));
  }

  lemma {:induction false} CommonSwaps(a: seq<Snap>, b: seq<Snap>, h: string)
    ensures IsCommon(a, b, h) <==> IsCommon(b, a, h)
  {
    hide Bears, Missing, Index, Order;
  }

  lemma {:induction false} SwapRenames(a: seq<Snap>, b: seq<Snap>)
    ensures |Compared(a, b).renamed| + (if Blocked(a, b) then 1 else 0) ==
      |Compared(b, a).renamed| + if Blocked(b, a) then 1 else 0
  {
    hide *;
    var common := RenamesAreCommon(a, b);
    var swapped := RenamesAreCommon(b, a);
    forall h ensures IsCommon(a, b, h) <==> IsCommon(b, a, h) {
      CommonSwaps(a, b, h);
    }
    assert common == swapped;
  }

  lemma {:induction false} SwapCounts(a: seq<Snap>, b: seq<Snap>)
    ensures var c := Compared(a, b);
      && |Index(a)| == |c.removed| + |c.modified| + c.kept + |c.renamed|
      && |Index(b)| == |c.added| + |c.modified| + c.kept + |c.renamed|
  {
    hide *;
    EveryPathOnce(a, b);
  }

  lemma {:induction false} NotBothBlocked(a: seq<Snap>, b: seq<Snap>)
    ensures Blocked(a, b) ==> "" in Index(a) && "" !in Index(b)
    ensures Blocked(b, a) ==> "" in Index(b) && "" !in Index(a)
  {
    hide Index, Order, Print;
  }

  /** An empty path does block: its rename is found one way only. */
  lemma {:induction false} EmptyPathBlocks()
    ensures var a, b := [Snap("", true, Some("h"), None)], [Snap("x", true, Some("h"), None)];
      Compared(a, b).renamed == [] && Compared(b, a).renamed == [Rename("x", "")]
  {
    var a, b := [Snap("", true, Some("h"), None)], [Snap("x", true, Some("h"), None)];
    OneFile(a[0]);
    OneFile(b[0]);
    OneRename(a[0], b[0]);
    OneRename(b[0], a[0]);
  }

  lemma {:induction false} OneFile(f: Snap)
    ensures Index([f]) == map[f.path := f] && Order([f]) == [f.path]
  {
    assert [f][..0] == [];
  }

  lemma {:induction false} OneRename(f: Snap, g: Snap)
    requires f.path != g.path && Print(f) == Print(g) && Print(f).Some?
    ensures RenamesOf([f], [g]) == if f.path == "" then [] else [Rename(f.path, g.path)]
  {
    OneFile(f);
    OneFile(g);
    var left, right := Index([f]), Index([g]);
    MissingNone(right);
    MissingNone(left);
    MissingSnoc([], f.path, right);
    MissingSnoc([], g.path, left);
    assert [] + [f.path] == [f.path] && [] + [g.path] == [g.path];
    assert [f.path][..0] == [] && [g.path][..0] == [];
    var h := Print(f).value;
    assert LastWith(left, []) == map[];
    var last := LastWith(left, [f.path]);
    assert last == map[][h := f.path];
    assert Renames(right, last, []) == [];
    var rs := Renames(right, last, [g.path]);
    assert rs == if f.path == "" then [] else [Rename(f.path, g.path)];
  }

  /** Two different contents that agree in length and first 64 characters are reported as a rename. */
  lemma {:induction false} ChangedTailIsRename()
    ensures var c, d := seq(64, _ => 'a') + "x", seq(64, _ => 'a') + "y";
      c != d && Compared([Snap("p", true, None, Some(c))], [Snap("q", true, None, Some(d))]).renamed == [Rename("p", "q")]
  {
    var head := seq(64, _ => 'a');
    var c, d := head + "x", head + "y";
    assert c[64] != d[64] && c[..64] == head == d[..64];
    var f, g := Snap("p", true, None, Some(c)), Snap("q", true, None, Some(d));
    ContentPrintsEqualIff(f, g);
    assert "p"[0] != "q"[0];
    OneRename(f, g);
  }

  /** No two paths of `order` have one fingerprint. */
  ghost predicate UniquePrints(m: Files, order: seq<Path>) {
    forall p, q | p in order && q in order && p in m && q in m && Print(m[p]) == Print(m[q]) && Print(m[p]).Some? :: p == q
  }

  /** When fingerprints are unique the pairs are the equal ones, whatever order the paths come in. */
  lemma {:induction false} UniquePairs(a: Files, removed: seq<Path>, b: Files, added: seq<Path>, from: Path, to: Path)
    requires (forall p | p in removed :: p in a) && (forall p | p in added :: p in b)
    requires UniquePrints(a, removed) && UniquePrints(b, added)
    ensures Rename(from, to) in Renames(b, LastWith(a, removed), added) <==>
      from in removed && to in added && Print(a[from]).Some? && Print(a[from]) == Print(b[to]) && from != ""
  {
    hide Renames, Print;
    var last := LastWith(a, removed);
    var prints := RenamesMean(b, last, added);
    if from in removed && to in added && Print(a[from]).Some? && Print(a[from]) == Print(b[to]) && from != "" {
      var h := Print(a[from]).value;
      assert last[h] == from;
      assert IsPaired(b, last, added, h);
      var r :| r in Renames(b, last, added) && Print(b[r.to]) == Some(h);
      assert r == Rename(from, to);
    }
    if Rename(from, to) in Renames(b, last, added) {
      var h := Print(b[to]).value;
      assert IsPaired(b, last, added, h);
    }
  }

  /** With unique fingerprints and no empty path the pairs of the swapped comparison are the inverted pairs. */
  lemma {:induction false} SwapInvertsPairs(a: seq<Snap>, b: seq<Snap>, from: Path, to: Path)
    requires UniquePrints(Index(a), Missing(Order(a), Index(b))) && UniquePrints(Index(b), Missing(Order(b), Index(a)))
    requires "" !in Index(a) && "" !in Index(b)
    ensures Rename(from, to) in Compared(a, b).renamed <==> Rename(to, from) in Compared(b, a).renamed
  {
    hide Index, Order, Renames, LastWith, Print, UniquePrints;
    var left, right := Index(a), Index(b);
    var removed, added := Missing(Order(a), right), Missing(Order(b), left);
    UniquePairs(left, removed, right, added, from, to);
    UniquePairs(right, added, left, removed, to, from);
  }

  // ---- The same checkpoint twice -------------------------------------------------------------

  /** What is answered for two equal identifiers, without looking at the files. */
  function SameCheckpoint(files: seq<Snap>): Comparison {
    Comparison({}, {}, {}, [], |files|)
  }

  lemma {:induction false} IndexSize(files: seq<Snap>)
    ensures |Index(files)| <= |files|
    ensures |Index(files)| == |files| <==> forall i, j | 0 <= i < j < |files| :: files[i].path != files[j].path
  {
    if files != [] {
      var init, f := files[..|files| - 1], files[|files| - 1];
      IndexSize(init);
      assert files == init + [f];
      IndexPaths(init, f.path);
      if f.path in Index(init) {
        var i :| 0 <= i < |init| && init[i].path == f.path;
        assert files[i].path == files[|files| - 1].path;
      } else if |Index(files)| == |files| {
        forall i, j | 0 <= i < j < |files| ensures files[i].path != files[j].path {
          assert j < |init| ==> init[i].path != init[j].path;
        }
      } else {
        var i, j :| 0 <= i < j < |init| && init[i].path == init[j].path;
        assert files[i].path == files[j].path;
      }
    }
  }

  lemma {:induction false} IndexPaths(files: seq<Snap>, p: Path)
    ensures p in Index(files) <==> exists i :: 0 <= i < |files| && files[i].path == p
  {
    if files != [] {
      var init, f := files[..|files| - 1], files[|files| - 1];
      IndexPaths(init, p);
      assert files == init + [f];
      if i :| 0 <= i < |init| && init[i].path == p {
        assert files[i].path == p;
      }
    }
  }

  /** The shortcut for equal identifiers agrees with the comparison exactly when no path is listed twice. */
  lemma {:induction false} ShortcutAgreesIff(files: seq<Snap>)
    ensures SameCheckpoint(files) == Compared(files, files) <==>
      forall i, j | 0 <= i < j < |files| :: files[i].path != files[j].path
  {
    hide Order, Index, ContentKey;
    var m := Index(files);
    IndexSize(files);
    EveryPathOnce(files, files);
    assert Unchanged(m, m) == m.Keys && Modified(m, m) == {};
    assert |m| == |m.Keys|;
    assert Compared(files, files).renamed == [];
  }

  /** A file listed twice counts twice for the shortcut, and once for the comparison. */
  lemma {:induction false} ListedTwiceDisagrees(f: Snap)
    ensures SameCheckpoint([f, f]).kept == 2 && SameCheckpoint([f, f]) != Compared([f, f], [f, f])
  {
    hide Compared;
    ShortcutAgreesIff([f, f]);
    assert [f, f][0].path == [f, f][1].path;
  }
}
