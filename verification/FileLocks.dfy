/** The per-run registry of file locks: all-or-nothing acquisition per task. */
module FileLocks {
  import opened Prelude
  import opened TaskGraph

  /** Lock table: file to holding task. */
  type Locks = map<File, Id>

  predicate CanAcquire(locks: Locks, t: Id, files: seq<File>) {
    forall f | f in files :: f in locks ==> locks[f] == t
  }

  function Granted(locks: Locks, t: Id, files: seq<File>): Locks {
    map f | f in locks.Keys + (set x | x in files) :: if f in files then t else locks[f]
  }

  function Released(locks: Locks, t: Id): Locks {
    map f | f in locks && locks[f] != t :: locks[f]
  }

  /** The holder of the first of `files` that is locked by anyone. */
  function FirstHolder(locks: Locks, files: seq<File>): Option<Id> {
    if files == [] then None
    else if files[0] in locks then Some(locks[files[0]])
    else FirstHolder(locks, files[1..])
  }

  /** File `i` is the first that another task holds. */
  ghost predicate IsFirstTaken(locks: Locks, t: Id, files: seq<File>, i: int) {
    && 0 <= i < |files| && files[i] in locks && locks[files[i]] != t
    && forall k | 0 <= k < i :: files[k] in locks ==> locks[files[k]] == t
  }

  /** File `i` is the first that anyone holds. */
  ghost predicate IsFirstLocked(locks: Locks, files: seq<File>, i: int) {
    0 <= i < |files| && files[i] in locks && forall k | 0 <= k < i :: files[k] !in locks
  }

  datatype Acquired = Locked(files: seq<File>) | Refused(file: File, holder: Id)

  class FileLockRegistry {
    var locks: Locks

    constructor ()
      ensures locks == map[]
    {
      locks := map[];
    }

    /** Locks every file or none. A refusal names a file that another task holds. */
    method Acquire(t: Id, files: seq<File>) returns (r: Acquired)
      modifies this
      ensures r.Locked? <==> CanAcquire(old(locks), t, files)
      ensures r.Locked? <==> forall f | f in files && f in old(locks) :: old(locks)[f] == t
      ensures r.Locked? ==> r.files == Dedup(files) && locks == Granted(old(locks), t, files)
      ensures r.Locked? ==> forall f, x :: (f, x) in locks.Items <==> if f in files then x == t else (f, x) in old(locks).Items
      ensures r.Refused? ==>
        locks == old(locks) && r.file in files && r.file in locks && locks[r.file] == r.holder != t
      ensures r.Refused? ==> exists i :: IsFirstTaken(locks, t, Dedup(files), i) && Dedup(files)[i] == r.file
    {
      var normalized := Dedup(files);
      for i := 0 to |normalized|
        invariant locks == old(locks)
        invariant forall k | 0 <= k < i :: normalized[k] in locks ==> locks[normalized[k]] == t
      {
        var f := normalized[i];
        if f in locks && locks[f] != t {
          assert IsFirstTaken(locks, t, normalized, i);
          return Refused(f, locks[f]);
        }
      }
      for i := 0 to |normalized|
        invariant forall f :: f in locks <==> f in old(locks) || f in normalized[..i]
        invariant forall f | f in locks :: locks[f] == if f in normalized[..i] then t else old(locks)[f]
      {
        locks := locks[normalized[i] := t];
      }
      return Locked(normalized);
    }

    /** Drops every lock of one task and no other. */
    method Release(t: Id)
      modifies this
      ensures locks == Released(old(locks), t)
      ensures forall f, x :: (f, x) in locks.Items <==> (f, x) in old(locks).Items && x != t
    {
      var todo := locks.Keys;
      while todo != {}
        invariant todo <= locks.Keys <= old(locks).Keys
        invariant forall f | f in locks :: locks[f] == old(locks)[f]
        invariant forall f | f in old(locks) && f !in todo :: f in locks <==> old(locks)[f] != t
      {
        var f :| f in todo;
        if locks[f] == t {
          locks := locks - {f};
        }
        todo := todo - {f};
      }
    }

    method FindHolder(files: seq<File>) returns (r: Option<Id>)
      ensures r == FirstHolder(locks, files)
      ensures r == None <==> forall f | f in files :: f !in locks
      ensures r.Some? ==> exists i :: IsFirstLocked(locks, files, i) && locks[files[i]] == r.value
    {
      for i := 0 to |files|
        invariant FirstHolder(locks, files) == FirstHolder(locks, files[i..])
        invariant forall k | 0 <= k < i :: files[k] !in locks
      {
        if files[i] in locks {
          assert IsFirstLocked(locks, files, i);
          return Some(locks[files[i]]);
        }
      }
      return None;
    }
  }
}
