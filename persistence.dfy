/** A snapshot/merge persistence layer: it writes a whole list of domain
    objects to a named file, reads it back, merges the in-memory list with
    the saved one, and removes the file. Before writing it checks that no
    two Source objects share an ip and no two Migration objects share a
    source ip. */
module Persistence {
  import opened Wrappers
  import opened Entities
  import opened Migrations

  /** A domain object as the persistence layer holds it: by value, the form
      in which it is written to and read back from the file. */
  datatype Obj =
    | SourceObj(source: SourceSnapshot)
    | MigrationObj(migration: MigrationSnapshot)
    | WorkloadObj(workload: WorkloadSnapshot)
    | TargetObj(target: TargetSnapshot)
    | CredentialsObj(credentials: Credentials)
    | MountPointObj(mountPoint: MountPoint)
    | MountPointListObj(mountPoints: seq<MountPoint>)
    | Other(value: string)  // any other object, by a value standing for its contents

  /** The two kinds of object whose ip must be unique within its kind. */
  datatype TrackedKind = SourceKind | MigrationKind

  /** The ip an object contributes to the uniqueness check of a kind:
      a Source its own ip, a Migration its source workload's ip. */
  function TrackedIp(o: Obj, kind: TrackedKind): Option<string>
  {
    if kind == SourceKind && o.SourceObj? then Some(o.source.ip)
    else if kind == MigrationKind && o.MigrationObj? then Some(o.migration.source.ip)
    else None
  }

  /** The ips a list contributes to one kind, in list order. */
  function TrackedIps(objs: seq<Obj>, kind: TrackedKind): seq<string>
  {
    if objs == [] then []
    else
      var last := objs[|objs| - 1];
      TrackedIps(objs[..|objs| - 1], kind) + (if TrackedIp(last, kind).Some? then [TrackedIp(last, kind).value] else [])
  }

  /** No two objects of the kind share an ip; other objects are ignored. */
  predicate NoSharedIp(objs: seq<Obj>, kind: TrackedKind)
  {
    forall i, j :: 0 <= i < j < |objs| && TrackedIp(objs[i], kind).Some? ==> TrackedIp(objs[i], kind) != TrackedIp(objs[j], kind)
  }

  /** The condition under which a list may be written. */
  predicate IdentitiesUnique(objs: seq<Obj>)
  {
    NoSharedIp(objs, SourceKind) && NoSharedIp(objs, MigrationKind)
  }

  predicate Distinct<T(==)>(v: seq<T>)
  {
    forall i, j :: 0 <= i < j < |v| ==> v[i] != v[j]
  }

  function Elems<T(==)>(v: seq<T>): set<T>
  {
    set x | x in v
  }

  /** The system's duplicate test: converting to a set loses elements. */
  predicate HasDuplicates<T(==)>(v: seq<T>)
  {
    |Elems(v)| != |v|
  }

  lemma DistinctSnoc<T>(v: seq<T>, x: T)
    ensures Distinct(v + [x]) <==> Distinct(v) && x !in v
  {
    var w := v + [x];
    assert forall i :: 0 <= i < |v| ==> w[i] == v[i];
    if x in v {
      var k :| 0 <= k < |v| && v[k] == x;
      assert w[k] == w[|v|];
    }
  }

  lemma {:induction false} ElemsBound<T>(v: seq<T>)
    ensures |Elems(v)| <= |v|
  {
    if v != [] {
      var init := v[..|v| - 1];
      ElemsBound(init);
      assert Elems(v) == Elems(init) + {v[|v| - 1]};
    }
  }

  /** The set-size test detects exactly the lists with a repeated element. */
  lemma {:induction false} HasDuplicatesIff<T>(v: seq<T>)
    ensures HasDuplicates(v) <==> !Distinct(v)
  {
    if v != [] {
      var init, last := v[..|v| - 1], v[|v| - 1];
      HasDuplicatesIff(init);
      ElemsBound(init);
      assert v == init + [last];
      assert Elems(v) == Elems(init) + {last};
      if last in init {
        var k :| 0 <= k < |init| && init[k] == last;
        assert v[k] == v[|v| - 1];
      }
      DistinctSnoc(init, last);
    }
  }

  /** An ip is contributed exactly by the objects of the kind that carry it. */
  lemma {:induction false} TrackedIpsMembership(objs: seq<Obj>, kind: TrackedKind, ip: string)
    ensures ip in TrackedIps(objs, kind) <==> exists i :: 0 <= i < |objs| && TrackedIp(objs[i], kind) == Some(ip)
  {
    if objs != [] {
      var init := objs[..|objs| - 1];
      TrackedIpsMembership(init, kind, ip);
      if exists i :: 0 <= i < |objs| && TrackedIp(objs[i], kind) == Some(ip) {
        var i :| 0 <= i < |objs| && TrackedIp(objs[i], kind) == Some(ip);
        if i < |init| {
          assert init[i] == objs[i];
        }
      }
    }
  }

  /** The ips of a kind are pairwise distinct exactly when no two objects of
      that kind share an ip. */
  lemma {:induction false} TrackedIpsDistinctIff(objs: seq<Obj>, kind: TrackedKind)
    ensures Distinct(TrackedIps(objs, kind)) <==> NoSharedIp(objs, kind)
  {
    if objs != [] {
      var init, last := objs[..|objs| - 1], objs[|objs| - 1];
      TrackedIpsDistinctIff(init, kind);
      var ips := TrackedIps(init, kind);
      assert NoSharedIp(objs, kind) ==> NoSharedIp(init, kind) by {
        if NoSharedIp(objs, kind) {
          forall i, j | 0 <= i < j < |init| && TrackedIp(init[i], kind).Some?
            ensures TrackedIp(init[i], kind) != TrackedIp(init[j], kind)
          {
            assert init[i] == objs[i] && init[j] == objs[j];
          }
        }
      }
      if TrackedIp(last, kind).Some? {
        var ip := TrackedIp(last, kind).value;
        assert TrackedIps(objs, kind) == ips + [ip];
        TrackedIpsMembership(init, kind, ip);
        if ip in ips {
          var i :| 0 <= i < |init| && TrackedIp(init[i], kind) == Some(ip);
          assert objs[i] == init[i];
          var k :| 0 <= k < |ips| && ips[k] == ip;
          assert TrackedIps(objs, kind)[k] == TrackedIps(objs, kind)[|ips|];
        } else {
          DistinctSnoc(ips, ip);
          assert NoSharedIp(init, kind) ==> NoSharedIp(objs, kind) by {
            if NoSharedIp(init, kind) {
              forall i, j | 0 <= i < j < |objs| && TrackedIp(objs[i], kind).Some?
                ensures TrackedIp(objs[i], kind) != TrackedIp(objs[j], kind)
              {
                if j < |init| {
                  assert init[i] == objs[i] && init[j] == objs[j];
                } else {
                  assert init[i] == objs[i];
                }
              }
            }
          }
        }
      } else {
        assert TrackedIps(objs, kind) == ips;
        assert NoSharedIp(init, kind) ==> NoSharedIp(objs, kind) by {
          if NoSharedIp(init, kind) {
            forall i, j | 0 <= i < j < |objs| && TrackedIp(objs[i], kind).Some?
              ensures TrackedIp(objs[i], kind) != TrackedIp(objs[j], kind)
            {
              if j < |init| {
                assert init[i] == objs[i] && init[j] == objs[j];
              }
            }
          }
        }
      }
    }
  }

  /** The write-time check, as the system performs it (collect the ips of
      each kind, fail if a set of them is smaller than the list), succeeds
      exactly when no two objects of one kind share an ip. */
  lemma IdentityCheckIff(objs: seq<Obj>)
    ensures (HasDuplicates(TrackedIps(objs, SourceKind)) || HasDuplicates(TrackedIps(objs, MigrationKind)))
            <==> !IdentitiesUnique(objs)
  {
    HasDuplicatesIff(TrackedIps(objs, SourceKind));
    HasDuplicatesIff(TrackedIps(objs, MigrationKind));
    TrackedIpsDistinctIff(objs, SourceKind);
    TrackedIpsDistinctIff(objs, MigrationKind);
  }

  /** Collects the source ips and the migration source ips of a list in
      one pass, in list order. */
  method CollectIdentities(objs: seq<Obj>) returns (sourceIps: seq<string>, migrationIps: seq<string>)
    ensures sourceIps == TrackedIps(objs, SourceKind)
    ensures migrationIps == TrackedIps(objs, MigrationKind)
  {
    sourceIps, migrationIps := [], [];
    var i := 0;
    while i < |objs|
      invariant 0 <= i <= |objs|
      invariant sourceIps == TrackedIps(objs[..i], SourceKind)
      invariant migrationIps == TrackedIps(objs[..i], MigrationKind)
    {
      assert objs[..i + 1][..i] == objs[..i];
      match objs[i] {
        case SourceObj(s) =>
          sourceIps := sourceIps + [s.ip];
        case MigrationObj(m) =>
          migrationIps := migrationIps + [m.source.ip];
        case _ =>
      }
      i := i + 1;
    }
    assert objs[..i] == objs;
  }

  /** The list that `update` writes: the in-memory list, then each saved
      entry not yet present, in saved order. */
  function Merge(memory: seq<Obj>, saved: seq<Obj>): (r: seq<Obj>)
    ensures |memory| <= |r| && r[..|memory|] == memory
    ensures forall o :: o in r <==> o in memory || o in saved
  {
    if saved == [] then memory
    else
      var acc := Merge(memory, saved[..|saved| - 1]);
      var last := saved[|saved| - 1];
      if last in acc then acc else acc + [last]
  }

  /** Every entry the merge appends is new to the in-memory list and
      appears once, so a duplicate-free list stays duplicate-free. */
  lemma {:induction false} MergeAddsNoDuplicate(memory: seq<Obj>, saved: seq<Obj>)
    ensures Distinct(Merge(memory, saved)[|memory|..])
    ensures forall k :: |memory| <= k < |Merge(memory, saved)| ==> Merge(memory, saved)[k] !in memory
    ensures Distinct(memory) ==> Distinct(Merge(memory, saved))
  {
    var r := Merge(memory, saved);
    if saved != [] {
      var acc := Merge(memory, saved[..|saved| - 1]);
      MergeAddsNoDuplicate(memory, saved[..|saved| - 1]);
      var last := saved[|saved| - 1];
      if last !in acc {
        assert r == acc + [last];
        assert r[|memory|..] == acc[|memory|..] + [last];
        forall i, j | 0 <= i < j < |r| && Distinct(memory)
          ensures r[i] != r[j]
        {
          if j == |acc| {
            assert r[i] == acc[i];
          } else if i >= |memory| {
            assert r[i] == acc[i] && r[j] == acc[j];
          } else if j >= |memory| {
            assert r[i] == memory[i];
          } else {
            assert r[i] == memory[i] && r[j] == memory[j];
          }
        }
      }
    }
  }

  /** Merging a saved list whose entries are all present adds nothing. */
  lemma {:induction false} MergeOfPresentEntries(memory: seq<Obj>, saved: seq<Obj>)
    requires forall o :: o in saved ==> o in memory
    ensures Merge(memory, saved) == memory
  {
    if saved != [] {
      MergeOfPresentEntries(memory, saved[..|saved| - 1]);
      assert saved[|saved| - 1] in saved;
    }
  }

  /** Merging the merged list with the same saved list again gives the same
      list. (A second `update` does not do this: its first read replaces the
      in-memory list by the saved one.) */
  lemma MergeIdempotent(memory: seq<Obj>, saved: seq<Obj>)
    ensures Merge(Merge(memory, saved), saved) == Merge(memory, saved)
  {
    MergeOfPresentEntries(Merge(memory, saved), saved);
  }

  /** Merging a saved list is merging its two halves one after the other,
      so the appended entries follow the saved order. */
  lemma {:induction false} MergeConcat(memory: seq<Obj>, s1: seq<Obj>, s2: seq<Obj>)
    ensures Merge(memory, s1 + s2) == Merge(Merge(memory, s1), s2)
  {
    if s2 == [] {
      assert s1 + s2 == s1;
    } else {
      MergeConcat(memory, s1, s2[..|s2| - 1]);
      assert (s1 + s2)[..|s1 + s2| - 1] == s1 + s2[..|s2| - 1];
    }
  }

  /** The file system: the files that exist and the object list each holds.
      Serialization is an exact round trip, so a file holds the list itself. */
  class Disk {
    var files: map<string, seq<Obj>>

    constructor (files: map<string, seq<Obj>>)
      ensures this.files == files
    {
      this.files := files;
    }
  }

  /** A façade over one file of a disk, holding an in-memory object list. */
  class PersistenceLayer {
    var objList: seq<Obj>
    const dumpfile: string
    const disk: Disk

    constructor (objList: seq<Obj>, dumpfile: string, disk: Disk)
      ensures this.objList == objList && this.dumpfile == dumpfile && this.disk == disk
    {
      this.objList := objList;
      this.dumpfile := dumpfile;
      this.disk := disk;
    }

    /** The contents of the file, or None when it does not exist. */
    function Stored(): Option<seq<Obj>>
      reads disk
    {
      if dumpfile in disk.files then Some(disk.files[dumpfile]) else None
    }

    /** Writes `objs` (or the in-memory list when `objs` is empty) to the
        file, after checking that no two objects of a tracked kind share an
        ip; on a violation nothing is written. */
    method Create(objs: seq<Obj>) returns (r: Outcome)
      modifies disk
      ensures var written := if objs == [] then objList else objs;
        r == (if IdentitiesUnique(written) then Pass else Fail(DuplicateIdentity)) &&
        disk.files == (if r.Pass? then old(disk.files)[dumpfile := written] else old(disk.files))
    {
      var written := objs;
      if written == [] {
        written := objList;
      }
      var sourceIps, migrationIps := CollectIdentities(written);
      IdentityCheckIff(written);
      if HasDuplicates(sourceIps) || HasDuplicates(migrationIps) {
        return Fail(DuplicateIdentity);
      }
      disk.files := disk.files[dumpfile := written];
      r := Pass;
    }

    /** Replaces the in-memory list by the contents of the file and returns
        it; a missing file is an error and changes nothing. */
    method Read() returns (r: Result<seq<Obj>>)
      modifies this`objList
      ensures Stored().None? ==> r == Err(FileNotFound) && objList == old(objList)
      ensures Stored().Some? ==> r == Ok(Stored().value) && objList == Stored().value
    {
      if dumpfile !in disk.files {
        return Err(FileNotFound);
      }
      objList := disk.files[dumpfile];
      r := Ok(objList);
    }

    /** Merges the in-memory list with the saved one and writes the result
        through Create. As a side effect of reading, the in-memory list
        becomes the saved list. */
    method Update() returns (r: Outcome)
      modifies this`objList, disk
      ensures old(Stored()).None? ==>
        r == Fail(FileNotFound) && objList == old(objList) && disk.files == old(disk.files)
      ensures old(Stored()).Some? ==> objList == old(Stored()).value
      ensures old(Stored()).Some? ==>
        var merged := Merge(old(objList), old(Stored()).value);
        r == (if IdentitiesUnique(merged) then Pass else Fail(DuplicateIdentity)) &&
        disk.files == (if r.Pass? then old(disk.files)[dumpfile := merged] else old(disk.files))
    {
      var newList := objList;
      var saved := Read();
      if saved.Err? {
        return Fail(saved.error);
      }
      var i := 0;
      while i < |saved.value|
        invariant 0 <= i <= |saved.value|
        invariant newList == Merge(old(objList), saved.value[..i])
      {
        assert saved.value[..i + 1][..i] == saved.value[..i];
        if saved.value[i] !in newList {
          newList := newList + [saved.value[i]];
        }
        i := i + 1;
      }
      assert saved.value[..i] == saved.value;
      if saved.value != [] {
        assert saved.value[0] in newList;
      }
      r := Create(newList);
    }

    /** Removes the file; a missing file is an error. */
    method Delete() returns (r: Outcome)
      modifies disk
      ensures r == (if old(Stored()).Some? then Pass else Fail(FileNotFound))
      ensures disk.files == old(disk.files) - {dumpfile}
    {
      if dumpfile !in disk.files {
        return Fail(FileNotFound);
      }
      disk.files := disk.files - {dumpfile};
      r := Pass;
    }
  }
}
