/** Client code that drives the model through the cases the repository's
    unit tests describe, using only the contracts of the operations. */
module Scenarios {
  import opened Wrappers
  import opened Entities
  import opened Migrations
  import opened Persistence

  method SourceIpLock()
  {
    var s := new Source("192.168.1.1", "user", "pass");
    var r := s.ChangeIp(Some("192.168.1.2"));
    assert r == Pass && s.GetIp() == "192.168.1.2";
    r := s.ChangeIp(None);
    assert r == Fail(InvalidArgument) && s.GetIp() == "192.168.1.2";

    var locked := new Source("192.168.1.1", "user", "pass", false);
    r := locked.ChangeIp(Some("192.168.1.2"));
    assert r == Pass && locked.GetIp() == "192.168.1.1";

    r := s.ChangeUsername(Some("user2"));
    assert s.GetUsername() == "user2" && s.GetPassword() == "pass";
    r := s.ChangePassword(None);
    assert r == Fail(InvalidArgument) && s.GetPassword() == "pass";
  }

  method SourceConstruction()
  {
    var r := NewSource(None, Some("user"), Some("pass"));
    assert r == Err(InvalidArgument);
    r := NewSource(Some("192.168.1.1"), None, Some("pass"));
    assert r == Err(InvalidArgument);
    r := NewSource(Some("192.168.1.1"), Some("user"), None);
    assert r == Err(InvalidArgument);
    r := NewSource(Some("192.168.1.1"), Some("user"), Some("pass"));
    assert r.Ok? && r.value.GetIp() == "192.168.1.1" && r.value.changeIpPossible;
  }

  method CloudTypeChanges()
  {
    var creds := Credentials("John", "JohnPass", "domain1");
    var vm := new Workload("192.168.1.1", creds, [MountPoint("c:", 100), MountPoint("d:", 100)]);
    var bad := NewMigrationTarget("amazon", creds, vm);
    assert bad == Err(InvalidArgument);
    var mt := new MigrationTarget("aws", creds, vm);
    var r := mt.ChangeCloudType("vcloud");
    assert r == Pass && mt.GetCloudType() == "vcloud";
    r := mt.ChangeCloudType("google");
    assert r == Fail(InvalidArgument) && mt.GetCloudType() == "vcloud";
    assert mt.targetVm == vm && mt.cloudCredentials == creds;
  }

  /** Builds the fixture of the migration tests: source volumes c:, d:, e:
      and destination volumes f:, g:. */
  method MigrationFixture(selected: seq<MountPoint>) returns (m: Migration)
    ensures fresh(m) && fresh(m.source) && fresh(m.migrationTarget) && fresh(m.migrationTarget.targetVm)
    ensures m.selected == selected && m.volumeCAllowed && m.state == NotStarted
    ensures m.source.Snapshot() == WorkloadSnapshot("192.168.1.1", Credentials("John", "JohnPass", "domain1"),
      [MountPoint("c:", 100), MountPoint("d:", 100), MountPoint("e:", 100)])
    ensures m.migrationTarget.targetVm.Snapshot() == WorkloadSnapshot("192.168.2.1", Credentials("Jane", "JanePass", "domain2"),
      [MountPoint("f:", 100), MountPoint("g:", 100)])
  {
    var source := new Workload("192.168.1.1", Credentials("John", "JohnPass", "domain1"),
      [MountPoint("c:", 100), MountPoint("d:", 100), MountPoint("e:", 100)]);
    var vm := new Workload("192.168.2.1", Credentials("Jane", "JanePass", "domain2"),
      [MountPoint("f:", 100), MountPoint("g:", 100)]);
    var mt := new MigrationTarget("aws", Credentials("CloudJohn", "CloudJohnPass", "domain1"), vm);
    m := new Migration(selected, source, mt);
  }

  method RunSuccessful()
  {
    var m := MigrationFixture([MountPoint("c:", 100)]);
    var source := m.source.storage;
    assert Names(m.selected) == ["c:"];
    assert Names(source) == ["c:", "d:", "e:"];
    assert source[..2][..1] == [MountPoint("c:", 100)];
    assert Transferred(source, m.selected) == [MountPoint("c:", 100)];
    m.Run();
    assert m.state == Success;
    assert m.migrationTarget.targetVm.storage == [MountPoint("f:", 100), MountPoint("g:", 100), MountPoint("c:", 100)];
    assert m.migrationTarget.targetVm.ip == "192.168.1.1";
  }

  /** A run is not guarded against re-entry: a second successful run copies
      the selected volumes again. */
  method RunTwiceCopiesTwice()
  {
    var m := MigrationFixture([MountPoint("c:", 100)]);
    var source := m.source.storage;
    assert Names(m.selected) == ["c:"];
    assert Names(source) == ["c:", "d:", "e:"];
    assert source[..2][..1] == [MountPoint("c:", 100)];
    assert Transferred(source, m.selected) == [MountPoint("c:", 100)];
    m.Run();
    m.Run();
    assert m.state == Success;
    assert m.migrationTarget.targetVm.storage ==
      [MountPoint("f:", 100), MountPoint("g:", 100), MountPoint("c:", 100), MountPoint("c:", 100)];
  }

  method RunSelectedAbsent()
  {
    var m := MigrationFixture([MountPoint("c:", 100), MountPoint("z:", 100)]);
    assert Names(m.source.storage) == ["c:", "d:", "e:"];
    assert MountPoint("z:", 100) in m.selected;
    m.Run();
    assert m.state == Error;
    assert m.migrationTarget.targetVm.storage == [MountPoint("f:", 100), MountPoint("g:", 100)];
    assert m.migrationTarget.targetVm.ip == "192.168.2.1";
  }

  method RunGateClosed()
  {
    var m := MigrationFixture([MountPoint("c:", 100)]);
    m.volumeCAllowed := false;
    m.Run();
    assert m.state == Error;
    assert m.migrationTarget.targetVm.storage == [MountPoint("f:", 100), MountPoint("g:", 100)];
  }

  /** A migration whose source is its own destination VM and whose gate is
      closed ends in error without touching the workload. */
  method RunAliasedGateClosed()
  {
    var w := new Workload("192.168.1.1", Credentials("John", "JohnPass", "domain1"), [MountPoint("c:", 100)]);
    var mt := new MigrationTarget("aws", Credentials("CloudJohn", "CloudJohnPass", "domain1"), w);
    var m := new Migration([MountPoint("c:", 100)], w, mt);
    m.volumeCAllowed := false;
    m.Run();
    assert m.state == Error && w.storage == [MountPoint("c:", 100)];
  }

  /** Whatever one layer writes, a fresh layer on the same file reads back:
      the file and the reader's list both become the written list. */
  method CreateThenRead(objs: seq<Obj>, dumpfile: string, disk: Disk) returns (read: Result<seq<Obj>>)
    requires IdentitiesUnique(objs)
    modifies disk
    ensures read == Ok(objs)
    ensures disk.files == old(disk.files)[dumpfile := objs]
  {
    var writer := new PersistenceLayer(objs, dumpfile, disk);
    var r := writer.Create([]);
    var reader := new PersistenceLayer([], dumpfile, disk);
    read := reader.Read();
    assert reader.objList == objs;
  }

  method CreateThenReadFixture()
  {
    var disk := new Disk(map[]);
    var objs := [SourceObj(SourceSnapshot("192.168.1.1", "user", "pass", true)),
                 CredentialsObj(Credentials("John", "JohnPass", "domain1"))];
    var read := CreateThenRead(objs, "dump.pickle", disk);
    assert read == Ok(objs) && disk.files == map["dump.pickle" := objs];
  }

  method CreateSameIp()
  {
    var disk := new Disk(map[]);
    var a := SourceObj(SourceSnapshot("192.168.1.1", "user", "pass", true));
    var b := SourceObj(SourceSnapshot("192.168.1.2", "user", "pass", true));
    var pl := new PersistenceLayer([a, a], "dump.pickle", disk);
    assert TrackedIp([a, a][0], SourceKind) == TrackedIp([a, a][1], SourceKind);
    var r := pl.Create([]);
    assert r == Fail(DuplicateIdentity) && disk.files == map[];
    r := pl.Create([a, b]);
    assert r == Pass && disk.files == map["dump.pickle" := [a, b]];
  }

  method CreateSameMigrationIp()
  {
    var m1 := MigrationFixture([MountPoint("c:", 100)]);
    var m2 := MigrationFixture([MountPoint("c:", 100)]);
    m2.source.ip := "192.168.1.2";
    var a := MigrationObj(m1.Snapshot());
    var b := MigrationObj(m2.Snapshot());
    var disk := new Disk(map[]);
    var pl := new PersistenceLayer([a, a], "dump.pickle", disk);
    assert TrackedIp([a, a][0], MigrationKind) == TrackedIp([a, a][1], MigrationKind);
    var r := pl.Create([]);
    assert r == Fail(DuplicateIdentity) && disk.files == map[];
    assert TrackedIp(a, MigrationKind) == Some("192.168.1.1");
    assert TrackedIp(b, MigrationKind) == Some("192.168.1.2");
    r := pl.Create([a, b]);
    assert r == Pass && disk.files == map["dump.pickle" := [a, b]];

    // A Source and a Migration may share an ip: kinds are checked apart.
    var src := SourceObj(SourceSnapshot("192.168.1.1", "user", "pass", true));
    var mixed := [CredentialsObj(Credentials("John", "JohnPass", "domain1")), src, a];
    var read := CreateThenRead(mixed, "dump.pickle", disk);
    assert read == Ok(mixed);
  }

  method UpdateMerges()
  {
    var c1 := MountPointListObj([MountPoint("c:", 100)]);
    var c2 := CredentialsObj(Credentials("John", "JohnPass", "domain1"));
    var c3 := MountPointListObj([MountPoint("c:", 100), MountPoint("d:", 100), MountPoint("e:", 100)]);
    var disk := new Disk(map["dump.pickle" := [c1, c2]]);
    var pl := new PersistenceLayer([c3], "dump.pickle", disk);
    assert Merge([c3], [c1, c2][..1]) == [c3, c1];
    assert Merge([c3], [c1, c2]) == [c3, c1, c2];
    var r := pl.Update();
    assert r == Pass && disk.files["dump.pickle"] == [c3, c1, c2];
    assert pl.objList == [c1, c2];
  }

  method DeleteThenRead()
  {
    var disk := new Disk(map["dump.pickle" := []]);
    var pl := new PersistenceLayer([], "dump.pickle", disk);
    var r := pl.Delete();
    assert r == Pass;
    var read := pl.Read();
    assert read == Err(FileNotFound);
    r := pl.Delete();
    assert r == Fail(FileNotFound);
  }
}
