/** One migration attempt: copy the selected volumes, the ip and the
    credentials of a source workload onto the destination VM of a migration
    target, recording the outcome in a state field rather than raising. */
module Migrations {
  import opened Entities

  /** The life cycle of a migration: not started, running, then success or error. */
  datatype MigrationState = NotStarted | Running | Success | Error

  /** The names of a list of volumes, in order. */
  function Names(volumes: seq<MountPoint>): seq<string>
  {
    seq(|volumes|, i requires 0 <= i < |volumes| => volumes[i].name)
  }

  /** Every selected volume's name is the name of some source volume; an
      empty selection is satisfied vacuously. Sizes are not compared. */
  predicate SourceStorageOk(selected: seq<MountPoint>, storage: seq<MountPoint>)
  {
    forall m :: m in selected ==> m.name in Names(storage)
  }

  /** The source volumes whose name is selected, in source order, each as
      the source holds it. Duplicates are kept. */
  function Transferred(storage: seq<MountPoint>, selected: seq<MountPoint>): seq<MountPoint>
  {
    if storage == [] then []
    else
      var last := storage[|storage| - 1];
      Transferred(storage[..|storage| - 1], selected) + (if last.name in Names(selected) then [last] else [])
  }

  /** A volume is transferred exactly when the source holds it and its
      name is selected. */
  lemma {:induction false} TransferredMembership(storage: seq<MountPoint>, selected: seq<MountPoint>, m: MountPoint)
    ensures m in Transferred(storage, selected) <==> m in storage && m.name in Names(selected)
  {
    if storage != [] {
      var init := storage[..|storage| - 1];
      TransferredMembership(init, selected, m);
      assert storage == init + [storage[|storage| - 1]];
    }
  }

  /** Filtering distributes over concatenation: the transferred volumes keep
      the order in which the source lists them. */
  lemma {:induction false} TransferredAppend(s1: seq<MountPoint>, s2: seq<MountPoint>, selected: seq<MountPoint>)
    ensures Transferred(s1 + s2, selected) == Transferred(s1, selected) + Transferred(s2, selected)
  {
    if s2 == [] {
      assert s1 + s2 == s1;
    } else {
      var init := s2[..|s2| - 1];
      TransferredAppend(s1, init, selected);
      assert (s1 + s2)[..|s1 + s2| - 1] == s1 + init;
    }
  }

  /** When the selection is satisfiable, every selected name reaches the
      destination through the transferred volumes. */
  lemma SelectedNamesTransferred(storage: seq<MountPoint>, selected: seq<MountPoint>)
    requires SourceStorageOk(selected, storage)
    ensures forall m :: m in selected ==> m.name in Names(Transferred(storage, selected))
  {
    forall m | m in selected
      ensures m.name in Names(Transferred(storage, selected))
    {
      var j :| 0 <= j < |storage| && storage[j].name == m.name;
      var k :| 0 <= k < |selected| && selected[k] == m;
      assert Names(selected)[k] == m.name;
      TransferredMembership(storage, selected, storage[j]);
      var t := Transferred(storage, selected);
      var i :| 0 <= i < |t| && t[i] == storage[j];
      assert Names(t)[i] == m.name;
    }
  }

  /** Nothing is transferred from a source none of whose volumes is
      selected; in particular an empty selection transfers nothing. */
  lemma {:induction false} NothingSelectedNothingTransferred(storage: seq<MountPoint>, selected: seq<MountPoint>)
    requires forall i :: 0 <= i < |storage| ==> storage[i].name !in Names(selected)
    ensures Transferred(storage, selected) == []
  {
    if storage != [] {
      NothingSelectedNothingTransferred(storage[..|storage| - 1], selected);
    }
  }

  /** The field-by-field value of a Migration. */
  datatype MigrationSnapshot = MigrationSnapshot(
    selected: seq<MountPoint>, source: WorkloadSnapshot, target: TargetSnapshot, state: MigrationState)

  /** A migration of the selected volumes from a source workload to a
      migration target. `volumeCAllowed` is the policy gate: while it is
      false every run ends in error. */
  class Migration {
    var selected: seq<MountPoint>
    var source: Workload
    var migrationTarget: MigrationTarget
    var state: MigrationState
    var volumeCAllowed: bool

    constructor (selected: seq<MountPoint>, source: Workload, migrationTarget: MigrationTarget)
      ensures this.selected == selected && this.source == source && this.migrationTarget == migrationTarget
      ensures state == NotStarted && volumeCAllowed
    {
      this.selected := selected;
      this.source := source;
      this.migrationTarget := migrationTarget;
      this.state := NotStarted;
      this.volumeCAllowed := true;
    }

    function Snapshot(): MigrationSnapshot
      reads this, source, migrationTarget, migrationTarget.targetVm
    {
      MigrationSnapshot(selected, source.Snapshot(), migrationTarget.Snapshot(), state)
    }

    /** Runs the migration. With the gate open and a satisfiable selection
        the destination VM gains the selected source volumes after its own,
        takes the source's ip and credentials, and the state becomes
        Success; otherwise the state becomes Error and nothing else changes.
        The source workload is never modified. The source may be the
        destination VM itself only when the run copies no volume: otherwise
        the copy loop appends to the list it walks and never ends. */
    method Run()
      requires source != migrationTarget.targetVm || !volumeCAllowed ||
               !SourceStorageOk(selected, source.storage) || Transferred(source.storage, selected) == []
      modifies this`state, migrationTarget.targetVm
      ensures state == (if old(volumeCAllowed) && SourceStorageOk(selected, source.storage) then Success else Error)
      ensures state == Success ==>
        migrationTarget.targetVm.storage == old(migrationTarget.targetVm.storage) + Transferred(source.storage, selected) &&
        migrationTarget.targetVm.ip == source.ip &&
        migrationTarget.targetVm.credentials == source.credentials
      ensures state == Error ==> unchanged(migrationTarget.targetVm)
      ensures unchanged(source)
      ensures unchanged(migrationTarget)
      ensures selected == old(selected) && source == old(source) && migrationTarget == old(migrationTarget)
    {
      state := Running;
      var storageOk := SourceStorageOk(selected, source.storage);
      if volumeCAllowed && storageOk {
        var vm: Workload := migrationTarget.targetVm;
        var selectedNames := Names(selected);
        ghost var walked := source.storage;
        var i := 0;
        while i < |source.storage|
          invariant 0 <= i <= |source.storage|
          invariant source.storage == walked
          invariant vm.storage == old(vm.storage) + Transferred(source.storage[..i], selected)
          modifies vm`storage
        {
          var volume := source.storage[i];
          assert source.storage[..i + 1][..i] == source.storage[..i];
          if volume.name in selectedNames {
            if source == vm {
              TransferredMembership(walked, selected, volume);
              assert false;
            }
            vm.storage := vm.storage + [volume];
          }
          i := i + 1;
        }
        assert source.storage[..i] == source.storage;
        if source == vm {
          assert vm.storage == old(vm.storage);
        }
        vm.ip := source.ip;
        vm.credentials := source.credentials;
        state := Success;

      } else {
        state := Error;
      }
    }
  }
}
