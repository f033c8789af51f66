# Workload migration domain model

A Dafny model of the domain layer of a small workload-migration service
(`app/classes.py`). A workload (ip, credentials, storage volumes) is moved
from an on-premises source to a cloud-hosted destination VM by a
`Migration`, whose `run` copies the selected volumes and the source's
identity onto the destination and records `success` or `error`. A
persistence layer writes the whole list of domain objects to a file,
refusing lists in which two sources (or two migrations) share an ip, and
merges an in-memory list with the saved one.

Files:

- `wrappers.dfy` (module `Wrappers`): `Option`, `Result`, `Outcome` and the
  error kinds (`InvalidArgument`, `DuplicateIdentity`, `FileNotFound`).
- `entities.dfy` (module `Entities`): `Credentials` and `MountPoint` as
  datatypes; `Workload`, `Source` and `MigrationTarget` as classes whose
  fields the system updates in place. Structural equality between entities
  (`Common.__eq__`) is datatype equality on their values and snapshots.
  Getters (`GetIp`, `GetUsername`, `GetPassword`, `GetCloudType`) are plain
  reads of the fields.
- `migration.dfy` (module `Migrations`): the state datatype, the
  specification of a run (`SourceStorageOk`, `Transferred`) with lemmas, and
  the `Migration` class whose `Run` is proved against it.
- `persistence.dfy` (module `Persistence`): the object values the layer
  stores (`Obj`), the uniqueness condition and the merge function with their
  lemmas, a `Disk` (the file system: path to stored list) and the
  `PersistenceLayer` class.
- `scenarios.dfy` (module `Scenarios`): client code that replays the
  domain-level cases of `app/tests/utest_classes.py` (construction with an
  absent value, the ip lock, cloud-type changes, the three `run` outcomes,
  duplicate Source and Migration ips, create/read, update, delete) using only
  the contracts, and a general create-then-read round trip. The `isinstance`
  rejections of those tests have no counterpart: Dafny's types exclude them.

Two details of `update` the model keeps:

- `update` drops a saved entry when it equals any entry of the list being
  built, so a saved entry repeated in the file is kept once, not only
  entries already in memory.
- `update` reads the file through `read`, which replaces the in-memory list
  with the saved one; the model keeps that side effect.

## Model

| member | source | states |
|---|---|---|
| `Entities.Workload.constructor` | app/classes.py:21-31 | a workload holds exactly the given ip, credentials and volume list |
| `Entities.Source.constructor` | app/classes.py:76-82 | a source holds the given ip, username, password and ip lock; the lock defaults to allowing ip changes |
| `Entities.NewSource` | app/classes.py:76-82 | construction fails with an invalid argument exactly when ip, username or password is absent; otherwise a fresh source with those values |
| `Entities.Source.ChangeIp` | app/classes.py:84-88 | an absent ip fails and changes nothing; a locked source keeps its ip without error; otherwise the ip becomes the new value; username and password never change |
| `Entities.Source.ChangeUsername` | app/classes.py:90-93 | an absent username fails and changes nothing; otherwise only the username changes |
| `Entities.Source.ChangePassword` | app/classes.py:95-98 | an absent password fails and changes nothing; otherwise only the password changes |
| `Entities.MigrationTarget.constructor` | app/classes.py:117-126 | a target with a known cloud type holds the given type, credentials and destination VM |
| `Entities.NewMigrationTarget` | app/classes.py:115-126 | construction fails exactly when the cloud type is not one of aws, azure, vsphere, vcloud |
| `Entities.MigrationTarget.ChangeCloudType` | app/classes.py:128-135 | succeeds exactly for the four known cloud types, after which the cloud type is the new one; otherwise fails and keeps the old type; credentials and destination VM never change; a known cloud type stays known |
| `Migrations.Migration.constructor` | app/classes.py:149-162 | a new migration is not started, holds the given selection, source and target, and has the policy gate open |
| `Migrations.Migration.Run` | app/classes.py:164-183 | callable with the source as its own destination whenever the run copies no volume; the state ends in success exactly when the gate is open and every selected name is a source volume name, else in error (never running); on success the destination's volumes are its old ones followed by the selected source volumes in source order, and its ip and credentials are the source's; on error the destination is unchanged; the source is never changed |
| `Migrations.TransferredMembership` | app/classes.py:171-176 | a volume is copied exactly when the source holds it and its name is selected, so copied volumes are the source's own entries |
| `Migrations.TransferredAppend` | app/classes.py:171-176 | the copy keeps source order: filtering a concatenation is concatenating the filtered parts |
| `Migrations.SelectedNamesTransferred` | app/tests/utest_classes.py:275-292 | when the selection is satisfiable, every selected name appears among the copied volumes |
| `Migrations.NothingSelectedNothingTransferred` | app/classes.py:166-176 | when no source volume is selected (in particular for an empty selection) nothing is copied |
| `Persistence.CollectIdentities` | app/classes.py:201-208 | the loop collects, in list order, the ip of every source object and the source ip of every migration object, and nothing from other objects |
| `Persistence.HasDuplicatesIff` | app/classes.py:209-211 | the set-size test reports a duplicate exactly when two positions of the list hold the same value |
| `Persistence.TrackedIpsMembership` | app/classes.py:204-208 | an ip is collected for a kind exactly when some object of that kind carries it |
| `Persistence.TrackedIpsDistinctIff` | app/classes.py:204-211 | the collected ips of a kind are pairwise distinct exactly when no two objects of that kind share an ip |
| `Persistence.IdentityCheckIff` | app/classes.py:200-211 | the write-time check fails exactly when two source objects, or two migration objects, share an ip; collisions across kinds and all other objects are ignored |
| `Persistence.Merge` | app/classes.py:215-221 | the merged list starts with the in-memory list and holds exactly the entries of the in-memory and the saved lists |
| `Persistence.MergeAddsNoDuplicate` | app/classes.py:218-220 | every appended entry is absent from the in-memory list and appended once, so a duplicate-free list stays duplicate-free |
| `Persistence.MergeOfPresentEntries` | app/classes.py:218-220 | saved entries that are all already present add nothing |
| `Persistence.MergeIdempotent` | app/classes.py:215-221 | merging the merged list with the same saved list again gives the same list (a property of the merge; a second `update` starts from the saved list instead) |
| `Persistence.MergeConcat` | app/classes.py:218-220 | merging a saved list equals merging its two parts in turn, so appended entries follow the saved order |
| `Persistence.PersistenceLayer.constructor` | app/classes.py:193-198 | a layer holds the given list, file name and disk |
| `Persistence.PersistenceLayer.Create` | app/classes.py:200-213 | the list written is the argument, or the in-memory list when the argument is empty; it fails with a duplicate identity, writing nothing, exactly when two objects of one tracked kind share an ip; otherwise the file holds exactly that list and no other file changes |
| `Persistence.PersistenceLayer.Read` | app/classes.py:223-226 | a missing file fails and changes nothing; otherwise the in-memory list becomes, and the result is, the file's contents |
| `Persistence.PersistenceLayer.Update` | app/classes.py:215-221 | a missing file fails and changes nothing; otherwise the in-memory list becomes the saved one and the file receives the merge of the old in-memory list with the saved list, unless that merge fails the uniqueness check, in which case the file is unchanged |
| `Persistence.PersistenceLayer.Delete` | app/classes.py:228-229 | removes the file, failing exactly when it does not exist; no other file changes |
| `Scenarios.CreateThenRead` | app/classes.py:200-226 | a list with unique identities written by one layer is read back unchanged by a fresh layer on the same file |

## Left out

- Serialization bytes (`pickle`), `open` and `os.remove`: the file system is a
  `Disk` mapping each existing path to the list it holds, serialization is an
  exact round trip, and a corrupt file (a decode error on `read`) is not
  modelled.
- The layer accepts any picklable object; `Obj` names the domain kinds and
  represents every other object by a string value standing for its contents
  (`Other`), compared by equality as the merge does.
- The persisted and in-memory object lists hold values (`Obj`), not
  references: later mutation of an object after it was put in the list, and
  the aliasing `pickle` preserves inside the stored graph, are not modelled.
- The 60-second `time.sleep` in `run`: simulated latency with no logical
  effect.
- `__repr__` debug strings: formatting only.
- Runtime `isinstance` checks in the constructors: Dafny's types enforce
  them; only the None checks of `Source` (`NewSource`) and the cloud-type
  membership check (`NewMigrationTarget`, `ChangeCloudType`) remain runtime
  conditions.
- `Migrations.Migration.Run`: requires the source and the destination VM to be
  different objects unless the run copies no volume (gate closed, a selected
  name missing, or no source volume selected). When they are the same object
  and a volume is copied, the source loop appends to the list it iterates
  and never ends; such runs are not modelled. Two workloads sharing one
  storage list cannot be expressed, because storage is a sequence value.
- The policy gate `volume_c_allowed` is a class attribute that can be
  switched for all migrations at once; the model keeps it as a per-migration
  field (open by default), the form in which the tests override it.
- `MigrationSnapshot` does not include the policy gate, which takes part in
  the system's field-by-field equality only when overridden on an instance.
- Duplicate identities and invalid arguments are both `ValueError` in the
  system; the model names them apart (`DuplicateIdentity`,
  `InvalidArgument`).
- The REST layer (`app/rest.py`), its registry and id assignment, and the
  network-driven tests: HTTP plumbing over these classes.
- Concurrency between processes writing the same file: the system is single
  threaded and has no file locking.
