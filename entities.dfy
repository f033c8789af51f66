/** The domain entities of the migration system: the value objects
    (Credentials, MountPoint), the shared mutable Workload, the Source
    identity with its ip lock, and the MigrationTarget with its cloud-type
    gate. Structural equality between entities is datatype equality; the
    classes offer a `Snapshot` value for the places where the system
    compares them field by field. */
module Entities {
  import opened Wrappers

  /** A username, password and domain, compared field by field. */
  datatype Credentials = Credentials(username: string, password: string, domain: string)

  /** A named storage volume. The size is any integer: the system does not
      reject negative sizes. */
  datatype MountPoint = MountPoint(name: string, size: int)

  /** The field-by-field value of a Workload. */
  datatype WorkloadSnapshot = WorkloadSnapshot(ip: string, credentials: Credentials, storage: seq<MountPoint>)

  /** A machine's address, credentials and attached volumes. It is shared
      by reference: a registry, a migration's source and a target's
      destination VM may all be the same object. */
  class Workload {
    var ip: string
    var credentials: Credentials
    var storage: seq<MountPoint>

    constructor (ip: string, credentials: Credentials, storage: seq<MountPoint>)
      ensures this.ip == ip && this.credentials == credentials && this.storage == storage
    {
      this.ip := ip;
      this.credentials := credentials;
      this.storage := storage;
    }

    function Snapshot(): WorkloadSnapshot
      reads this
    {
      WorkloadSnapshot(ip, credentials, storage)
    }
  }

  /** The field-by-field value of a Source, lock included. */
  datatype SourceSnapshot = SourceSnapshot(ip: string, username: string, password: string, changeIpPossible: bool)

  /** A source endpoint's connection identity. Whether its ip may change is
      fixed when it is built and cannot be revoked later. */
  class Source {
    var ip: string
    var username: string
    var password: string
    const changeIpPossible: bool

    constructor (ip: string, username: string, password: string, changeIpPossible: bool := true)
      ensures this.ip == ip && this.username == username && this.password == password
      ensures this.changeIpPossible == changeIpPossible
    {
      this.ip := ip;
      this.username := username;
      this.password := password;
      this.changeIpPossible := changeIpPossible;
    }

    function GetIp(): string reads this { ip }
    function GetUsername(): string reads this { username }
    function GetPassword(): string reads this { password }

    function Snapshot(): SourceSnapshot
      reads this
    {
      SourceSnapshot(ip, username, password, changeIpPossible)
    }

    /** An absent ip is rejected; a locked source ignores the request
        silently; otherwise the ip is replaced. */
    method ChangeIp(newIp: Option<string>) returns (r: Outcome)
      modifies this`ip
      ensures r == (if newIp.None? then Fail(InvalidArgument) else Pass)
      ensures ip == (if newIp.Some? && changeIpPossible then newIp.value else old(ip))
      ensures username == old(username) && password == old(password)
    {
      if newIp.None? {
        return Fail(InvalidArgument);
      }
      if changeIpPossible {
        ip := newIp.value;
      }
      r := Pass;
    }

    /** An absent username is rejected; otherwise only the username changes. */
    method ChangeUsername(newUsername: Option<string>) returns (r: Outcome)
      modifies this`username
      ensures r == (if newUsername.None? then Fail(InvalidArgument) else Pass)
      ensures username == (if newUsername.Some? then newUsername.value else old(username))
      ensures ip == old(ip) && password == old(password)
    {
      if newUsername.None? {
        return Fail(InvalidArgument);
      }
      username := newUsername.value;
      r := Pass;
    }

    /** An absent password is rejected; otherwise only the password changes. */
    method ChangePassword(newPassword: Option<string>) returns (r: Outcome)
      modifies this`password
      ensures r == (if newPassword.None? then Fail(InvalidArgument) else Pass)
      ensures password == (if newPassword.Some? then newPassword.value else old(password))
      ensures ip == old(ip) && username == old(username)
    {
      if newPassword.None? {
        return Fail(InvalidArgument);
      }
      password := newPassword.value;
      r := Pass;
    }
  }

  /** Builds a Source, rejecting an absent ip, username or password. */
  method NewSource(ip: Option<string>, username: Option<string>, password: Option<string>, changeIpPossible: bool := true)
    returns (r: Result<Source>)
    ensures r.Err? <==> ip.None? || username.None? || password.None?
    ensures r.Err? ==> r.error == InvalidArgument
    ensures r.Ok? ==> fresh(r.value)
    ensures r.Ok? ==>
      r.value.Snapshot() == SourceSnapshot(ip.value, username.value, password.value, changeIpPossible)
  {
    if ip.None? || username.None? || password.None? {
      return Err(InvalidArgument);
    }
    var s := new Source(ip.value, username.value, password.value, changeIpPossible);
    r := Ok(s);
  }

  /** The cloud providers a migration target may name. */
  const CloudTypes: seq<string> := ["aws", "azure", "vsphere", "vcloud"]

  /** The field-by-field value of a MigrationTarget. */
  datatype TargetSnapshot = TargetSnapshot(cloudType: string, cloudCredentials: Credentials, targetVm: WorkloadSnapshot)

  /** A cloud provider, its credentials and the destination VM. The cloud
      type is checked against CloudTypes on every change. */
  class MigrationTarget {
    var cloudType: string
    var cloudCredentials: Credentials
    var targetVm: Workload

    ghost predicate Valid()
      reads this
    {
      cloudType in CloudTypes
    }

    constructor (cloudType: string, cloudCredentials: Credentials, targetVm: Workload)
      requires cloudType in CloudTypes
      ensures Valid()
      ensures this.cloudType == cloudType && this.cloudCredentials == cloudCredentials && this.targetVm == targetVm
    {
      this.cloudType := cloudType;
      this.cloudCredentials := cloudCredentials;
      this.targetVm := targetVm;
    }

    function GetCloudType(): string reads this { cloudType }

    function Snapshot(): TargetSnapshot
      reads this, targetVm
    {
      TargetSnapshot(cloudType, cloudCredentials, targetVm.Snapshot())
    }

    /** Accepts exactly the four known cloud types; anything else is
        rejected and leaves the target as it was. */
    method ChangeCloudType(newType: string) returns (r: Outcome)
      modifies this`cloudType
      ensures old(Valid()) ==> Valid()
      ensures r == (if newType in CloudTypes then Pass else Fail(InvalidArgument))
      ensures cloudType == (if newType in CloudTypes then newType else old(cloudType))
      ensures cloudCredentials == old(cloudCredentials) && targetVm == old(targetVm)
    {
      if newType in CloudTypes {
        cloudType := newType;
        r := Pass;
      } else {
        r := Fail(InvalidArgument);
      }
    }
  }

  /** Builds a MigrationTarget, rejecting a cloud type outside CloudTypes. */
  method NewMigrationTarget(cloudType: string, cloudCredentials: Credentials, targetVm: Workload)
    returns (r: Result<MigrationTarget>)
    ensures r.Err? <==> cloudType !in CloudTypes
    ensures r.Err? ==> r.error == InvalidArgument
    ensures r.Ok? ==> fresh(r.value) && r.value.Valid()
    ensures r.Ok? ==>
      r.value.cloudType == cloudType && r.value.cloudCredentials == cloudCredentials && r.value.targetVm == targetVm
  {
    if cloudType !in CloudTypes {
      return Err(InvalidArgument);
    }
    var t := new MigrationTarget(cloudType, cloudCredentials, targetVm);
    r := Ok(t);
  }
}
