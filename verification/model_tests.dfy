/**
 * The scenarios the model's own tests exercise, as client methods of the
 * mutation API: each result the tests inspect is an out-parameter, and the
 * postconditions are the tests' assertions, proved for every input.
 */
module ModelTests {
  import opened Wrappers
  import opened Collections
  import opened Text
  import opened Storage
  import opened Model

  /** An empty registry answers no; once "/dev/sda" is appended it answers yes. */
  method IsTestAliasScenario() returns (before: bool, after: bool)
    ensures !before && after
  {
    var aliases := new TestAliases();
    before := aliases.IsTestAlias("/dev/sda");
    aliases.testAlias := aliases.testAlias + ["/dev/sda"];
    after := aliases.IsTestAlias("/dev/sda");
  }

  /**
   * A disk loaded through the alias "/dev/sda" is named "sda" with device file
   * "/dev/sda"; its child i is named "sda{i+1}" with device file "/dev/sda{i+1}".
   */
  method BlockDevicesAliasScenario(d: BlockDevice) returns (tm: Option<BlockDevice>)
    ensures tm.Some? && tm.value.name == "sda" && tm.value.GetDeviceFile() == "/dev/sda"
    ensures |tm.value.children| == |d.children|
    ensures forall i :: 0 <= i < |d.children| ==>
      && tm.value.children[i].name == "sda" + NatToString(i + 1)
      && tm.value.children[i].GetDeviceFile() == "/dev/" + ("sda" + NatToString(i + 1))
  {
    var aliases := new TestAliases();
    aliases.testAlias := aliases.testAlias + ["/dev/sda"];
    assert AliasName("/dev/sda") == Some("sda");
    tm := aliases.ExpandTestAlias("/dev/sda", d);
  }

  /** Telemetry reads as off on a fresh plan; enabling it allocates the holder and turns it on. */
  method EnableTelemetryScenario() returns (defaultEnabled: bool, holderAllocated: bool, enabled: bool)
    ensures !defaultEnabled && holderAllocated && enabled
  {
    var si := new SystemInstall();
    defaultEnabled := si.IsTelemetryEnabled();
    si.EnableTelemetry(true);
    holderAllocated := si.telemetry.Some?;
    enabled := si.IsTelemetryEnabled();
  }

  /**
   * Membership of a bundle follows add and remove, removing one bundle keeps
   * the other, and adding the same bundle twice leaves a single entry.
   */
  method BundleScenario(b: string, other: string) returns (
    before: bool, afterAdd: bool, afterRemove: bool, otherKept: bool, count: nat)
    requires b != other
    ensures !before && afterAdd && !afterRemove && otherKept
    ensures count == 1
  {
    var si := new SystemInstall();
    before := si.ContainsBundle(b);
    si.AddBundle(b);
    si.AddBundle(other);
    afterAdd := si.ContainsBundle(b);
    si.RemoveBundle(b);
    afterRemove := si.ContainsBundle(b);
    otherKept := si.ContainsBundle(other);
    si.RemoveBundle(other);
    si.AddBundle(b);
    si.AddBundle(b);
    count := |si.bundles|;
  }

  /**
   * A disk added to an empty plan gives one target; adding it again changes
   * nothing; adding a copy with a different name adds a second one.
   */
  method AddTargetMediaScenario(d: BlockDevice) returns (first: nat, again: nat, withClone: nat)
    ensures first == 1 && again == first && withClone == 2
  {
    var nm := new SystemInstall();
    nm.AddTargetMedia(d);
    first := |nm.targetMedias|;
    nm.AddTargetMedia(d);
    again := |nm.targetMedias|;
    var clone := d.(name := d.name + "-cloned");
    assert |clone.name| != |d.name|;
    nm.AddTargetMedia(clone);
    withClone := |nm.targetMedias|;
  }

  /**
   * Adding users with distinct logins grows the list by one each time;
   * adding the first again changes nothing; removing all empties it.
   */
  method UserScenario(users: seq<User>) returns (sizes: seq<nat>, again: nat, cleared: nat)
    requires |users| > 0 && UniqueLogins(users)
    ensures |sizes| == |users| && forall i :: 0 <= i < |users| ==> sizes[i] == i + 1
    ensures again == |users|
    ensures cleared == 0
  {
    var si := new SystemInstall();
    sizes := [];
    for i := 0 to |users|
      invariant si.Valid() && si.users == users[..i]
      invariant |sizes| == i && forall k :: 0 <= k < i ==> sizes[k] == k + 1
    {
      assert !HasLogin(si.users, users[i].login);
      si.AddUser(users[i]);
      assert users[..i + 1] == users[..i] + [users[i]];
      sizes := sizes + [|si.users|];
    }
    assert si.users == users;
    assert HasLogin(si.users, users[0].login);
    si.AddUser(users[0]);
    again := |si.users|;
    si.RemoveAllUsers();
    cleared := |si.users|;
  }

  /**
   * On a fresh plan, adding distinct arguments allocates the holder and lists
   * each of them once; adding them again does not grow the list.
   */
  method AddExtraKernelArgumentsScenario(args: seq<string>) returns (
    holderAllocated: bool, add: seq<string>, againLength: nat)
    requires NoDup(args)
    ensures holderAllocated
    ensures |add| == |args| && forall a :: a in args ==> a in add
    ensures againLength == |add|
  {
    var si := new SystemInstall();
    si.AddExtraKernelArguments(args);
    holderAllocated := si.kernelArguments.Some?;
    add := si.kernelArguments.value.add;
    AddAllDistinct(args);
    si.AddExtraKernelArguments(args);
    AddAllIdempotent([], args);
    againLength := |si.kernelArguments.value.add|;
  }

  /**
   * On a fresh plan, removing distinct arguments allocates the holder and lists
   * each of them once; removing them again does not grow the list.
   */
  method RemoveKernelArgumentsScenario(args: seq<string>) returns (
    holderAllocated: bool, remove: seq<string>, againLength: nat)
    requires NoDup(args)
    ensures holderAllocated
    ensures |remove| == |args| && forall a :: a in args ==> a in remove
    ensures againLength == |remove|
  {
    var si := new SystemInstall();
    si.RemoveKernelArguments(args);
    holderAllocated := si.kernelArguments.Some?;
    remove := si.kernelArguments.value.remove;
    AddAllDistinct(args);
    si.RemoveKernelArguments(args);
    AddAllIdempotent([], args);
    againLength := |si.kernelArguments.value.remove|;
  }
}
