/**
 * The installation plan (`SystemInstall`) and its mutation API: sets of
 * bundles, user bundles, users and target media kept free of duplicates,
 * the kernel-argument deltas and the telemetry decision, both allocated
 * on first use; and the registry of test device aliases.
 */
module Model {
  import opened Wrappers
  import opened Collections
  import opened Storage

  /** An account to create on the target; users are told apart by login. */
  datatype User = User(login: string, password: string, admin: bool)

  /** The telemetry decision, present only once one has been made. */
  datatype Telemetry = Telemetry(enabled: bool)

  /** Kernel command-line arguments to add and to remove. */
  datatype KernelArguments = KernelArguments(add: seq<string>, remove: seq<string>)

  /** The holder a kernel-argument mutator works on: the existing one, or a fresh empty one. */
  function KernelArgumentsOrNew(k: Option<KernelArguments>): (r: KernelArguments)
    ensures k.None? ==> r.add == [] && r.remove == []
    ensures k.Some? ==> r == k.value
  {
    match k
    case None => KernelArguments([], [])
    case Some(args) => args
  }

  /** No two users share a login. */
  ghost predicate UniqueLogins(users: seq<User>) {
    forall i, j :: 0 <= i < j < |users| ==> users[i].login != users[j].login
  }

  /** Some user in `users` has this login. */
  ghost predicate HasLogin(users: seq<User>, login: string) {
    exists i :: 0 <= i < |users| && users[i].login == login
  }

  /** `users` after adding `u`: unchanged if its login is taken, otherwise `u` appended. */
  ghost function WithUser(users: seq<User>, u: User): (r: seq<User>)
    ensures UniqueLogins(users) ==> UniqueLogins(r)
    ensures HasLogin(r, u.login)
    ensures |r| == if HasLogin(users, u.login) then |users| else |users| + 1
    ensures |users| <= |r| && r[..|users|] == users
    ensures !HasLogin(users, u.login) ==> r[|users|] == u
    ensures HasLogin(users, u.login) ==> r == users
  {
    if HasLogin(users, u.login) then users
    else
      var r := users + [u];
      assert r[|users|].login == u.login;
      r
  }

  /** The registry of device names that tests may use in place of real disks. */
  class TestAliases {
    var testAlias: seq<string>

    constructor ()
      ensures testAlias == []
    {
      testAlias := [];
    }

    /** Whether `alias` has been registered as a test alias. */
    function IsTestAlias(alias: string): (r: bool)
      reads this
      ensures r <==> alias in testAlias
    {
      Contains(testAlias, alias)
    }

    /**
     * A loaded disk named through `alias`: expanded when the alias is a
     * registered test alias under "/dev/", absent otherwise.
     */
    function ExpandTestAlias(alias: string, d: BlockDevice): (r: Option<BlockDevice>)
      reads this
      ensures r.Some? <==> alias in testAlias && AliasName(alias).Some?
      ensures r.Some? ==> r.value.GetDeviceFile() == alias && |r.value.children| == |d.children|
      ensures r.Some? ==> forall i :: 0 <= i < |d.children| ==>
        r.value.children[i].GetDeviceFile() == alias + Text.NatToString(i + 1)
    {
      if IsTestAlias(alias) && AliasName(alias).Some? then
        ExpandedDeviceFiles(d, alias);
        Some(ExpandAlias(d, AliasName(alias).value))
      else None
    }
  }

  /** The installation plan. */
  class SystemInstall {
    var bundles: seq<string>
    var userBundles: seq<string>
    var users: seq<User>
    var targetMedias: seq<BlockDevice>
    var kernelArguments: Option<KernelArguments>
    var telemetry: Option<Telemetry>

    /** Every collection is free of duplicates, by its own notion of equality. */
    ghost predicate Valid()
      reads this
    {
      && NoDup(bundles)
      && NoDup(userBundles)
      && UniqueLogins(users)
      && NoDup(targetMedias)
      && (kernelArguments.Some? ==>
            NoDup(kernelArguments.value.add) && NoDup(kernelArguments.value.remove))
    }

    /** An empty plan, `&SystemInstall{}`. */
    constructor ()
      ensures Valid()
      ensures bundles == [] && userBundles == [] && users == [] && targetMedias == []
      ensures kernelArguments == None && telemetry == None
    {
      bundles, userBundles, users, targetMedias := [], [], [], [];
      kernelArguments, telemetry := None, None;
    }

    /** Telemetry is on only when a decision is present and says so; an absent holder reads as off. */
    function IsTelemetryEnabled(): (r: bool)
      reads this
      ensures telemetry.None? ==> !r
      ensures telemetry.Some? ==> r == telemetry.value.enabled
    {
      match telemetry
      case None => false
      case Some(t) => t.enabled
    }

    /** Records the telemetry decision, allocating the holder on first use. */
    method EnableTelemetry(enable: bool)
      requires Valid()
      modifies this`telemetry
      ensures Valid()
      ensures telemetry.Some? && IsTelemetryEnabled() == enable
    {
      if telemetry.None? {
        telemetry := Some(Telemetry(false));
      }
      telemetry := Some(telemetry.value.(enabled := enable));
    }

    function ContainsBundle(bundle: string): (r: bool)
      reads this
      ensures r <==> bundle in bundles
    {
      Contains(bundles, bundle)
    }

    /** Adds a bundle unless it is already in the plan. */
    method AddBundle(bundle: string)
      requires Valid()
      modifies this`bundles
      ensures Valid()
      ensures bundles == AddUnique(old(bundles), bundle)
    {
      if !Contains(bundles, bundle) {
        bundles := bundles + [bundle];
      }
    }

    /** Drops every copy of a bundle, keeping the others in order. */
    method RemoveBundle(bundle: string)
      requires Valid()
      modifies this`bundles
      ensures Valid()
      ensures bundles == Without(old(bundles), bundle)
    {
      var kept: seq<string> := [];
      for i := 0 to |bundles|
        invariant kept == Without(bundles[..i], bundle)
      {
        assert bundles[..i + 1][..i] == bundles[..i];
        if bundles[i] != bundle {
          kept := kept + [bundles[i]];
        }
      }
      assert bundles[..|bundles|] == bundles;
      bundles := kept;
    }

    function ContainsUserBundle(bundle: string): (r: bool)
      reads this
      ensures r <==> bundle in userBundles
    {
      Contains(userBundles, bundle)
    }

    /** Adds a user-selected bundle unless it is already selected. */
    method AddUserBundle(bundle: string)
      requires Valid()
      modifies this`userBundles
      ensures Valid()
      ensures userBundles == AddUnique(old(userBundles), bundle)
    {
      if !Contains(userBundles, bundle) {
        userBundles := userBundles + [bundle];
      }
    }

    /** Drops a user-selected bundle, keeping the others in order. */
    method RemoveUserBundle(bundle: string)
      requires Valid()
      modifies this`userBundles
      ensures Valid()
      ensures userBundles == Without(old(userBundles), bundle)
    {
      var kept: seq<string> := [];
      for i := 0 to |userBundles|
        invariant kept == Without(userBundles[..i], bundle)
      {
        assert userBundles[..i + 1][..i] == userBundles[..i];
        if userBundles[i] != bundle {
          kept := kept + [userBundles[i]];
        }
      }
      assert userBundles[..|userBundles|] == userBundles;
      userBundles := kept;
    }

    /** Adds a target disk unless a structurally equal one is already there. */
    method AddTargetMedia(bd: BlockDevice)
      requires Valid()
      modifies this`targetMedias
      ensures Valid()
      ensures targetMedias == AddUnique(old(targetMedias), bd)
    {
      for i := 0 to |targetMedias|
        invariant bd !in targetMedias[..i]
      {
        if targetMedias[i] == bd {
          return;
        }
        assert targetMedias[..i + 1] == targetMedias[..i] + [targetMedias[i]];
      }
      assert targetMedias[..|targetMedias|] == targetMedias;
      targetMedias := targetMedias + [bd];
    }

    /** Adds a user unless one with the same login is already there. */
    method AddUser(u: User)
      requires Valid()
      modifies this`users
      ensures Valid()
      ensures users == WithUser(old(users), u)
    {
      for i := 0 to |users|
        invariant forall k :: 0 <= k < i ==> users[k].login != u.login
      {
        if users[i].login == u.login {
          return;
        }
      }
      users := users + [u];
    }

    /** Forgets every user. */
    method RemoveAllUsers()
      requires Valid()
      modifies this`users
      ensures Valid()
      ensures users == []
    {
      users := [];
    }

    /** Adds each argument to the list to add, allocating the holder on first use. */
    method AddExtraKernelArguments(args: seq<string>)
      requires Valid()
      modifies this`kernelArguments
      ensures Valid()
      ensures var k := KernelArgumentsOrNew(old(kernelArguments));
        kernelArguments == Some(k.(add := AddAll(k.add, args)))
    {
      ghost var k := KernelArgumentsOrNew(kernelArguments);
      if kernelArguments.None? {
        kernelArguments := Some(KernelArguments([], []));
      }
      for i := 0 to |args|
        invariant kernelArguments == Some(k.(add := AddAll(k.add, args[..i])))
        invariant Valid()
      {
        assert args[..i + 1][..i] == args[..i];
        var curr := args[i];
        if !Contains(kernelArguments.value.add, curr) {
          kernelArguments := Some(kernelArguments.value.(add := kernelArguments.value.add + [curr]));
        }
      }
      assert args[..|args|] == args;
    }

    /** Adds each argument to the list to remove, allocating the holder on first use. */
    method RemoveKernelArguments(args: seq<string>)
      requires Valid()
      modifies this`kernelArguments
      ensures Valid()
      ensures var k := KernelArgumentsOrNew(old(kernelArguments));
        kernelArguments == Some(k.(remove := AddAll(k.remove, args)))
    {
      ghost var k := KernelArgumentsOrNew(kernelArguments);
      if kernelArguments.None? {
        kernelArguments := Some(KernelArguments([], []));
      }
      for i := 0 to |args|
        invariant kernelArguments == Some(k.(remove := AddAll(k.remove, args[..i])))
        invariant Valid()
      {
        assert args[..i + 1][..i] == args[..i];
        var curr := args[i];
        if !Contains(kernelArguments.value.remove, curr) {
          kernelArguments := Some(kernelArguments.value.(remove := kernelArguments.value.remove + [curr]));
        }
      }
      assert args[..|args|] == args;
    }
  }
}
