/**
 * Block devices as the installation model sees them: a named disk or
 * partition with its children, compared structurally, and the positional
 * naming of partitions under an alias such as "/dev/sda".
 *
 * The storage package itself is not part of this model; what is stated
 * here is what the model's alias test requires of it.
 */
module Storage {
  import opened Wrappers
  import opened Text

  /** A disk or partition. Equality is structural: every attribute and every child, in order. */
  datatype BlockDevice = BlockDevice(
    name: string,
    mountPoint: string,
    fsType: string,
    size: nat,
    children: seq<BlockDevice>)
  {
    /** The device file a name resolves to: the name under "/dev/". */
    function GetDeviceFile(): (f: string)
      ensures |f| == |DevRoot| + |name| && f[..|DevRoot|] == DevRoot && f[|DevRoot|..] == name
    {
      DevRoot + name
    }
  }

  /** Directory holding the device files. */
  const DevRoot := "/dev/"

  /** The device name an alias file denotes: "/dev/sda" denotes "sda". */
  function AliasName(alias: string): (r: Option<string>)
    ensures r.Some? <==> |alias| > |DevRoot| && alias[..|DevRoot|] == DevRoot
    ensures r.Some? ==> DevRoot + r.value == alias
  {
    if |alias| > |DevRoot| && alias[..|DevRoot|] == DevRoot then
      assert alias == DevRoot + alias[|DevRoot|..];
      Some(alias[|DevRoot|..])
    else None
  }

  /** The name of the `i`-th child (counting from 0) of a disk named `base`. */
  function ChildName(base: string, i: nat): (r: string)
    ensures |r| > |base| && r[..|base|] == base
    ensures r[|base|..] == NatToString(i + 1)
  {
    base + NatToString(i + 1)
  }

  /** Different child positions give different names. */
  lemma ChildNamesDistinct(base: string, i: nat, j: nat)
    requires i != j
    ensures ChildName(base, i) != ChildName(base, j)
  {
    if ChildName(base, i) == ChildName(base, j) {
      assert NatToString(i + 1) == ChildName(base, i)[|base|..] == NatToString(j + 1);
      NatToStringInjective(i + 1, j + 1);
    }
  }

  /** The device `d` with its name set to `base` and its children named positionally under it. */
  function ExpandAlias(d: BlockDevice, base: string): (e: BlockDevice)
    ensures e.name == base && |e.children| == |d.children|
    ensures forall i :: 0 <= i < |e.children| ==>
      e.children[i] == d.children[i].(name := ChildName(base, i))
    ensures e.mountPoint == d.mountPoint && e.fsType == d.fsType && e.size == d.size
  {
    d.(name := base,
       children := seq(|d.children|, i requires 0 <= i < |d.children| =>
                         d.children[i].(name := ChildName(base, i))))
  }

  /** Expanding a disk under an alias gives it the alias as its device file, and child i the alias followed by i+1. */
  lemma ExpandedDeviceFiles(d: BlockDevice, alias: string)
    requires AliasName(alias).Some?
    ensures ExpandAlias(d, AliasName(alias).value).GetDeviceFile() == alias
    ensures forall i :: 0 <= i < |d.children| ==>
      ExpandAlias(d, AliasName(alias).value).children[i].GetDeviceFile() == alias + NatToString(i + 1)
  {
  }

  /** The children of an expanded disk have pairwise distinct device files. */
  lemma ExpandedChildrenDistinct(d: BlockDevice, base: string, i: nat, j: nat)
    requires i < j < |d.children|
    ensures ExpandAlias(d, base).children[i].GetDeviceFile() != ExpandAlias(d, base).children[j].GetDeviceFile()
  {
    var e := ExpandAlias(d, base);
    ChildNamesDistinct(base, i, j);
    assert e.children[i].GetDeviceFile()[|DevRoot|..] == ChildName(base, i);
  }
}
