/**
 * The text-mode bundle page: one checkbox per available bundle, kept in
 * step with the plan's user bundles, and a one-line summary of the selection.
 */
module Tui {
  import opened Wrappers
  import opened Collections
  import opened Text
  import opened Model

  /** An installable bundle as listed by the bundle catalogue. */
  datatype Bundle = Bundle(name: string, desc: string)

  /** A bundle with the state of its checkbox (1 checked, 0 unchecked). */
  datatype BundleCheck = BundleCheck(bundle: Bundle, state: int)

  /** The bundle names, in list order. */
  function Names(checks: seq<BundleCheck>): (r: seq<string>)
    ensures |r| == |checks| && forall i :: 0 <= i < |checks| ==> r[i] == checks[i].bundle.name
  {
    seq(|checks|, i requires 0 <= i < |checks| => checks[i].bundle.name)
  }

  /** Whether some checkbox is checked. */
  function AnyChecked(checks: seq<BundleCheck>): (r: bool)
    ensures r <==> exists i :: 0 <= i < |checks| && checks[i].state == 1
  {
    if checks == [] then false
    else AnyChecked(checks[..|checks| - 1]) || checks[|checks| - 1].state == 1
  }

  /** The checkboxes after `Activate`: each checked exactly when the plan selects its bundle. */
  function Activated(checks: seq<BundleCheck>, userBundles: seq<string>): (r: seq<BundleCheck>)
    ensures |r| == |checks|
    ensures forall i :: 0 <= i < |checks| ==>
      r[i] == checks[i].(state := if checks[i].bundle.name in userBundles then 1 else 0)
  {
    seq(|checks|, i requires 0 <= i < |checks| =>
      checks[i].(state := if checks[i].bundle.name in userBundles then 1 else 0))
  }

  /** The user bundles after confirming: checked bundles added, unchecked ones removed, in list order. */
  function Confirmed(userBundles: seq<string>, checks: seq<BundleCheck>): (r: seq<string>)
    ensures NoDup(userBundles) ==> NoDup(r)
  {
    if checks == [] then userBundles
    else
      var prev := Confirmed(userBundles, checks[..|checks| - 1]);
      var name := checks[|checks| - 1].bundle.name;
      if checks[|checks| - 1].state == 1 then AddUnique(prev, name) else Without(prev, name)
  }

  /** The state of the last checkbox whose bundle is named `n`, or `None` when no box carries that name. */
  function LastState(checks: seq<BundleCheck>, n: string): (r: Option<int>)
    ensures r.None? <==> forall i :: 0 <= i < |checks| ==> checks[i].bundle.name != n
    ensures r.Some? ==>
      exists i :: 0 <= i < |checks| && checks[i].bundle.name == n && checks[i].state == r.value &&
                  forall j :: i < j < |checks| ==> checks[j].bundle.name != n
  {
    if checks == [] then None
    else if checks[|checks| - 1].bundle.name == n then Some(checks[|checks| - 1].state)
    else
      var init := checks[..|checks| - 1];
      var r := LastState(init, n);
      assert forall i :: 0 <= i < |init| ==> checks[i] == init[i];
      r
  }

  /**
   * Confirming selects a bundle exactly when its last checkbox in the list is
   * checked; a bundle with no checkbox keeps its earlier selection.
   */
  lemma {:induction false} ConfirmedLastBoxWins(userBundles: seq<string>, checks: seq<BundleCheck>, n: string)
    ensures n in Confirmed(userBundles, checks) <==>
      (if LastState(checks, n).Some? then LastState(checks, n).value == 1 else n in userBundles)
  {
    if checks != [] && checks[|checks| - 1].bundle.name != n {
      ConfirmedLastBoxWins(userBundles, checks[..|checks| - 1], n);
    }
  }

  /**
   * With distinct bundle names, confirming leaves a listed bundle selected
   * exactly when its box is checked, and leaves unlisted bundles as they were.
   */
  lemma {:induction false} ConfirmedMembership(userBundles: seq<string>, checks: seq<BundleCheck>)
    requires NoDup(Names(checks))
    ensures forall i :: 0 <= i < |checks| ==>
      (checks[i].bundle.name in Confirmed(userBundles, checks) <==> checks[i].state == 1)
    ensures forall n :: n !in Names(checks) ==>
      (n in Confirmed(userBundles, checks) <==> n in userBundles)
  {
    if checks != [] {
      var init := checks[..|checks| - 1];
      var last := checks[|checks| - 1];
      assert Names(init) == Names(checks)[..|checks| - 1];
      ConfirmedMembership(userBundles, init);
      forall n | n !in Names(checks)
        ensures n in Confirmed(userBundles, checks) <==> n in userBundles
      {
        assert n != last.bundle.name by {
          assert Names(checks)[|checks| - 1] == last.bundle.name;
        }
        assert n !in Names(init);
      }
      forall i | 0 <= i < |init|
        ensures checks[i].bundle.name in Confirmed(userBundles, checks) <==> checks[i].state == 1
      {
        assert Names(checks)[i] != Names(checks)[|checks| - 1];
        assert checks[i] == init[i];
      }
    }
  }

  /** Confirming the boxes exactly as `Activate` set them leaves the selection unchanged. */
  lemma {:induction false} ConfirmActivated(userBundles: seq<string>, checks: seq<BundleCheck>)
    ensures Confirmed(userBundles, Activated(checks, userBundles)) == userBundles
  {
    if checks != [] {
      var init := checks[..|checks| - 1];
      var act := Activated(checks, userBundles);
      assert act[..|act| - 1] == Activated(init, userBundles);
      ConfirmActivated(userBundles, init);
    }
  }

  /**
   * The summary of a non-empty selection splits back into the selection,
   * provided no selected name contains ", ".
   */
  lemma ConfiguredValueRoundTrip(page: BundlePage)
    requires page.model.userBundles != []
    requires forall i :: 0 <= i < |page.model.userBundles| ==> NoListSeparator(page.model.userBundles[i])
    ensures SplitList(page.GetConfiguredValue()) == page.model.userBundles
  {
    SplitJoin(page.model.userBundles);
  }

  /** The page summary when no bundle is selected. */
  const NoBundlesText := "No bundles selected"

  /** The package-level list of bundles with their checkboxes, shared by every bundle page. */
  class BundleList {
    var checks: seq<BundleCheck>

    constructor ()
      ensures checks == []
    {
      checks := [];
    }
  }

  class BundlePage {
    const model: SystemInstall
    const bundles: BundleList
    var done: bool

    constructor (model: SystemInstall, bundles: BundleList)
      ensures this.model == model && this.bundles == bundles && !done
    {
      this.model := model;
      this.bundles := bundles;
      done := false;
    }

    /** The selected user bundles joined by ", ", or a fixed text when none is selected. */
    function GetConfiguredValue(): (r: string)
      reads this, model
      ensures model.userBundles == [] ==> r == NoBundlesText
      ensures model.userBundles != [] ==> r == Join(model.userBundles, ListSeparator)
    {
      if |model.userBundles| == 0 then NoBundlesText else Join(model.userBundles, ListSeparator)
    }

    /** Sets every checkbox from the plan: checked exactly when its bundle is a user bundle. */
    method Activate()
      modifies bundles`checks
      ensures bundles.checks == Activated(old(bundles.checks), model.userBundles)
    {
      ghost var before := bundles.checks;
      for i := 0 to |bundles.checks|
        invariant |bundles.checks| == |before|
        invariant forall k :: 0 <= k < i ==>
          bundles.checks[k] == Activated(before, model.userBundles)[k]
        invariant forall k :: i <= k < |before| ==> bundles.checks[k] == before[k]
      {
        var state := 0;
        if model.ContainsUserBundle(bundles.checks[i].bundle.name) {
          state := 1;
        }
        bundles.checks := bundles.checks[i := bundles.checks[i].(state := state)];
      }
    }

    /**
     * The confirm handler: adds every checked bundle to the user bundles and
     * removes every unchecked one, in list order; the page is done exactly
     * when some box was checked.
     */
    method Confirm()
      requires model.Valid()
      modifies model`userBundles, this`done
      ensures model.Valid()
      ensures model.userBundles == Confirmed(old(model.userBundles), bundles.checks)
      ensures done == AnyChecked(bundles.checks)
    {
      var checks := bundles.checks;
      ghost var selected := model.userBundles;
      var anySelected := false;
      for i := 0 to |checks|
        invariant model.Valid()
        invariant model.userBundles == Confirmed(selected, checks[..i])
        invariant anySelected == AnyChecked(checks[..i])
      {
        assert checks[..i + 1][..i] == checks[..i];
        var curr := checks[i];
        assert Confirmed(selected, checks[..i + 1]) ==
          if curr.state == 1 then AddUnique(model.userBundles, curr.bundle.name)
          else Without(model.userBundles, curr.bundle.name);
        if curr.state == 1 {
          model.AddUserBundle(curr.bundle.name);
          anySelected := true;
        } else {
          model.RemoveUserBundle(curr.bundle.name);
        }
      }
      assert checks[..|checks|] == checks;
      done := anySelected;
    }
  }

  /**
   * Builds a bundle page from the catalogue `loaded` (or its loading error):
   * on success every loaded bundle is appended to the shared list, after what
   * was already there, and every checkbox starts unchecked.
   */
  method NewBundlePage(model: SystemInstall, bundles: BundleList, loaded: Result<seq<Bundle>, string>)
    returns (page: Result<BundlePage, string>)
    modifies bundles`checks
    ensures loaded.Failure? ==>
      page == Failure(loaded.error) && bundles.checks == old(bundles.checks)
    ensures loaded.Success? ==> page.Success? && fresh(page.value)
    ensures loaded.Success? ==>
      && page.value.model == model && page.value.bundles == bundles && !page.value.done
      && |bundles.checks| == |old(bundles.checks)| + |loaded.value|
      && (forall i :: 0 <= i < |old(bundles.checks)| ==>
            bundles.checks[i].bundle == old(bundles.checks)[i].bundle)
      && (forall i :: 0 <= i < |loaded.value| ==>
            bundles.checks[|old(bundles.checks)| + i].bundle == loaded.value[i])
      && (forall i :: 0 <= i < |bundles.checks| ==> bundles.checks[i].state == 0)
  {
    if loaded.Failure? {
      return Failure(loaded.error);
    }
    var p := new BundlePage(model, bundles);
    var bdls := loaded.value;
    ghost var before := bundles.checks;
    for i := 0 to |bdls|
      invariant |bundles.checks| == |before| + i
      invariant forall k :: 0 <= k < |before| ==> bundles.checks[k].bundle == before[k].bundle
      invariant forall k :: 0 <= k < i ==> bundles.checks[|before| + k].bundle == bdls[k]
      invariant !p.done
    {
      bundles.checks := bundles.checks + [BundleCheck(bdls[i], 0)];
    }
    ghost var appended := bundles.checks;
    for i := 0 to |bundles.checks|
      invariant |bundles.checks| == |appended|
      invariant forall k :: 0 <= k < |appended| ==> bundles.checks[k].bundle == appended[k].bundle
      invariant forall k :: 0 <= k < i ==> bundles.checks[k].state == 0
      invariant !p.done
    {
      bundles.checks := bundles.checks[i := bundles.checks[i].(state := 0)];
    }
    page := Success(p);
  }
}
