/**
 * The step tracker the graphical install and pre-check pages implement for
 * the progress client: a selection counter that starts at -1 and a map from
 * step index to the row shown for that step. `Desc` opens a new step and
 * finalises the previous one; `Success`/`Failure` mark the current one.
 */
module Progress {
  import opened Wrappers

  /**
   * The row shown for one step: its description, whether a later step has
   * finalised it, and its success/failure mark once one is given.
   */
  datatype InstallWidget = InstallWidget(desc: string, completed: bool, status: Option<bool>)

  /** A fresh row: neither finalised nor marked. */
  function NewInstallWidget(desc: string): (w: InstallWidget)
    ensures w.desc == desc && !w.completed && w.status.None?
  {
    InstallWidget(desc, false, None)
  }

  /** The tracker's state: the current selection and the rows by index. */
  datatype StepState = StepState(selection: int, widgets: map<int, InstallWidget>)
  {
    /** The rows are exactly those of steps 0 through `selection`. */
    ghost predicate Valid() {
      && -1 <= selection
      && forall i :: i in widgets <==> 0 <= i <= selection
    }

    /** Opens step `selection + 1` described by `desc`, finalising the step before it if any. */
    function Desc(desc: string): (s: StepState)
      requires Valid()
      ensures s.Valid() && s.selection == selection + 1
      ensures s.widgets[s.selection] == NewInstallWidget(desc)
      ensures selection >= 0 ==> s.widgets[selection] == widgets[selection].(completed := true)
      ensures forall i :: 0 <= i < selection ==> s.widgets[i] == widgets[i]
    {
      var next := selection + 1;
      var ws := if next > 0 then widgets[next - 1 := widgets[next - 1].(completed := true)] else widgets;
      StepState(next, ws[next := NewInstallWidget(desc)])
    }

    /** Marks the current step as succeeded (`ok`) or failed; no other row changes. */
    function Mark(ok: bool): (s: StepState)
      requires Valid() && selection >= 0
      ensures s.Valid() && s.selection == selection
      ensures s.widgets[selection] == widgets[selection].(status := Some(ok))
      ensures forall i :: i in widgets && i != selection ==> s.widgets[i] == widgets[i]
    {
      StepState(selection, widgets[selection := widgets[selection].(status := Some(ok))])
    }
  }

  /** A new page's tracker: nothing described yet. */
  const Initial := StepState(-1, map[])

  /** The tracker after `Desc` was called once for each description, in order. */
  function Replay(descs: seq<string>): (s: StepState)
    ensures s.Valid() && s.selection == |descs| - 1
  {
    if descs == [] then Initial
    else Replay(descs[..|descs| - 1]).Desc(descs[|descs| - 1])
  }

  /**
   * After n descriptions the rows are exactly steps 0 .. n-1, in the order
   * described; every step but the last is finalised, and none is marked.
   */
  lemma {:induction false} ReplayRows(descs: seq<string>)
    ensures var s := Replay(descs);
      && (forall i :: i in s.widgets <==> 0 <= i < |descs|)
      && (forall i :: 0 <= i < |descs| ==>
            s.widgets[i] == InstallWidget(descs[i], i < |descs| - 1, None))
  {
    if descs != [] {
      var init := descs[..|descs| - 1];
      ReplayRows(init);
    }
  }

  /** The first `Desc` finalises nothing: the only row is the new one. */
  lemma FirstDescMarksNothing(desc: string)
    ensures Initial.Desc(desc).widgets == map[0 := NewInstallWidget(desc)]
  {
  }
}
