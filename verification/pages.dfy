/**
 * The graphical install and pre-check pages: each tracks the worker's
 * progress steps and, once the worker returns, reduces its outcome to an
 * info text, a label style, button states and (for the pre-check) a success
 * signal sent to the controller.
 *
 * Translations are taken as the identity: every message is its English text.
 */
module Pages {
  import opened Wrappers
  import opened Text
  import opened Progress

  /** The buttons a page may switch on or off. */
  datatype Button = ButtonCancel | ButtonConfirm | ButtonQuit | ButtonBack | ButtonNext | ButtonExit

  /** The style class of the info label. */
  datatype LabelStyle = LabelInfo | LabelWarning

  /** The controller as the pages see it: the button states set so far and the pre-check signals sent. */
  class Controller {
    var buttons: map<Button, bool>
    var preCheckSignals: seq<bool>

    constructor ()
      ensures buttons == map[] && preCheckSignals == []
    {
      buttons, preCheckSignals := map[], [];
    }

    method SetButtonState(b: Button, enabled: bool)
      modifies this`buttons
      ensures buttons == old(buttons)[b := enabled]
    {
      buttons := buttons[b := enabled];
    }

    method SetPreCheckChannel(success: bool)
      modifies this`preCheckSignals
      ensures preCheckSignals == old(preCheckSignals) + [success]
    {
      preCheckSignals := preCheckSignals + [success];
    }
  }

  /** A failure message: a fixed sentence, a newline, and the first line of the error. */
  function FailureText(prefix: string, err: string): (r: string)
    ensures |prefix| < |r| <= |prefix| + 1 + |err|
    ensures r[..|prefix|] == prefix && r[|prefix|] == '\n'
    ensures '\n' !in r[|prefix| + 1..] && r[|prefix| + 1..] == err[..|r| - |prefix| - 1]
    ensures r[|prefix| + 1..] == FirstLine(err)
  {
    var t := prefix + "\n" + FirstLine(err);
    assert t[|prefix| + 1..] == FirstLine(err);
    t
  }

  /**
   * A failure message has exactly one newline, right after the fixed sentence,
   * and what follows it is the error's first line.
   */
  lemma FailureTextLines(prefix: string, err: string)
    requires '\n' !in prefix
    ensures var t := FailureText(prefix, err);
      && FirstLine(t) == prefix
      && t[|prefix| + 1..] == FirstLine(err)
      && err[..|t| - |prefix| - 1] == t[|prefix| + 1..]
      && forall i :: 0 <= i < |t| && t[i] == '\n' ==> i == |prefix|
  {
    var t := FailureText(prefix, err);
    FirstLineOfLines(prefix, FirstLine(err));
    assert t[|prefix| + 1..] == FirstLine(err);
  }

  const InstallInProgressText := "Installation in progress. Please wait."
  const InstallFailedText := "Installation failed."
  const InstallSucceededText := "Installation successful. Exit."

  const PreCheckInProgressText := "Checking Prerequisites. Please wait."
  const PreCheckFailedText := "Prerequisites for installation are not met."
  const PreCheckSucceededText := "Prerequisites for installation are met. Proceeding."

  /** The page that runs the installation and shows its steps. */
  class InstallPage {
    const controller: Controller
    var selection: int
    var widgets: map<int, InstallWidget>
    var info: string
    var infoStyle: LabelStyle

    ghost function State(): StepState
      reads this
    {
      StepState(selection, widgets)
    }

    ghost predicate Valid()
      reads this
    {
      State().Valid()
    }

    /** A page with no step described yet and an empty info label. */
    constructor (controller: Controller)
      ensures Valid() && State() == Initial
      ensures this.controller == controller && info == "" && infoStyle == LabelInfo
    {
      this.controller := controller;
      selection := -1;
      widgets := map[];
      info := "";
      infoStyle := LabelInfo;
    }

    /** Opens a new step, finalising the previous one. */
    method Desc(desc: string)
      requires Valid()
      modifies this`selection, this`widgets
      ensures Valid() && State() == old(State()).Desc(desc)
    {
      selection := selection + 1;
      if selection > 0 {
        widgets := widgets[selection - 1 := widgets[selection - 1].(completed := true)];
      }
      widgets := widgets[selection := NewInstallWidget(desc)];
    }

    /** Marks the current step failed; a step must have been described. */
    method Failure()
      requires Valid() && selection >= 0
      modifies this`widgets
      ensures Valid() && State() == old(State()).Mark(false)
    {
      widgets := widgets[selection := widgets[selection].(status := Some(false))];
    }

    /** Marks the current step succeeded; a step must have been described. */
    method Success()
      requires Valid() && selection >= 0
      modifies this`widgets
      ensures Valid() && State() == old(State()).Mark(true)
    {
      widgets := widgets[selection := widgets[selection].(status := Some(true))];
    }

    /**
     * Validates the plan and, when it is valid, runs the installation.
     * `validation` and `install` are the errors the validator and the
     * installer return (`None` for no error); `started` says whether the
     * installation was run.
     */
    method ResetChanges(validation: Option<string>, install: Option<string>) returns (started: bool)
      modifies this`info, this`infoStyle, controller`buttons
      ensures started <==> validation.None?
      ensures !started ==>
        && info == InstallInProgressText
        && infoStyle == old(infoStyle)
        && controller.buttons == old(controller.buttons)
      ensures started ==> controller.buttons == old(controller.buttons)[ButtonQuit := true]
      ensures started && install.Some? ==>
        info == FailureText(InstallFailedText, install.value) && infoStyle == LabelWarning
      ensures started && install.None? ==>
        info == InstallSucceededText && infoStyle == old(infoStyle)
    {
      info := InstallInProgressText;
      if validation.Some? {
        return false;
      }
      started := true;
      match install {
        case Some(err) =>
          info := FailureText(InstallFailedText, err);
          infoStyle := LabelWarning;
        case None =>
          info := InstallSucceededText;
      }
      controller.SetButtonState(ButtonQuit, true);
    }
  }

  /** The page that runs the installation prerequisites check and shows its steps. */
  class PreCheckPage {
    const controller: Controller
    var selection: int
    var widgets: map<int, InstallWidget>
    var info: string
    var infoStyle: LabelStyle

    ghost function State(): StepState
      reads this
    {
      StepState(selection, widgets)
    }

    ghost predicate Valid()
      reads this
    {
      State().Valid()
    }

    /** A page with no step described yet and an empty info label. */
    constructor (controller: Controller)
      ensures Valid() && State() == Initial
      ensures this.controller == controller && info == "" && infoStyle == LabelInfo
    {
      this.controller := controller;
      selection := -1;
      widgets := map[];
      info := "";
      infoStyle := LabelInfo;
    }

    /** Opens a new step, finalising the previous one. */
    method Desc(desc: string)
      requires Valid()
      modifies this`selection, this`widgets
      ensures Valid() && State() == old(State()).Desc(desc)
    {
      selection := selection + 1;
      if selection > 0 {
        widgets := widgets[selection - 1 := widgets[selection - 1].(completed := true)];
      }
      widgets := widgets[selection := NewInstallWidget(desc)];
    }

    /** Marks the current step failed; a step must have been described. */
    method Failure()
      requires Valid() && selection >= 0
      modifies this`widgets
      ensures Valid() && State() == old(State()).Mark(false)
    {
      widgets := widgets[selection := widgets[selection].(status := Some(false))];
    }

    /** Marks the current step succeeded; a step must have been described. */
    method Success()
      requires Valid() && selection >= 0
      modifies this`widgets
      ensures Valid() && State() == old(State()).Mark(true)
    {
      widgets := widgets[selection := widgets[selection].(status := Some(true))];
    }

    /**
     * Runs the prerequisites check, whose returned error is `check`, shows the
     * outcome and sends the controller one signal: whether the check passed.
     */
    method ResetChanges(check: Option<string>)
      modifies this`info, this`infoStyle, controller`buttons, controller`preCheckSignals
      ensures controller.preCheckSignals == old(controller.preCheckSignals) + [check.None?]
      ensures check.Some? ==>
        && info == FailureText(PreCheckFailedText, check.value)
        && infoStyle == LabelWarning
        && controller.buttons == old(controller.buttons)
      ensures check.None? ==>
        && info == PreCheckSucceededText
        && infoStyle == old(infoStyle)
        && controller.buttons == old(controller.buttons)[ButtonExit := false]
    {
      info := PreCheckInProgressText;
      var success: bool;
      match check {
        case Some(err) =>
          info := FailureText(PreCheckFailedText, err);
          infoStyle := LabelWarning;
          success := false;
        case None =>
          info := PreCheckSucceededText;
          controller.SetButtonState(ButtonExit, false);
          success := true;
      }
      controller.SetPreCheckChannel(success);
    }
  }

  /**
   * A worker that reports `Desc("A")`, `Desc("B")`, `Success()` to a new install
   * page leaves step A finalised and unmarked and step B marked succeeded.
   */
  method StepSequenceScenario() returns (a: InstallWidget, b: InstallWidget, count: nat)
    ensures a == InstallWidget("A", true, None)
    ensures b == InstallWidget("B", false, Some(true))
    ensures count == 2
  {
    var controller := new Controller();
    var page := new InstallPage(controller);
    page.Desc("A");
    page.Desc("B");
    page.Success();
    a, b := page.widgets[0], page.widgets[1];
    count := |page.widgets.Keys|;
  }
}
