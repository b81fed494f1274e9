/**
 * The create-project dialog (`CreateProjectModal.jsx`): step 1 collects the
 * details, step 2 waits for the screen analysis, step 3 shows the suggested
 * screens and creates the project. The two requests are parameters: the
 * screens the analysis returned (`None` when it failed) and whether the
 * create call succeeded.
 */
module CreateProjectModal {
  import opened Wrappers
  import opened ProjectGenerator

  /** The screens shown when the analysis request fails. */
  const ClientFallback: seq<Suggestion> := [
    Suggestion("Dashboard", "Main overview with key metrics."),
    Suggestion("Settings", "User configuration panel.")
  ]

  /** The body of `POST /projects`. */
  datatype CreateBody = CreateBody(name: string, description: string, about: string, screens: seq<Suggestion>, allowUserChaining: bool)

  class ModalState {
    var step: nat
    var name: string
    var description: string
    var about: string
    var allowUserChaining: bool
    var screens: seq<Suggestion>

    /**
     * The step is 1, 2 or 3, and the short description stays empty: the
     * dialog has no input for it, so only the reset ever writes it.
     */
    predicate Valid()
      reads this
    {
      1 <= step <= 3 && description == ""
    }

    /** The state every field starts from and `handleClose` returns to. */
    predicate Initial()
      reads this
    {
      step == 1 && name == "" && description == "" && about == "" && !allowUserChaining && screens == []
    }

    /** The "Generate Blueprint" button is enabled only with both a name and a goal. */
    predicate CanAnalyze()
      reads this
    {
      name != "" && about != ""
    }

    constructor ()
      ensures Initial() && Valid()
    {
      step := 1;
      name := "";
      description := "";
      about := "";
      allowUserChaining := false;
      screens := [];
    }

    /** The inputs of step 1: the name, the goal and the chaining checkbox. */
    method Edit(newName: string, newAbout: string, newAllow: bool)
      requires Valid() && step == 1
      modifies this
      ensures name == newName && about == newAbout && allowUserChaining == newAllow
      ensures step == old(step) && description == old(description) && screens == old(screens)
      ensures Valid()
    {
      name, about, allowUserChaining := newName, newAbout, newAllow;
    }

    /**
     * The first half of `handleAnalyze`: nothing when the button is
     * disabled; otherwise step 2 and the prompt sent, the goal or else the
     * description.
     */
    method StartAnalyze() returns (prompt: Option<string>)
      requires Valid() && step == 1
      modifies this
      ensures !old(CanAnalyze()) ==> prompt.None? && step == 1
      ensures old(CanAnalyze()) ==> prompt == Some(if old(about) != "" then old(about) else old(description)) && step == 2
      ensures name == old(name) && description == old(description) && about == old(about)
      ensures allowUserChaining == old(allowUserChaining) && screens == old(screens)
      ensures Valid()
    {
      if !CanAnalyze() {
        return None;
      }
      step := 2;
      prompt := Some(if about != "" then about else description);
    }

    /** The rest of `handleAnalyze`: the suggested screens, or the two fallback screens, and step 3 either way. */
    method FinishAnalyze(suggested: Option<seq<Suggestion>>)
      requires Valid() && step == 2
      modifies this
      ensures screens == suggested.GetOr(ClientFallback) && step == 3
      ensures name == old(name) && description == old(description) && about == old(about)
      ensures allowUserChaining == old(allowUserChaining)
      ensures Valid()
    {
      screens := suggested.GetOr(ClientFallback);
      step := 3;
    }

    /** "Back to Edit": step 1 again with every field kept. */
    method Back()
      requires Valid() && step == 3
      modifies this
      ensures step == 1
      ensures name == old(name) && description == old(description) && about == old(about)
      ensures allowUserChaining == old(allowUserChaining) && screens == old(screens)
      ensures Valid()
    {
      step := 1;
    }

    /** `handleClose`: every field back to its initial value. */
    method Close()
      modifies this
      ensures Initial() && Valid()
    {
      name := "";
      description := "";
      about := "";
      allowUserChaining := false;
      screens := [];
      step := 1;
    }

    /**
     * `handleCreate`: the body sent; after a successful create the caller is
     * notified and the dialog resets, after a failed one nothing changes.
     */
    method Create(created: bool) returns (body: CreateBody, notified: bool)
      requires Valid() && step == 3
      modifies this
      ensures body == CreateBody(old(name), old(description), old(about), old(screens), old(allowUserChaining))
      ensures notified == created
      ensures created ==> Initial()
      ensures !created ==>
        && step == old(step) && name == old(name) && about == old(about)
        && allowUserChaining == old(allowUserChaining) && screens == old(screens)
      ensures Valid()
    {
      body := CreateBody(name, description, about, screens, allowUserChaining);
      notified := created;
      if created {
        Close();
      }
    }
  }

  /**
   * One pass through the dialog: details entered, the analysis answered (or
   * not), and the project created. The prompt is always the goal, and the
   * project is created with the fallback screens when the analysis failed.
   */
  method Walkthrough(name: string, about: string, allow: bool, suggested: Option<seq<Suggestion>>)
    returns (prompt: Option<string>, body: CreateBody)
    requires name != "" && about != ""
    ensures prompt == Some(about)
    ensures body == CreateBody(name, "", about, suggested.GetOr(ClientFallback), allow)
    ensures suggested.None? ==> |body.screens| == 2 && body.screens[0].name == "Dashboard" && body.screens[1].name == "Settings"
  {
    var modal := new ModalState();
    modal.Edit(name, about, allow);
    prompt := modal.StartAnalyze();
    modal.FinishAnalyze(suggested);
    assert modal.step == 3;
    var notified;
    body, notified := modal.Create(true);
  }
}
