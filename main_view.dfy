/**
 * `MainView`: the start/stop button and the effect table, driving an
 * `EffectsController`.
 */
module View {
  import opened Wrappers
  import opened Effects
  import opened RunControl
  import opened Controller

  const START_TITLE: string := "Start Camera"
  const STOP_TITLE: string := "Stop Camera"

  /** What `toggleCamera` does to the controller's run state. */
  function Toggle(s: RunState): (r: RunState)
    ensures r.isRunning == !s.isRunning
    ensures Consistent(s) ==> Consistent(r)
  {
    if s.isRunning then Stop(s) else Start(s)
  }

  /** Toggling twice from a consistent state leaves the flag and the session as they were running. */
  lemma ToggleTwice(s: RunState)
    requires Consistent(s)
    ensures Toggle(Toggle(s)).isRunning == s.isRunning
    ensures Toggle(Toggle(s)).session.running == s.session.running
  {
  }

  /**
   * The effect a table selection chooses: a selected row names its registry
   * entry, and "no selection" (a negative row) chooses nothing.
   */
  function SelectedEffect(row: int): (r: Option<string>)
    requires row < |AVAILABLE_EFFECTS|
    ensures r.None? <==> row < 0
    ensures row >= 0 ==> r == Some(AVAILABLE_EFFECTS[row])
  {
    if row >= 0 then Some(AVAILABLE_EFFECTS[row]) else None
  }

  /** Every row of the table reaches a known case of `setEffect`, never the unknown-name path. */
  lemma RowsAreKnown(row: int)
    requires 0 <= row < |AVAILABLE_EFFECTS|
    ensures SelectedEffect(row).Some? && Parse(SelectedEffect(row).value).Some?
    ensures Name(Parse(SelectedEffect(row).value).value) == AVAILABLE_EFFECTS[row]
  {
    KnownIffListed(AVAILABLE_EFFECTS[row]);
  }

  class MainView {
    const controller: EffectsController
    /** The title of the start/stop button. */
    var title: string

    /** Window and table construction is not part of this model; the button starts as "Stop Camera". */
    constructor (controller: EffectsController)
      ensures this.controller == controller && title == STOP_TITLE
    {
      this.controller := controller;
      title := STOP_TITLE;
    }

    /** The button title agrees with the controller's run state. */
    ghost predicate TitleAgrees()
      reads this, controller
    {
      (title == START_TITLE <==> !controller.isRunning) &&
      (title == STOP_TITLE <==> controller.isRunning)
    }

    /** `toggleCamera`: flips the run state and sets the title to match it. */
    method ToggleCamera()
      requires controller.Valid()
      modifies this, controller
      ensures controller.Valid() && TitleAgrees()
      ensures controller.State() == Toggle(old(controller.State()))
      ensures controller.isRunning == !old(controller.isRunning)
      ensures controller.current == old(controller.current)
      ensures controller.refreshes == old(controller.refreshes)
    {
      if controller.isRunning {
        controller.Stop();
        title := START_TITLE;
      } else {
        controller.Start();
        title := STOP_TITLE;
      }
    }

    /** `numberOfRows`: one table row per registry entry. */
    function NumberOfRows(): (n: nat)
      ensures n == |AVAILABLE_EFFECTS| && n == 11
    {
      |AVAILABLE_EFFECTS|
    }

    /**
     * `tableViewSelectionDidChange`: a selected row selects its registry
     * entry; with no row selected nothing changes. The table never reports a
     * row at or past `numberOfRows`, which the source would trap on.
     */
    method TableViewSelectionDidChange(selectedRow: int, canCreate: string -> bool, invertHasOutput: bool)
      requires selectedRow < NumberOfRows()
      modifies controller
      ensures selectedRow >= 0 ==> controller.current == Select(AVAILABLE_EFFECTS[selectedRow], canCreate, invertHasOutput)
      ensures selectedRow >= 0 ==> controller.refreshes == old(controller.refreshes) + 1
      ensures selectedRow < 0 ==> controller.current == old(controller.current)
                                  && controller.refreshes == old(controller.refreshes)
      ensures controller.State() == old(controller.State())
    {
      var selected := SelectedEffect(selectedRow);
      if selected.Some? {
        RowsAreKnown(selectedRow);
        controller.SetEffect(selected.value, canCreate, invertHasOutput);
      }
    }
  }
}
