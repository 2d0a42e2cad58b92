/** The part of the writing panel the controller drives while a rewrite is in
    flight: the "Processing..." label and the Cancel button, which are shown
    and hidden together, and the enabled flag of the Rewrite button. */
module Panel {

  datatype PanelState = PanelState(spinnerVisible: bool, cancelVisible: bool, rewriteEnabled: bool) {

    /** The loading indicator is shown. */
    predicate Loading() {
      spinnerVisible
    }

    /** The widgets agree with each other: the spinner and the Cancel button
        are shown together, and exactly when the Rewrite button is disabled. */
    predicate Consistent() {
      spinnerVisible == cancelVisible && rewriteEnabled == !spinnerVisible
    }
  }

  /** A fresh panel: spinner and Cancel button hidden, Rewrite button enabled
      (a new `JButton` starts enabled). */
  const Initial: PanelState := PanelState(false, false, true)

  /** `showLoadingState(loading)`: shows or hides the spinner and the Cancel
      button and leaves the Rewrite button alone. */
  function ShowLoadingState(p: PanelState, loading: bool): (q: PanelState)
    ensures q.spinnerVisible == loading && q.cancelVisible == loading
    ensures q.rewriteEnabled == p.rewriteEnabled
  {
    p.(spinnerVisible := loading, cancelVisible := loading)
  }

  /** `setRewriteEnabled(enabled)`: changes only the Rewrite button. */
  function SetRewriteEnabled(p: PanelState, enabled: bool): (q: PanelState)
    ensures q.rewriteEnabled == enabled
    ensures q.spinnerVisible == p.spinnerVisible && q.cancelVisible == p.cancelVisible
  {
    p.(rewriteEnabled := enabled)
  }

  /** The state every accepted request moves the panel to: loading shown,
      Rewrite disabled. */
  const Busy: PanelState := PanelState(true, true, false)
}
