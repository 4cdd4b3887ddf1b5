/** `MainActivity.updateUI`: how each published state is rendered onto the screen's widgets. */
module Screen {
  import opened Options
  import opened Media
  import opened UiStates
  import opened Extension

  /** What the result text view shows: one of two string resources, or a literal string. */
  datatype Text = ScanResultPlaceholder | AnalyzingPlaceholder | Literal(s: string)

  /** The widgets `updateUI` touches. */
  datatype Widgets = Widgets(
    resultText: Text,
    progressBar: Visibility,
    doneButton: Visibility,
    scanButton: Visibility,
    retakeButton: Visibility,
    imageButton: Visibility,
    scanEnabled: bool,
    preview: Option<Bitmap>)

  /** The widgets whose visibility the screen controls. */
  datatype WidgetId = ProgressBar | DoneButton | ScanButton | RetakeButton | ImageButton

  /** The widgets currently `VISIBLE`. */
  function VisibleWidgets(w: Widgets): (visible: set<WidgetId>)
  {
    (if w.progressBar == Visible then {ProgressBar} else {})
    + (if w.doneButton == Visible then {DoneButton} else {})
    + (if w.scanButton == Visible then {ScanButton} else {})
    + (if w.retakeButton == Visible then {RetakeButton} else {})
    + (if w.imageButton == Visible then {ImageButton} else {})
  }

  /** `after` is what `gone()` leaves of `before`: a visible widget becomes `GONE`, a hidden one is untouched. */
  predicate HiddenFrom(before: Visibility, after: Visibility)
  {
    (before == Visible ==> after == Gone) && (before != Visible ==> after == before)
  }

  /**
   * `updateUI(state)`. The source's `when` has no branch for `Captured`, so
   * that state is outside this function's domain.
   */
  function UpdateUI(state: UiState, w: Widgets): (r: Widgets)
    requires !state.Captured?
    // Initial: scan and image buttons shown, everything else hidden, scan
    // disabled, preview cleared, placeholder text.
    ensures state.Initial? ==>
      && r.resultText == ScanResultPlaceholder
      && r.scanButton == Visible && r.imageButton == Visible
      && HiddenFrom(w.progressBar, r.progressBar)
      && HiddenFrom(w.doneButton, r.doneButton)
      && HiddenFrom(w.retakeButton, r.retakeButton)
      && !r.scanEnabled && r.preview.None?
    // Loading: progress shown, the three buttons hidden, "analyzing" text;
    // image button, enabled flag and preview untouched.
    ensures state.Loading? ==>
      && r.resultText == AnalyzingPlaceholder
      && r.progressBar == Visible
      && HiddenFrom(w.scanButton, r.scanButton)
      && HiddenFrom(w.retakeButton, r.retakeButton)
      && HiddenFrom(w.doneButton, r.doneButton)
      && r.imageButton == w.imageButton && r.scanEnabled == w.scanEnabled && r.preview == w.preview
    // Success and Error: the payload is shown, retake and done shown,
    // progress and scan hidden; image button, enabled flag and preview untouched.
    ensures state.IsTerminal() ==>
      && r.resultText == Literal(if state.Success? then state.outputText else state.errorMessage)
      && r.retakeButton == Visible && r.doneButton == Visible
      && HiddenFrom(w.progressBar, r.progressBar)
      && HiddenFrom(w.scanButton, r.scanButton)
      && r.imageButton == w.imageButton && r.scanEnabled == w.scanEnabled && r.preview == w.preview
  {
    match state
    case Initial =>
      w.(resultText := ScanResultPlaceholder,
         progressBar := ApplyGone(w.progressBar),
         doneButton := ApplyGone(w.doneButton),
         scanButton := ApplyShow(w.scanButton),
         retakeButton := ApplyGone(w.retakeButton),
         imageButton := ApplyShow(w.imageButton),
         preview := None,
         scanEnabled := false)
    case Loading =>
      w.(resultText := AnalyzingPlaceholder,
         progressBar := ApplyShow(w.progressBar),
         scanButton := ApplyGone(w.scanButton),
         retakeButton := ApplyGone(w.retakeButton),
         doneButton := ApplyGone(w.doneButton))
    case Success(outputText) =>
      w.(resultText := Literal(outputText),
         retakeButton := ApplyShow(w.retakeButton),
         doneButton := ApplyShow(w.doneButton),
         progressBar := ApplyGone(w.progressBar),
         scanButton := ApplyGone(w.scanButton))
    case Error(errorMessage) =>
      w.(resultText := Literal(errorMessage),
         retakeButton := ApplyShow(w.retakeButton),
         doneButton := ApplyShow(w.doneButton),
         progressBar := ApplyGone(w.progressBar),
         scanButton := ApplyGone(w.scanButton))
  }

  /**
   * Which widgets are visible after rendering: exactly scan and image for
   * `Initial`; the progress bar for `Loading`; retake and done for a resting
   * state; plus, for the last two, the image button if it already was visible.
   */
  lemma VisibleAfterUpdate(state: UiState, w: Widgets)
    requires !state.Captured?
    ensures state.Initial? ==> VisibleWidgets(UpdateUI(state, w)) == {ScanButton, ImageButton}
    ensures state.Loading? ==>
      VisibleWidgets(UpdateUI(state, w)) == {ProgressBar} + (if w.imageButton == Visible then {ImageButton} else {})
    ensures state.IsTerminal() ==>
      VisibleWidgets(UpdateUI(state, w))
        == {RetakeButton, DoneButton} + (if w.imageButton == Visible then {ImageButton} else {})
  {
  }

  /** Rendering the same state twice changes nothing the first render did not. */
  lemma UpdateUIIdempotent(state: UiState, w: Widgets)
    requires !state.Captured?
    ensures UpdateUI(state, UpdateUI(state, w)) == UpdateUI(state, w)
  {
  }

  /**
   * A scan rendered from the `Initial` screen: while `Loading` the image button
   * stays visible and the scan button is hidden; once the run ends, the
   * progress bar and scan button are hidden, and retake, done and the image
   * button are the visible widgets. `updateUI` only shows the scan button
   * again on an `Initial` render, and then disabled.
   */
  lemma ScanRenderedFromInitial(w: Widgets, terminal: UiState)
    requires terminal.IsTerminal()
    ensures var w0 := UpdateUI(Initial, w);
            var w1 := UpdateUI(Loading, w0);
            var w2 := UpdateUI(terminal, w1);
            && w1.imageButton == Visible && w1.scanButton != Visible
            && VisibleWidgets(w2) == {RetakeButton, DoneButton, ImageButton}
            && !w2.scanEnabled
  {
    VisibleAfterUpdate(Initial, w);
    VisibleAfterUpdate(Loading, UpdateUI(Initial, w));
    VisibleAfterUpdate(terminal, UpdateUI(Loading, UpdateUI(Initial, w)));
  }
}
