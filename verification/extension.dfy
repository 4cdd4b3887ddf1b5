/** The `View.gone()` and `View.show()` extension helpers on a view's visibility. */
module Extension {

  /** Android's three view visibilities: `VISIBLE`, `INVISIBLE` and `GONE`. */
  datatype Visibility = Visible | Invisible | Gone

  /**
   * `View.gone()`: a visible view becomes `GONE`; a view that is already not
   * visible keeps its visibility, so `INVISIBLE` is never turned into `GONE`.
   */
  function ApplyGone(v: Visibility): (r: Visibility)
    ensures r != Visible
    ensures v == Visible ==> r == Gone
    ensures v != Visible ==> r == v
  {
    if v == Visible then Gone else v
  }

  /** `View.show()`: unconditionally `VISIBLE`. */
  function ApplyShow(v: Visibility): (r: Visibility)
    ensures r == Visible
  {
    Visible
  }

  /**
   * How the two helpers compose: `gone` changes exactly the visible value,
   * each is idempotent, `show` wins after `gone`, and `gone` after `show`
   * always lands on `GONE`.
   */
  lemma GoneShowLaws(v: Visibility)
    ensures ApplyGone(v) == v <==> v != Visible
    ensures ApplyGone(ApplyGone(v)) == ApplyGone(v)
    ensures ApplyShow(ApplyShow(v)) == ApplyShow(v)
    ensures ApplyShow(ApplyGone(v)) == Visible
    ensures ApplyGone(ApplyShow(v)) == Gone
  {
  }
}
