/**
 * Two small decisions `MainActivity` makes about a returned image: how far to
 * rotate a gallery picture from its EXIF orientation tag, and which handler
 * an `onActivityResult` call is routed to.
 */
module ActivityResults {
  import opened Options
  import opened Media

  // EXIF orientation tag values (TIFF/EXIF `Orientation`, tag 0x0112).
  const ORIENTATION_NORMAL: int := 1
  const ORIENTATION_ROTATE_180: int := 3
  const ORIENTATION_ROTATE_90: int := 6
  const ORIENTATION_ROTATE_270: int := 8

  /** `getAttributeInt(TAG_ORIENTATION, ORIENTATION_NORMAL)`: the stored tag, or `NORMAL` when there is none. */
  function OrientationTag(stored: Option<int>): (tag: int)
  {
    stored.GetOr(ORIENTATION_NORMAL)
  }

  /** The clockwise rotation, in degrees, that undoes an EXIF orientation. */
  function RotationDegrees(orientation: int): (d: int)
    ensures d in {0, 90, 180, 270}
    ensures d == 90 <==> orientation == ORIENTATION_ROTATE_90
    ensures d == 180 <==> orientation == ORIENTATION_ROTATE_180
    ensures d == 270 <==> orientation == ORIENTATION_ROTATE_270
  {
    if orientation == ORIENTATION_ROTATE_90 then 90
    else if orientation == ORIENTATION_ROTATE_180 then 180
    else if orientation == ORIENTATION_ROTATE_270 then 270
    else 0
  }

  /**
   * The rotation applied to a gallery image: a missing tag, `NORMAL`, and every
   * value other than the three rotations (flips and transposes included) give 0.
   */
  lemma RotationOfStoredTag(stored: Option<int>)
    ensures stored.None? ==> RotationDegrees(OrientationTag(stored)) == 0
    ensures RotationDegrees(OrientationTag(stored)) == 0 <==>
      OrientationTag(stored) !in {ORIENTATION_ROTATE_90, ORIENTATION_ROTATE_180, ORIENTATION_ROTATE_270}
    ensures RotationDegrees(ORIENTATION_NORMAL) == 0
  {
  }

  const REQUEST_CODE_SELECT_IMAGE: int := 100
  const REQUEST_CODE_IMAGE_CAPTURE: int := 200

  /** `Activity.RESULT_OK`. */
  const RESULT_OK: int := -1

  /** What `extras.get("data")` holds: nothing, a bitmap, or some other object. */
  datatype Extra = NoExtra | BitmapExtra(bitmap: Bitmap) | OtherExtra

  /** The returned `Intent`: its data URI and its `"data"` extra. */
  datatype ResultIntent = ResultIntent(data: Option<Uri>, extra: Extra)

  /** What `onActivityResult` goes on to do. */
  datatype Route =
    | HandleSelectedImage(uri: Uri)
    | HandleCapturedImage(bitmap: Bitmap)
    | NoAction
    | CastFailure  // the unchecked `as Bitmap` cast throws

  /** The `"data"` extra of a possibly-null intent. */
  function ExtraOf(intent: Option<ResultIntent>): (e: Extra)
  {
    if intent.Some? then intent.value.extra else NoExtra
  }

  /**
   * `onActivityResult` as written. The camera branch casts the extra with
   * `as Bitmap`, which throws when the intent, its extras or the entry is
   * null, or when the entry is not a bitmap.
   */
  function RouteAsWritten(requestCode: int, resultCode: int, intent: Option<ResultIntent>): (r: Route)
    ensures r.HandleSelectedImage? <==>
      requestCode == REQUEST_CODE_SELECT_IMAGE && resultCode == RESULT_OK
      && intent.Some? && intent.value.data.Some?
    ensures r.HandleSelectedImage? ==> r.uri == intent.value.data.value
    ensures r.CastFailure? <==>
      requestCode == REQUEST_CODE_IMAGE_CAPTURE && resultCode == RESULT_OK && !ExtraOf(intent).BitmapExtra?
  {
    if requestCode == REQUEST_CODE_SELECT_IMAGE && resultCode == RESULT_OK then
      if intent.Some? && intent.value.data.Some? then HandleSelectedImage(intent.value.data.value)
      else NoAction
    else if requestCode == REQUEST_CODE_IMAGE_CAPTURE && resultCode == RESULT_OK then
      match ExtraOf(intent)
      case BitmapExtra(b) => HandleCapturedImage(b)
      case _ => CastFailure
    else NoAction
  }

  /** A camera result returned without a thumbnail bitmap makes the as-written routing throw. */
  lemma CameraResultWithoutBitmapThrows()
    ensures RouteAsWritten(REQUEST_CODE_IMAGE_CAPTURE, RESULT_OK, None) == CastFailure
    ensures RouteAsWritten(REQUEST_CODE_IMAGE_CAPTURE, RESULT_OK, Some(ResultIntent(None, NoExtra))) == CastFailure
  {
  }

  /**
   * `onActivityResult` with the camera extra read by a safe cast, as the
   * surrounding null-safe calls intend: a gallery pick with a URI is handled,
   * a camera shot with a bitmap is handled, and everything else, including a
   * camera result without a bitmap, is ignored.
   */
  function RouteResult(requestCode: int, resultCode: int, intent: Option<ResultIntent>): (r: Route)
    ensures !r.CastFailure?
    ensures r.HandleSelectedImage? <==>
      requestCode == REQUEST_CODE_SELECT_IMAGE && resultCode == RESULT_OK
      && intent.Some? && intent.value.data.Some?
    ensures r.HandleSelectedImage? ==> r.uri == intent.value.data.value
    ensures r.HandleCapturedImage? <==>
      requestCode == REQUEST_CODE_IMAGE_CAPTURE && resultCode == RESULT_OK && ExtraOf(intent).BitmapExtra?
    ensures r.HandleCapturedImage? ==> r.bitmap == ExtraOf(intent).bitmap
    ensures resultCode != RESULT_OK ==> r == NoAction
  {
    if requestCode == REQUEST_CODE_SELECT_IMAGE && resultCode == RESULT_OK then
      if intent.Some? && intent.value.data.Some? then HandleSelectedImage(intent.value.data.value)
      else NoAction
    else if requestCode == REQUEST_CODE_IMAGE_CAPTURE && resultCode == RESULT_OK then
      match ExtraOf(intent)
      case BitmapExtra(b) => HandleCapturedImage(b)
      case _ => NoAction
    else NoAction
  }

  /** The corrected routing agrees with the as-written one wherever the latter does not throw. */
  lemma RoutingAgreesUnlessCastFails(requestCode: int, resultCode: int, intent: Option<ResultIntent>)
    ensures RouteAsWritten(requestCode, resultCode, intent).CastFailure?
      || RouteResult(requestCode, resultCode, intent) == RouteAsWritten(requestCode, resultCode, intent)
    ensures RouteAsWritten(requestCode, resultCode, intent).CastFailure?
      ==> RouteResult(requestCode, resultCode, intent) == NoAction
  {
  }
}
