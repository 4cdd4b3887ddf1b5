/** Handles for the images the app passes around: content URIs and decoded bitmaps. */
module Media {

  /** An `android.net.Uri`, represented by its string form. */
  datatype Uri = Uri(text: string)

  /** A decoded `android.graphics.Bitmap`. Pixels are not modelled: a bitmap is an opaque handle. */
  datatype Bitmap = Decoded(id: nat)

  /**
   * `String.toUri()`: `Uri.parse` keeps the string it was given, so two paths
   * give equal URIs exactly when the paths are equal.
   */
  function ToUri(path: string): (u: Uri)
    ensures u.text == path
  {
    Uri(path)
  }
}
