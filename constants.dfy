/** Shared constants of the application. */
module Constants {

  /**
   * What a status update does to the run button: disable it, release (enable) it,
   * or leave it as it is (`DISABLE`, `RELEASE` and `NONE` in the source).
   */
  datatype ButtonState = Disable | Release | NoChange
}
