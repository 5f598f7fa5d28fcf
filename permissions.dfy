/**
 * What the activity does with the answer to its camera permission request.
 */
module Permissions {

  /** The request code the activity asks for the camera permission with. */
  const CameraPermissionRequest := 200
  /** Android's `PackageManager.PERMISSION_GRANTED`. */
  const PermissionGranted := 0
  /** Android's `PackageManager.PERMISSION_DENIED`. */
  const PermissionDenied := -1

  /** The three reactions to a permission result. */
  datatype Outcome =
    | EnableCamera  // grant the camera view its permission and enable it
    | Finish        // tell the user the camera is required, then finish the activity
    | Ignore        // a result for some other request: nothing happens

  /** Whether the first (and only requested) permission of a result was granted. */
  predicate FirstGranted(grantResults: seq<int>)
  {
    |grantResults| > 0 && grantResults[0] == PermissionGranted
  }

  /**
   * `onRequestPermissionsResult`: the camera is enabled only for the camera
   * request code with a non-empty result whose first entry is granted; any
   * other result for that code finishes the activity (an empty result, as
   * when the request is cancelled, included); other codes are ignored.
   */
  function OnRequestPermissionsResult(requestCode: int, grantResults: seq<int>): (o: Outcome)
    ensures o == EnableCamera <==>
      requestCode == CameraPermissionRequest && |grantResults| > 0 && grantResults[0] == PermissionGranted
    ensures o == Finish <==>
      requestCode == CameraPermissionRequest && (grantResults == [] || grantResults[0] != PermissionGranted)
    ensures o == Ignore <==> requestCode != CameraPermissionRequest
  {
    if requestCode == CameraPermissionRequest then
      if FirstGranted(grantResults) then EnableCamera else Finish
    else
      Ignore
  }

  /** Only the first entry of the result decides; later entries never matter. */
  lemma OnlyFirstResultMatters(requestCode: int, g: seq<int>, h: seq<int>)
    requires |g| > 0 && |h| > 0 && g[0] == h[0]
    ensures OnRequestPermissionsResult(requestCode, g) == OnRequestPermissionsResult(requestCode, h)
  {
  }

  /** An explicit denial of the camera request finishes the activity. */
  lemma DenialFinishes(grantResults: seq<int>)
    requires |grantResults| > 0 && grantResults[0] == PermissionDenied
    ensures OnRequestPermissionsResult(CameraPermissionRequest, grantResults) == Finish
  {
  }
}
