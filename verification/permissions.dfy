/** The runtime permissions the camera path needs, and how a permission request's result is read. */
module Permissions {

  const CAMERA: string := "android.permission.CAMERA"
  const READ_EXTERNAL_STORAGE: string := "android.permission.READ_EXTERNAL_STORAGE"

  /** `Build.VERSION_CODES.P`, Android 9 (API level 28). */
  const SDK_P: int := 28

  /**
   * `REQUIRED_PERMISSIONS` on a device running API level `sdkInt`: the camera
   * always, and storage reading only up to Android 9.
   */
  function RequiredPermissions(sdkInt: int): (r: seq<string>)
    ensures |r| > 0 && r[0] == CAMERA
    ensures READ_EXTERNAL_STORAGE in r <==> sdkInt <= SDK_P
    ensures forall i :: 0 <= i < |r| ==> r[i] == CAMERA || r[i] == READ_EXTERNAL_STORAGE
    ensures forall i, j :: 0 <= i < j < |r| ==> r[i] != r[j]
  {
    [CAMERA] + (if sdkInt <= SDK_P then [READ_EXTERNAL_STORAGE] else [])
  }

  /** One entry of the `Map<String, Boolean>` a permission request reports. */
  datatype Entry = Entry(key: string, value: bool)

  /** An entry that refuses one of the required permissions. */
  predicate Denies(e: Entry, required: seq<string>)
  {
    e.key in required && !e.value
  }

  /** No entry refuses a required permission; required permissions missing from the result do not count. */
  predicate NoneDenied(entries: seq<Entry>, required: seq<string>)
  {
    forall i :: 0 <= i < |entries| ==> !Denies(entries[i], required)
  }

  /**
   * The `forEach` fold over the result's entries, from the flag's value
   * `granted` before `entries`: an entry can only clear the flag.
   */
  function FoldGranted(granted: bool, entries: seq<Entry>, required: seq<string>): (r: bool)
    ensures r <==> granted && NoneDenied(entries, required)
    decreases |entries|
  {
    if |entries| == 0 then granted
    else FoldGranted(granted && !Denies(entries[0], required), entries[1..], required)
  }

  /**
   * The permission callback's loop: `permissionGranted` starts `true` and is
   * cleared by any entry whose key is required and whose value is `false`.
   */
  method PermissionGranted(entries: seq<Entry>, required: seq<string>) returns (granted: bool)
    ensures granted <==> NoneDenied(entries, required)
  {
    granted := true;
    var i := 0;
    while i < |entries|
      invariant 0 <= i <= |entries|
      invariant granted <==> NoneDenied(entries[..i], required)
    {
      if entries[i].key in required && !entries[i].value {
        granted := false;
      }
      assert entries[..i + 1] == entries[..i] + [entries[i]];
      i := i + 1;
    }
    assert entries[..i] == entries;
  }

  /** What the permission callback does next. */
  datatype PermissionAction = OpenCamera | ShowPermissionDenied

  function OnPermissionsResult(entries: seq<Entry>, sdkInt: int): (a: PermissionAction)
    ensures a == OpenCamera <==> NoneDenied(entries, RequiredPermissions(sdkInt))
  {
    if FoldGranted(true, entries, RequiredPermissions(sdkInt)) then OpenCamera else ShowPermissionDenied
  }

  /**
   * The decision depends only on which entries are present, not on the order
   * the map hands them out; refusals of permissions that are not required are
   * ignored; and an empty result opens the camera.
   */
  lemma PermissionResultLaws(entries: seq<Entry>, other: seq<Entry>, sdkInt: int)
    requires forall e :: e in entries <==> e in other
    ensures OnPermissionsResult(entries, sdkInt) == OnPermissionsResult(other, sdkInt)
    ensures OnPermissionsResult([], sdkInt) == OpenCamera
    ensures sdkInt > SDK_P ==>
      OnPermissionsResult([Entry(READ_EXTERNAL_STORAGE, false)], sdkInt) == OpenCamera
    ensures OnPermissionsResult([Entry(CAMERA, false)], sdkInt) == ShowPermissionDenied
  {
    var req := RequiredPermissions(sdkInt);
    assert NoneDenied(entries, req) <==> forall e :: e in entries ==> !Denies(e, req);
    assert NoneDenied(other, req) <==> forall e :: e in other ==> !Denies(e, req);
  }
}
