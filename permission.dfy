/**
  The camera-permission decisions of MainActivity: the startup request
  (checkCameraPermission), the scan button (onButtonClick) and the answer to
  a permission request (onRequestPermissionsResult). The permission itself
  belongs to the operating system; each decision receives the value that
  ContextCompat.checkSelfPermission or the request callback delivers.
*/
module Permission {
  import opened Wrappers

  const CameraPermissionRequestCode: int := 100

  /** PackageManager.PERMISSION_GRANTED. */
  const PermissionGranted: int := 0

  const PermissionRequiredText: string := "Camera permission is required to scan QR codes"
  const GrantedText: string := "Camera permission granted"
  const DeniedText: string := "Camera permission denied"

  /** The options handed to the scanner library (zxing-android-embedded). */
  datatype ScanOptions = ScanOptions(
    desiredFormats: seq<string>,
    prompt: string,
    cameraId: int,
    beepEnabled: bool,
    barcodeImageEnabled: bool)

  /** What a press of the scan button does. */
  datatype ButtonOutcome =
    | LaunchScanner(options: ScanOptions)
    | PermissionRequired  // the "permission is required" toast, no scanner
  {
    /** The toast this press shows, if any. */
    function Toast(): Option<string> {
      if PermissionRequired? then Some(PermissionRequiredText) else None
    }
  }

  /** Whether the activity asks for the camera permission at startup, and with
      which request code. */
  function StartupRequest(cameraPermission: int): (requestCode: Option<int>)
    ensures requestCode.Some? <==> cameraPermission != PermissionGranted
    ensures requestCode.Some? ==> requestCode.value == CameraPermissionRequestCode
  {
    if cameraPermission != PermissionGranted then Some(CameraPermissionRequestCode) else None
  }

  /** The scan button: the scanner is launched, with the fixed QR-only options,
      exactly when the camera permission is currently granted. */
  function ButtonClick(cameraPermission: int): (r: ButtonOutcome)
    ensures r.LaunchScanner? <==> cameraPermission == PermissionGranted
    ensures r.LaunchScanner? ==>
      && r.options.desiredFormats == ["QR_CODE"]
      && r.options.prompt == "Scan a QR code"
      && r.options.cameraId == 0
      && r.options.beepEnabled
      && !r.options.barcodeImageEnabled
  {
    if cameraPermission == PermissionGranted then
      LaunchScanner(ScanOptions(["QR_CODE"], "Scan a QR code", 0, true, false))
    else
      PermissionRequired
  }

  /** The answer to a permission request: the toast it shows, or None when the
      request code is not the camera request's and the answer is ignored. */
  function RequestResult(requestCode: int, grantResults: seq<int>): (toast: Option<string>)
    ensures toast.None? <==> requestCode != CameraPermissionRequestCode
    ensures toast == Some(GrantedText) <==>
      requestCode == CameraPermissionRequestCode && |grantResults| > 0 && grantResults[0] == PermissionGranted
    ensures toast.Some? ==> toast.value == GrantedText || toast.value == DeniedText
  {
    if requestCode == CameraPermissionRequestCode then
      if |grantResults| > 0 && grantResults[0] == PermissionGranted then Some(GrantedText)
      else Some(DeniedText)
    else
      None
  }

  /** Only the first entry of the result array decides: entries after it are
      never looked at. */
  lemma OnlyFirstResultCounts(requestCode: int, grantResults: seq<int>, others: seq<int>)
    requires |grantResults| > 0
    ensures RequestResult(requestCode, grantResults) == RequestResult(requestCode, grantResults[..1] + others)
  {
  }

  /** The request made at startup is one whose answer is acted on. */
  lemma StartupRequestIsAnswered(cameraPermission: int, grantResults: seq<int>)
    requires StartupRequest(cameraPermission).Some?
    ensures RequestResult(StartupRequest(cameraPermission).value, grantResults).Some?
  {
  }

  /** Startup and the scan button test the permission the same way: when no
      request is made the button launches the scanner, and vice versa. */
  lemma StartupAndButtonAgree(cameraPermission: int)
    ensures StartupRequest(cameraPermission).None? <==> ButtonClick(cameraPermission).LaunchScanner?
  {
  }
}
