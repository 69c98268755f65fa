/**
  The scanner hook: one scan goes through the permission request, the
  picker and the extraction stub, with an early return on each failure and a
  catch-all error, and keeps the `isScanning` and `extractedInfo` state.
 */
module IDScanner {
  import opened IDTypes

  /** The two scan entry points: the camera and the photo gallery. */
  datatype Source = Camera | Gallery

  /** What the permission request does: grant, refuse, or throw. */
  datatype Permission = Granted | NotGranted | PermissionThrows

  /** What the picker does: the user cancels, picks (with the asset list the picker
      returns), or the picker throws. */
  datatype Picker = Cancelled | Picked(assets: seq<string>) | PickerThrows

  /** The device, as oracle inputs for one scan. */
  datatype Device = Device(permission: Permission, picker: Picker)

  /** A call into the platform or into the extraction stage; `PermissionAlert` is the hook's
      own alert, with its title and text, shown when permission is refused. */
  datatype PlatformCall =
    | RequestPermission(source: Source)
    | PermissionAlert(title: string, text: string)
    | LaunchPicker(source: Source)
    | Extract(imageUri: string)

  function PermissionDeniedMessage(src: Source): string {
    match src
    case Camera => "Permission caméra refusée"
    case Gallery => "Permission galerie refusée"
  }

  const PermissionAlertTitle := "Permission requise"

  /** The text of the hook's own alert on a refused permission. */
  function PermissionAlertText(src: Source): string {
    match src
    case Camera => "L'accès à la caméra est nécessaire pour scanner la pièce d'identité."
    case Gallery => "L'accès à la galerie est nécessaire pour sélectionner une image."
  }

  function CancelledMessage(src: Source): string {
    match src
    case Camera => "Scan annulé"
    case Gallery => "Sélection annulée"
  }

  function ScanErrorMessage(src: Source): string {
    match src
    case Camera => "Erreur lors du scan"
    case Gallery => "Erreur lors de la sélection"
  }

  /** The extraction stub: the same record whatever the image, every field filled in. */
  function ExtractInfoFromImage(imageUri: string): (info: Info)
    ensures info.nom != "" && info.prenom != "" && info.dateNaissance != ""
    ensures Truthy(info.numeroDocument) && Truthy(info.dateExpiration)
  {
    Info("MARTIN", "Jean-Pierre", "15/03/1985", Some("123456789"), Some("15/03/2030"))
  }

  /** The stub does not look at the image. */
  lemma ExtractionIgnoresImage(a: string, b: string)
    ensures ExtractInfoFromImage(a) == ExtractInfoFromImage(b)
  {
  }

  function Failure(message: string): ScanResult {
    ScanResult(false, None, Some(message), None)
  }

  /** The picker returned an image, so the scan goes on to extraction. */
  predicate ReachesExtraction(device: Device) {
    device.permission == Granted && device.picker.Picked? && |device.picker.assets| > 0
  }

  /** Permission was granted and the user then cancelled the picker. */
  predicate PickerCancelled(device: Device) {
    device.permission == Granted && device.picker == Cancelled
  }

  /** The result of one scan from `src`. Refused permission and a cancelled picker give their
      own messages; a throwing call, or a picked result with no asset (reading the first
      asset's URI throws), gives the source's generic scan error; otherwise success with the
      extracted record and the first asset's URI. Successes carry data, failures never do. */
  function ScanOutcome(src: Source, device: Device): (r: ScanResult)
    ensures r.success <==> ReachesExtraction(device)
    ensures r.success ==> (&& r.data == Some(ExtractInfoFromImage(device.picker.assets[0]))
                           && r.imageUri == Some(device.picker.assets[0])
                           && r.error == None)
    ensures !r.success ==> r.data == None && r.imageUri == None && r.error.Some?
    ensures device.permission == NotGranted ==> r.error == Some(PermissionDeniedMessage(src))
    ensures PickerCancelled(device) ==> r.error == Some(CancelledMessage(src))
    ensures device.permission == PermissionThrows ==> r.error == Some(ScanErrorMessage(src))
    ensures device.permission == Granted && device.picker != Cancelled && !r.success
            ==> r.error == Some(ScanErrorMessage(src))
  {
    match device.permission
    case PermissionThrows => Failure(ScanErrorMessage(src))
    case NotGranted => Failure(PermissionDeniedMessage(src))
    case Granted =>
      match device.picker
      case PickerThrows => Failure(ScanErrorMessage(src))
      case Cancelled => Failure(CancelledMessage(src))
      case Picked(assets) =>
        if |assets| == 0 then Failure(ScanErrorMessage(src))
        else ScanResult(true, Some(ExtractInfoFromImage(assets[0])), None, Some(assets[0]))
  }

  /** The calls of one scan: the permission request; the hook's alert exactly when permission
      is refused; the picker only once permission is granted; the extraction, of the first
      picked image, only once an image was picked. Each call is made at most once, in that
      order. */
  function ScanCalls(src: Source, device: Device): (cs: seq<PlatformCall>)
    ensures |cs| >= 1 && cs[0] == RequestPermission(src)
    ensures PermissionAlert(PermissionAlertTitle, PermissionAlertText(src)) in cs <==> device.permission == NotGranted
    ensures LaunchPicker(src) in cs <==> device.permission == Granted
    ensures (exists u :: Extract(u) in cs) <==> ReachesExtraction(device)
    ensures device.permission == PermissionThrows ==> cs == [RequestPermission(src)]
    ensures device.permission == NotGranted
            ==> cs == [RequestPermission(src), PermissionAlert(PermissionAlertTitle, PermissionAlertText(src))]
    ensures device.permission == Granted && !ReachesExtraction(device)
            ==> cs == [RequestPermission(src), LaunchPicker(src)]
    ensures ReachesExtraction(device)
            ==> cs == [RequestPermission(src), LaunchPicker(src), Extract(device.picker.assets[0])]
  {
    if device.permission == PermissionThrows then [RequestPermission(src)]
    else if device.permission == NotGranted then
      [RequestPermission(src), PermissionAlert(PermissionAlertTitle, PermissionAlertText(src))]
    else if !ReachesExtraction(device) then [RequestPermission(src), LaunchPicker(src)]
    else
      var cs := [RequestPermission(src), LaunchPicker(src), Extract(device.picker.assets[0])];
      assert Extract(device.picker.assets[0]) in cs;
      cs
  }

  /** A failed scan leaves the extracted record as it was; a successful one stores exactly
      the record it returns. */
  function StoredInfo(old_info: Option<Info>, r: ScanResult): (stored: Option<Info>)
    ensures !r.success ==> stored == old_info
    ensures r.success ==> stored == r.data
  {
    if r.success then r.data else old_info
  }

  /** The scanner hook's state: the `isScanning` flag and the last extracted record, plus the
      log of platform calls. */
  class Scanner {
    var isScanning: bool
    var extractedInfo: Option<Info>
    var calls: seq<PlatformCall>

    constructor ()
      ensures !isScanning && extractedInfo == None && calls == []
    {
      isScanning := false;
      extractedInfo := None;
      calls := [];
    }

    /** The `try`/`catch` body of a scan, with its early returns. */
    method Attempt(src: Source, device: Device) returns (r: ScanResult)
      modifies this`extractedInfo, this`calls
      ensures r == ScanOutcome(src, device)
      ensures extractedInfo == StoredInfo(old(extractedInfo), r)
      ensures calls == old(calls) + ScanCalls(src, device)
    {
      ghost var before := calls;
      calls := calls + [RequestPermission(src)];
      if device.permission == PermissionThrows {
        return Failure(ScanErrorMessage(src));
      }
      if device.permission != Granted {
        var alert := PermissionAlert(PermissionAlertTitle, PermissionAlertText(src));
        calls := calls + [alert];
        assert calls == before + [RequestPermission(src), alert];
        return Failure(PermissionDeniedMessage(src));
      }
      calls := calls + [LaunchPicker(src)];
      assert calls == before + [RequestPermission(src), LaunchPicker(src)];
      if device.picker == PickerThrows {
        return Failure(ScanErrorMessage(src));
      }
      if device.picker == Cancelled {
        return Failure(CancelledMessage(src));
      }
      if |device.picker.assets| == 0 {
        return Failure(ScanErrorMessage(src));
      }
      var imageUri := device.picker.assets[0];
      calls := calls + [Extract(imageUri)];
      assert calls == before + [RequestPermission(src), LaunchPicker(src), Extract(imageUri)];
      var extractedData := ExtractInfoFromImage(imageUri);
      extractedInfo := Some(extractedData);
      return ScanResult(true, Some(extractedData), None, Some(imageUri));
    }

    /** `scanFromCamera`: `isScanning` is true for the call and false again when it returns,
        on every path. */
    method ScanFromCamera(device: Device) returns (r: ScanResult)
      modifies this
      ensures !isScanning
      ensures r == ScanOutcome(Camera, device)
      ensures extractedInfo == StoredInfo(old(extractedInfo), r)
      ensures calls == old(calls) + ScanCalls(Camera, device)
    {
      isScanning := true;
      r := Attempt(Camera, device);
      isScanning := false;
    }

    /** `scanFromGallery`: as `ScanFromCamera`, with the gallery's permission, picker and messages. */
    method ScanFromGallery(device: Device) returns (r: ScanResult)
      modifies this
      ensures !isScanning
      ensures r == ScanOutcome(Gallery, device)
      ensures extractedInfo == StoredInfo(old(extractedInfo), r)
      ensures calls == old(calls) + ScanCalls(Gallery, device)
    {
      isScanning := true;
      r := Attempt(Gallery, device);
      isScanning := false;
    }

    /** `clearExtractedInfo`: forget the record; the busy flag and the calls are untouched. */
    method ClearExtractedInfo()
      modifies this`extractedInfo
      ensures extractedInfo == None
    {
      extractedInfo := None;
    }
  }
}
