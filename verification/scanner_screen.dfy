/**
  The scanner screen's handlers: they turn a scan result into either a
  navigation to the results screen, with the record as route parameters, or
  an error alert, and keep silent on a cancelled picker.
 */
module ScannerScreen {
  import opened IDTypes
  import IDScanner

  /** What a handler does once the scan has returned. */
  datatype Action = NavigateToResults(params: Params) | ShowAlert(title: string, message: string) | NoAction

  /** The parameters passed to `/results`: the mandatory fields verbatim, and the empty
      string for an absent optional field or image URI. */
  function ResultParams(data: Info, imageUri: Option<string>): (p: Params)
    ensures p.Keys == {"nom", "prenom", "dateNaissance", "numeroDocument", "dateExpiration", "imageUri"}
    ensures p["nom"] == data.nom && p["prenom"] == data.prenom && p["dateNaissance"] == data.dateNaissance
    ensures p["numeroDocument"] == (if data.numeroDocument.Some? then data.numeroDocument.value else "")
    ensures p["dateExpiration"] == (if data.dateExpiration.Some? then data.dateExpiration.value else "")
    ensures p["imageUri"] == (if imageUri.Some? then imageUri.value else "")
  {
    map[
      "nom" := data.nom,
      "prenom" := data.prenom,
      "dateNaissance" := data.dateNaissance,
      "numeroDocument" := OrEmpty(data.numeroDocument),
      "dateExpiration" := OrEmpty(data.dateExpiration),
      "imageUri" := OrEmpty(imageUri)]
  }

  /** The shared body of both handlers: navigate on a success that carries data; otherwise
      alert with the error, unless there is none or it is the source's cancellation message. */
  function HandleScan(src: IDScanner.Source, r: ScanResult): (a: Action)
    ensures a.NavigateToResults? <==> r.success && r.data.Some?
    ensures a.NavigateToResults? ==> a.params == ResultParams(r.data.value, r.imageUri)
    ensures a.ShowAlert? <==> (!(r.success && r.data.Some?) && Truthy(r.error)
                               && r.error.value != IDScanner.CancelledMessage(src))
    ensures a.ShowAlert? ==> a == ShowAlert("Erreur", r.error.value)
  {
    if r.success && r.data.Some? then NavigateToResults(ResultParams(r.data.value, r.imageUri))
    else if Truthy(r.error) && r.error.value != IDScanner.CancelledMessage(src) then ShowAlert("Erreur", r.error.value)
    else NoAction
  }

  /** `handleCameraScan`: "Scan annulé" is the message it keeps silent about. */
  function HandleCameraScan(r: ScanResult): (a: Action)
    ensures r.error == Some("Scan annulé") && !r.success ==> a == NoAction
    ensures !r.success && r.error == Some("Sélection annulée") ==> a == ShowAlert("Erreur", "Sélection annulée")
  {
    HandleScan(IDScanner.Camera, r)
  }

  /** `handleGalleryScan`: "Sélection annulée" is the message it keeps silent about. */
  function HandleGalleryScan(r: ScanResult): (a: Action)
    ensures r.error == Some("Sélection annulée") && !r.success ==> a == NoAction
    ensures !r.success && r.error == Some("Scan annulé") ==> a == ShowAlert("Erreur", "Scan annulé")
  {
    HandleScan(IDScanner.Gallery, r)
  }

  /** Both scan cards are disabled while a scan is in flight. */
  function ScanEnabled(isScanning: bool): (enabled: bool)
    ensures enabled <==> !isScanning
  {
    !isScanning
  }

  /** Pressing a scan card: `handleCameraScan` or `handleGalleryScan` awaits the hook's scan,
      then navigates or alerts. The cards are pressable only while enabled, and they are
      enabled again once the scan has returned, on every path. */
  method PressScanCard(scanner: IDScanner.Scanner, src: IDScanner.Source, device: IDScanner.Device)
    returns (a: Action)
    requires ScanEnabled(scanner.isScanning)
    modifies scanner
    ensures ScanEnabled(scanner.isScanning)
    ensures a == HandleScan(src, IDScanner.ScanOutcome(src, device))
    ensures scanner.extractedInfo == IDScanner.StoredInfo(old(scanner.extractedInfo), IDScanner.ScanOutcome(src, device))
    ensures scanner.calls == old(scanner.calls) + IDScanner.ScanCalls(src, device)
  {
    var r;
    match src {
      case Camera => r := scanner.ScanFromCamera(device);
      case Gallery => r := scanner.ScanFromGallery(device);
    }
    a := HandleScan(src, r);
  }

  /** Over the hook's own results: a scan that reached extraction navigates with the
      extracted record; a cancelled picker shows nothing; every other failure alerts with
      the hook's message. */
  lemma HandleScanOutcome(src: IDScanner.Source, device: IDScanner.Device)
    ensures var r := IDScanner.ScanOutcome(src, device); var a := HandleScan(src, r);
      && (IDScanner.ReachesExtraction(device) ==>
            a == NavigateToResults(ResultParams(IDScanner.ExtractInfoFromImage(device.picker.assets[0]),
                                                Some(device.picker.assets[0]))))
      && (IDScanner.PickerCancelled(device) ==> a == NoAction)
      && (!IDScanner.ReachesExtraction(device) && !IDScanner.PickerCancelled(device) ==> a == ShowAlert("Erreur", r.error.value))
  {
  }
}
