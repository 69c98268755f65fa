/**
  The scan, review and send pipeline end to end: what the scanner screen
  passes on is what the results screen rebuilds, and the rebuilt record
  composes the same message as the scanned one.
 */
module Pipeline {
  import opened IDTypes
  import opened Messaging
  import opened Text
  import IDScanner
  import ScannerScreen
  import ResultsScreen

  /** The scanned record with each absent optional field replaced by the empty string. */
  function WithDefaults(data: Info): (info: Info)
    ensures info.nom == data.nom && info.prenom == data.prenom && info.dateNaissance == data.dateNaissance
    ensures Truthy(info.numeroDocument) == Truthy(data.numeroDocument)
    ensures Truthy(info.dateExpiration) == Truthy(data.dateExpiration)
    ensures info.numeroDocument == Some(OrEmpty(data.numeroDocument))
    ensures info.dateExpiration == Some(OrEmpty(data.dateExpiration))
  {
    Info(data.nom, data.prenom, data.dateNaissance, Some(OrEmpty(data.numeroDocument)), Some(OrEmpty(data.dateExpiration)))
  }

  /** Round trip through the route: the results screen rebuilds the scanned record, with
      absent optional fields as empty strings, and the image URI, empty when absent; the
      image is shown exactly when the scan gave a non-empty URI. */
  lemma ParamsRoundTrip(data: Info, imageUri: Option<string>)
    ensures ResultsScreen.RebuildInfo(ScannerScreen.ResultParams(data, imageUri)) == WithDefaults(data)
    ensures ResultsScreen.ImageUriParam(ScannerScreen.ResultParams(data, imageUri)) == Some(OrEmpty(imageUri))
    ensures ResultsScreen.ShowsImage(ResultsScreen.ImageUriParam(ScannerScreen.ResultParams(data, imageUri))) <==> Truthy(imageUri)
  {
  }

  /** Filling in the defaults does not change the message: an empty optional field and an
      absent one both give an empty line. */
  lemma DefaultsKeepMessage(data: Info)
    ensures FormatInfoForMessage(WithDefaults(data)) == FormatInfoForMessage(data)
  {
  }

  /** A successful scan sends, from the results screen, the message of the record the
      scanner extracted. */
  lemma ScannedRecordIsSent(src: IDScanner.Source, device: IDScanner.Device)
    requires IDScanner.ReachesExtraction(device)
    ensures var r := IDScanner.ScanOutcome(src, device); var a := ScannerScreen.HandleScan(src, r);
      && a.NavigateToResults?
      && FormatInfoForMessage(ResultsScreen.RebuildInfo(a.params)) == FormatInfoForMessage(r.data.value)
  {
  }

  /** The lines of the stub's record, spelled out. */
  function StubLines(): seq<string> {
    [Header, "",
     "Nom : MARTIN",
     "Prénom : Jean-Pierre",
     "Date de naissance : 15/03/1985",
     "Numéro de document : 123456789",
     "Date d'expiration : 15/03/2030",
     "", Footer]
  }

  /** The stub's record gives a body whose lines carry all five fields. */
  lemma StubMessageHasAllFields(imageUri: string)
    ensures Split(FormatInfoForMessage(IDScanner.ExtractInfoFromImage(imageUri)), '\n') == StubLines()
  {
    var info := IDScanner.ExtractInfoFromImage(imageUri);
    StubSingleLine(imageUri);
    BodyLines(info);
    StubMessageLines(imageUri);
  }

  lemma StubSingleLine(imageUri: string)
    ensures SingleLineFields(IDScanner.ExtractInfoFromImage(imageUri))
  {
  }

  lemma StubMessageLines(imageUri: string)
    ensures MessageLines(IDScanner.ExtractInfoFromImage(imageUri)) == StubLines()
  {
    assert "Nom : " + "MARTIN" == "Nom : MARTIN";
    assert "Prénom : " + "Jean-Pierre" == "Prénom : Jean-Pierre";
    assert "Date de naissance : " + "15/03/1985" == "Date de naissance : 15/03/1985";
    assert "Numéro de document : " + "123456789" == "Numéro de document : 123456789";
    assert "Date d'expiration : " + "15/03/2030" == "Date d'expiration : 15/03/2030";
  }

  /** Gallery, permission granted, picker cancelled: a failure with the cancellation message,
      the scanner idle again, nothing extracted, and no alert. */
  method GalleryCancelledScenario() {
    var scanner := new IDScanner.Scanner();
    var r := scanner.ScanFromGallery(IDScanner.Device(IDScanner.Granted, IDScanner.Cancelled));
    assert !r.success && r.error == Some("Sélection annulée");
    assert !scanner.isScanning && scanner.extractedInfo == None;
    assert ScannerScreen.HandleGalleryScan(r) == ScannerScreen.NoAction;
  }

  /** Camera, permission granted, one image picked: the results screen is reached with the
      stub's record. */
  method CameraScanScenario(imageUri: string) returns (params: Params) {
    var scanner := new IDScanner.Scanner();
    var r := scanner.ScanFromCamera(IDScanner.Device(IDScanner.Granted, IDScanner.Picked([imageUri])));
    assert r.success && !scanner.isScanning;
    var a := ScannerScreen.HandleCameraScan(r);
    assert a.NavigateToResults?;
    params := a.params;
    ParamsRoundTrip(r.data.value, r.imageUri);
    assert ResultsScreen.RebuildInfo(params) == WithDefaults(IDScanner.ExtractInfoFromImage(imageUri));
  }

  /** Validate, then send by SMS: with the SMS URI openable the send succeeds and leads home;
      with it not openable the send fails with the channel's message; either way the screen
      stays validated. */
  method SmsScenario(params: Params, enc: string -> string, canOpen: bool) {
    var screen := new ResultsScreen.Screen(params);
    screen.HandleValidateInfo();
    var link := Link(false, canOpen, false);
    var outcome := ChoiceOutcome(Pick(Sms), link);
    assert outcome.success <==> canOpen;
    var f := screen.HandleSendMessage(Pick(Sms), enc, link);
    assert f == ResultsScreen.SendFeedback(outcome);
    if canOpen {
      assert f.AlertThenNavigate? && f.path == "/";
    } else {
      assert f == ResultsScreen.Alert("Erreur", UnavailableMessage(Sms));
    }
    assert screen.isValidated && !screen.messenger.isSending;
  }
}
