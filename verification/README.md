# ID scan and send: a Dafny model

This project models the logic of a small mobile app. The app takes a photo of
an identity document, or picks one from the gallery. It extracts the
document's fields, lets the operator check and validate them, and then sends
them by SMS or e-mail. The model covers four parts:

- **The scanner hook** (`IDScanner`, `id_scanner.dfy`). A class `Scanner` holds
  the `isScanning` flag and the last extracted record. Each scan goes through
  the permission request, the picker and the extraction stub. It returns early
  on each failure, turns a thrown error into the generic message, and clears
  `isScanning` on every path.
- **The messaging hook** (`Messaging`, `messaging.dfy`). It covers the
  plain-text body, the `sms:` and `mailto:` URIs, and a class `Messenger` with
  the `isSending` flag. The send operations are `SendViaSms`, `SendViaEmail`,
  `SendMessage` (the channel prompt) and `ShareInfo` (native share, falling
  back to the prompt).
- **The result helpers** (`ErrorHandler`, `error_handler.dfy`). These are the
  tagged result constructors, their type guards, and the classification of a
  thrown value.
- **The two screens.** `ScannerScreen` (`scanner_screen.dfy`) turns a scan
  result into a navigation or an alert. `ResultsScreen`
  (`results_screen.dfy`) rebuilds the record from the route parameters. It
  also holds the one-way `isValidated` gate, the send-enabled predicate, the
  card display and the send feedback.
  `Pipeline` (`pipeline.dfy`) connects the parts: the record the scanner
  passes on is the one the results screen rebuilds and sends. It also holds
  a few end-to-end scenarios.

`IDTypes` (`id_types.dfy`) holds the shared records: `Info` (the extracted
document fields), `ScanResult` and `SendResult`. `Text` (`text.dfy`) holds
the string helpers (first occurrence, split, join). The model uses them to
read the message body back into lines and the URIs back into their parts.

The platform is never called. What it would do is an input to the model:

- `Link` says whether `canOpenURL` throws, what it answers, and whether
  `openURL` throws.
- `ShareSupport` says whether native share exists and whether it throws.
- `Choice` is the user's answer to the channel prompt.
- `Device` gives the permission outcome and the picker outcome. The picker
  outcome includes its asset list, so an empty list can be modelled.
- `enc` stands for `encodeURIComponent`. The model assumes nothing about it.

The two hook classes append each platform call they make to their `calls` log.
That includes the scanner hook's own "Permission requise" alert. The log lets
the contracts state what was never called: no `openURL` without a positive
check, and no picker without permission. The screens' alerts and navigations
are emitted as values instead (`ScannerScreen.Action`,
`ResultsScreen.UiEffect`).

Five behaviours of the app differ from what one might expect. The model
follows the code:

- An absent or empty optional field leaves an empty line in the body. It is
  not omitted (`BodyLines`, `DefaultsKeepMessage`).
- Sending is not rejected while the record is unvalidated. The only guard is
  the send button's `disabled` prop. In the model this is the precondition
  `SendEnabled()` of `Screen.HandleSendMessage`. `SendMessage` has no
  validation check.
- The recipient (phone number or e-mail address) is put into the URI
  unencoded, so one holding `?` would not read back. The app never passes a
  recipient (`ChannelUrl`).
- Neither hook guards against a second call while one is in flight. Only the
  disabled buttons do (`ScanEnabled`, `SendEnabled`).
- The extraction stub cannot fail, so there is no extraction-failure path.
  Failures are strings, not tagged reasons. The results screen sends through
  the channel prompt (`sendMessage`), not through `shareInfo`.

## Model

| member | source | states |
|---|---|---|
| `Messaging.FormatInfoForMessage` | hooks/useMessaging.ts:9-19 | the body always starts with the header line and ends with the "Envoyé depuis l'app Scanner ID" footer |
| `Messaging.MessageLines` | hooks/useMessaging.ts:10-18 | the template has exactly nine lines |
| `Messaging.BodyLines` | hooks/useMessaging.ts:10-18 | when no field holds a line break: read back line by line, the body is exactly the template's nine lines: the header, a blank line, then "Nom : ", "Prénom : " and "Date de naissance : " lines in that order. The document-number and expiration lines are empty when their field is absent or empty. Then a blank line and the footer. The line count never varies. |
| `Messaging.SmsUrl` | hooks/useMessaging.ts:25 | the SMS URI uses the `sms:` scheme; its full layout is stated by `SmsUrlRoundTrip` |
| `Messaging.MailtoUrl` | hooks/useMessaging.ts:48-49 | the e-mail URI uses the `mailto:` scheme; its full layout is stated by `MailtoUrlRoundTrip` |
| `Messaging.ChannelUrl` | hooks/useMessaging.ts:74-87 | the prompt's channels send with no recipient: read back, the URI has an empty recipient and carries the encoded body. By e-mail it also carries the encoded fixed subject, proved when that encoding holds no `&`. |
| `Messaging.SmsUrlRoundTrip` | hooks/useMessaging.ts:25 | the `sms:` URI carries the phone number (or nothing) and the encoded body, and a handler recovers both when the phone number holds no `?` |
| `Messaging.MailQueryRoundTrip` | hooks/useMessaging.ts:49 | the `subject=…&body=…` query gives back subject and body when the subject holds no `&` |
| `Messaging.MailtoAddressRoundTrip` | hooks/useMessaging.ts:49 | the address before `?subject=` is recovered when it holds no `?` |
| `Messaging.MailtoUrlRoundTrip` | hooks/useMessaging.ts:48-49 | the `mailto:` URI carries the address (or nothing), the encoded fixed subject and the encoded body, and a handler recovers all three when the address holds no `?` and the encoded subject no `&` |
| `Messaging.LinkCalls` | hooks/useMessaging.ts:27-29 | the URI is always checked, and it is opened exactly when the check answered yes without throwing |
| `Messaging.LinkOutcome` | hooks/useMessaging.ts:27-41 | success iff the URI could be opened and opening did not throw. Otherwise the channel's "Impossible d'ouvrir…" message if the check said no, or its "Erreur lors de l'ouverture…" message if a call threw. |
| `Messaging.SuccessOnlyAfterOpen` | hooks/useMessaging.ts:28-31 | a successful send always handed the URI to `openURL` |
| `Messaging.ChoiceOutcome` | hooks/useMessaging.ts:74-92 | choosing a channel gives exactly that channel's result. Cancelling gives failure "Envoi annulé". |
| `Messaging.ChoiceCalls` | hooks/useMessaging.ts:70-93 | the prompt is shown. Cancelling calls no channel. Choosing one makes exactly that channel's calls, with no recipient. |
| `Messaging.Messenger.constructor` | hooks/useMessaging.ts:7 | `isSending` starts false |
| `Messaging.Messenger.OpenChannel` | hooks/useMessaging.ts:27-38 | the check-then-open steps give the `LinkOutcome` result and the `LinkCalls` calls |
| `Messaging.Messenger.SendViaSms` | hooks/useMessaging.ts:21-42 | opens the `sms:` URI of the body as `LinkOutcome`/`LinkCalls` say. `isSending` is false afterwards on every path. |
| `Messaging.Messenger.SendViaEmail` | hooks/useMessaging.ts:44-66 | opens the `mailto:` URI with the fixed subject and the body. `isSending` is false afterwards on every path. |
| `Messaging.Messenger.SendMessage` | hooks/useMessaging.ts:68-96 | returns exactly the chosen channel's result. On cancel, no channel is called and `isSending` is unchanged. |
| `Messaging.Messenger.ShareInfo` | hooks/useMessaging.ts:98-120 | with native share: shares the body and returns success, or the share error if it throws; the prompt is never shown. Without native share: returns `sendMessage`'s result. `isSending` is false afterwards. |
| `IDScanner.ExtractInfoFromImage` | hooks/useIDScanner.ts:13-28 | the stub's record has all five fields non-empty |
| `IDScanner.ExtractionIgnoresImage` | hooks/useIDScanner.ts:13-28 | the stub returns the same record whatever the image |
| `IDScanner.ScanOutcome` | hooks/useIDScanner.ts:30-70 | success iff permission granted and an image picked. Then the data is the extraction of the first asset and the image URI is that asset's URI. Refused permission gives the "Permission … refusée" message and a cancelled picker the "… annulé(e)" one. Every other failure gives the source's generic scan error: a throwing permission request, a throwing picker, or an empty asset list (reading the first asset's URI throws). Successes always carry data and failures never do. |
| `IDScanner.ScanCalls` | hooks/useIDScanner.ts:34-56 | the exact calls of each path, in order and each at most once. The hook's "Permission requise" alert, with the source's text, is shown exactly when permission is refused. The picker is launched exactly when permission is granted. Extraction, of the first picked image, happens exactly when an image was picked. |
| `IDScanner.StoredInfo` | hooks/useIDScanner.ts:55-56 | a failed scan leaves `extractedInfo` unchanged, and a successful one stores the returned record |
| `IDScanner.Scanner.constructor` | hooks/useIDScanner.ts:8-9 | not scanning, no record |
| `IDScanner.Scanner.Attempt` | hooks/useIDScanner.ts:31-66 | the early-return steps give `ScanOutcome`, `ScanCalls` and `StoredInfo` |
| `IDScanner.Scanner.ScanFromCamera` | hooks/useIDScanner.ts:30-70 | camera scan as `ScanOutcome`. `isScanning` is false afterwards on every path. |
| `IDScanner.Scanner.ScanFromGallery` | hooks/useIDScanner.ts:72-112 | gallery scan as `ScanOutcome`. `isScanning` is false afterwards on every path. |
| `IDScanner.Scanner.ClearExtractedInfo` | hooks/useIDScanner.ts:114-116 | the record becomes none and nothing else changes |
| `ErrorHandler.HandleError` | utils/errorHandler.ts:17-33 | always an error. The message is the `Error`'s message, the string itself, or "Une erreur inattendue s'est produite". The code is the value's code when truthy, else "UNKNOWN_ERROR". |
| `ErrorHandler.HandledCodeNonEmpty` | utils/errorHandler.ts:31 | a handled error always has a non-empty code |
| `ErrorHandler.CreateSuccessResult` | utils/errorHandler.ts:39-42 | a success carrying the given data |
| `ErrorHandler.CreateErrorResult` | utils/errorHandler.ts:44-48 | an error carrying the given message and code unchanged |
| `ErrorHandler.IsErrorResult` | utils/errorHandler.ts:50-52 | the guard holds exactly of the error variant |
| `ErrorHandler.IsSuccessResult` | utils/errorHandler.ts:54-56 | the guard holds exactly of the success variant |
| `ErrorHandler.GuardsComplementary` | utils/errorHandler.ts:50-56 | exactly one of the two guards holds of any result |
| `ErrorHandler.GuardsRecogniseConstructors` | utils/errorHandler.ts:39-56 | each constructor's result is recognised by its own guard only |
| `ScannerScreen.ResultParams` | app/scanner.tsx:20-29 | the mandatory fields are copied verbatim. An absent document number, expiration date or image URI becomes the empty string. |
| `ScannerScreen.HandleScan` | app/scanner.tsx:18-35 | navigates to `/results` iff the result is a success with data. Alerts with exactly the error iff it fails with a non-empty error that is not the source's cancellation message. Otherwise does nothing. |
| `ScannerScreen.HandleCameraScan` | app/scanner.tsx:14-37 | "Scan annulé" is silent; the gallery's cancellation message is not |
| `ScannerScreen.HandleGalleryScan` | app/scanner.tsx:39-62 | "Sélection annulée" is silent; the camera's cancellation message is not |
| `ScannerScreen.PressScanCard` | app/scanner.tsx:14-98 | a card is pressed only while no scan is in flight. The hook's scan runs, and its result is navigated to or alerted about as `HandleScan` says. The hook stores the record of a successful scan and keeps the old one on failure. The cards are enabled again afterwards, on every path. |
| `ScannerScreen.HandleScanOutcome` | app/scanner.tsx:18-35 | over the hook's results: a scan that reached extraction navigates with the extracted record, a cancelled picker shows nothing, and every other failure alerts with the hook's message |
| `ResultsScreen.Param` | app/results.tsx:19-23 | a missing parameter reads as the empty string |
| `ResultsScreen.RebuildInfo` | app/results.tsx:18-24 | each field is the parameter or `''`, and neither optional field is ever absent |
| `ResultsScreen.ImageUriParam` | app/results.tsx:26 | the image URI is the parameter when given and absent otherwise, with no default |
| `ResultsScreen.ShowsImage` | app/results.tsx:82-86 | the image is shown exactly when its URI is present and non-empty |
| `ResultsScreen.Displayed` | app/results.tsx:91 | an empty field shows its placeholder, otherwise its value |
| `ResultsScreen.Cards` | app/results.tsx:89-121 | three mandatory cards, with "Non détecté"/"Non détectée" for empty values. Then one card per non-empty optional field. No card ever shows an empty value. |
| `ResultsScreen.SendFeedback` | app/results.tsx:33-46 | success gives the "Message envoyé" alert, with its fixed text, whose button leads to `/`. Failure gives an "Erreur" alert with the result's error, or the default message when the error is missing or empty, so the alert is never empty. Only success navigates. |
| `ResultsScreen.Screen.constructor` | app/results.tsx:12-26 | the record is rebuilt from the parameters. Not validated and not sending, so the validate button is enabled and the send button is not. |
| `ResultsScreen.Screen.SendEnabled` | app/results.tsx:145 | sending is enabled exactly when validated and not already sending |
| `ResultsScreen.Screen.HandleValidateInfo` | app/results.tsx:49-56 | sets the gate, so validating twice leaves it set, and disables the validate button. The send button is then enabled exactly when no send is in flight. Shows the confirmation. The record is constant. |
| `ResultsScreen.Screen.HandleSendMessage` | app/results.tsx:28-47 | sends the rebuilt record through the prompt and shows `SendFeedback` of the result. The gate stays set, so afterwards the send button is enabled again and the validate button stays disabled. |
| `Pipeline.WithDefaults` | app/scanner.tsx:26-27 | the mandatory fields are kept. Each optional field becomes present, holding its value or `''` when it was absent, so its truthiness is unchanged. |
| `Pipeline.ParamsRoundTrip` | app/scanner.tsx:20-29 | the results screen rebuilds the scanned record (absent optionals as `''`) and the image URI. The image is shown exactly when the scan gave a non-empty URI. |
| `Pipeline.DefaultsKeepMessage` | hooks/useMessaging.ts:15-16 | replacing absent optionals by `''` does not change the message body |
| `Pipeline.ScannedRecordIsSent` | app/results.tsx:18-31 | after a successful scan, the results screen sends the body of the extracted record |
| `Pipeline.StubMessageHasAllFields` | hooks/useIDScanner.ts:18-24 | the stub record's body has all five field lines, spelled out |

## Left out

- Presentation: layout, styles, icons and the card components. `Cards` keeps
  only which cards show and with what value.
- Platform calls are oracle inputs and a call log. Alerts and navigations
  are emitted values: the log entries, `ScannerScreen.Action` and
  `ResultsScreen.UiEffect`. The model does not model what the permission
  dialogs, pickers, `canOpenURL`/`openURL`, `navigator.share`, `Alert.alert`
  and the router do on the device.
- `encodeURIComponent` is a parameter with no properties. Percent-encoding is
  not modelled. `MailtoUrlRoundTrip` therefore requires that the encoded
  subject holds no `&`.
- Timing and framework mechanics are not modelled: the 2000 ms delay of the
  stub, promise scheduling, state batching, memoisation and logging.
- Calls are not concurrent. Each method runs to completion, and `isSending`
  and `isScanning` are observed only before and after a call. The flag being
  true while a call is in flight is modelled only as the assignment at the
  start. With native share absent, `shareInfo`'s flag is cleared by the inner
  channel's `finally` when a channel is chosen. When the prompt is cancelled,
  no channel runs and the flag stays true until `shareInfo`'s own `finally`.
- `handleError`'s `context` argument is used only for logging and is dropped.
  A truthy `code` property is modelled as a non-empty string. Codes of other
  types are not modelled.
- Route parameters are a map from names to strings. A parameter given as an
  array of strings is not modelled.
- `showErrorAlert`, `handleRetry` and the unused `MessageData` type only show
  an alert, navigate back, or are never used.
