/**
  The results screen: it rebuilds the record from the route parameters,
  holds the one-way validation gate, enables sending only once validated and
  while no send is in flight, and turns the send result into feedback.
 */
module ResultsScreen {
  import opened IDTypes
  import opened Messaging

  /** `params[key] || ''`. */
  function Param(params: Params, key: string): (v: string)
    ensures key in params ==> v == params[key]
    ensures key !in params ==> v == ""
  {
    if key in params then params[key] else ""
  }

  /** The record the screen shows and sends: every field is a string, the parameter when
      given and the empty string otherwise; neither optional field is ever absent. */
  function RebuildInfo(params: Params): (info: Info)
    ensures info.numeroDocument.Some? && info.dateExpiration.Some?
    ensures info.nom == Param(params, "nom")
    ensures info.prenom == Param(params, "prenom")
    ensures info.dateNaissance == Param(params, "dateNaissance")
    ensures info.numeroDocument.value == Param(params, "numeroDocument")
    ensures info.dateExpiration.value == Param(params, "dateExpiration")
  {
    Info(
      Param(params, "nom"),
      Param(params, "prenom"),
      Param(params, "dateNaissance"),
      Some(Param(params, "numeroDocument")),
      Some(Param(params, "dateExpiration")))
  }

  /** `params.imageUri`, with no default: absent when the route does not carry it. */
  function ImageUriParam(params: Params): (uri: Option<string>)
    ensures uri.Some? <==> "imageUri" in params
    ensures uri.Some? ==> uri.value == params["imageUri"]
  {
    if "imageUri" in params then Some(params["imageUri"]) else None
  }

  /** One information card: a caption and the value shown. */
  datatype Card = Card(caption: string, value: string)

  /** `value || placeholder`. */
  function Displayed(value: string, placeholder: string): (shown: string)
    ensures value != "" ==> shown == value
    ensures value == "" ==> shown == placeholder
  {
    if value != "" then value else placeholder
  }

  /** The cards shown: the three mandatory fields always, with a placeholder for an empty
      one, then a card for each optional field that is present and not empty. No card is
      ever shown with an empty value. */
  function Cards(info: Info): (cards: seq<Card>)
    ensures |cards| == 3 + (if Truthy(info.numeroDocument) then 1 else 0) + (if Truthy(info.dateExpiration) then 1 else 0)
    ensures cards[0] == Card("Nom", Displayed(info.nom, "Non détecté"))
    ensures cards[1] == Card("Prénom", Displayed(info.prenom, "Non détecté"))
    ensures cards[2] == Card("Date de naissance", Displayed(info.dateNaissance, "Non détectée"))
    ensures Truthy(info.numeroDocument) ==> cards[3] == Card("Numéro de document", info.numeroDocument.value)
    ensures Truthy(info.dateExpiration) ==> cards[|cards| - 1] == Card("Date d'expiration", info.dateExpiration.value)
    ensures forall k :: 0 <= k < |cards| ==> cards[k].value != ""
  {
    [Card("Nom", Displayed(info.nom, "Non détecté")),
     Card("Prénom", Displayed(info.prenom, "Non détecté")),
     Card("Date de naissance", Displayed(info.dateNaissance, "Non détectée"))]
    + (if Truthy(info.numeroDocument) then [Card("Numéro de document", info.numeroDocument.value)] else [])
    + (if Truthy(info.dateExpiration) then [Card("Date d'expiration", info.dateExpiration.value)] else [])
  }

  /** The scanned image is shown only when its URI is present and not empty. */
  function ShowsImage(imageUri: Option<string>): (shown: bool)
    ensures shown <==> imageUri.Some? && imageUri.value != ""
  {
    Truthy(imageUri)
  }

  /** A user-visible effect of the screen's handlers. */
  datatype UiEffect =
    | Alert(title: string, message: string)
    | AlertThenNavigate(title: string, message: string, path: string)

  const ValidatedAlert := Alert("Informations validées", "Les informations extraites ont été validées avec succès.")
  const DefaultSendError := "Impossible d'envoyer le message"

  /** The feedback for a send result: on success an alert whose button leads home, otherwise an
      error alert with the result's message, or a default one when it has none. The alert
      always has something to say, and only success leaves the screen. */
  function SendFeedback(r: SendResult): (f: UiEffect)
    ensures f.AlertThenNavigate? <==> r.success
    ensures r.success ==> f == AlertThenNavigate("Message envoyé", "Les informations ont été envoyées avec succès.", "/")
    ensures !r.success ==> f.title == "Erreur" && f.message != ""
    ensures !r.success && Truthy(r.error) ==> f.message == r.error.value
    ensures !r.success && !Truthy(r.error) ==> f.message == DefaultSendError
  {
    if r.success then AlertThenNavigate("Message envoyé", "Les informations ont été envoyées avec succès.", "/")
    else Alert("Erreur", if Truthy(r.error) then r.error.value else DefaultSendError)
  }

  /** The screen's state: the record and image from the route, the validation gate, the
      messaging hook it uses, and the effects it has shown. */
  class Screen {
    const info: Info
    const imageUri: Option<string>
    const messenger: Messenger
    var isValidated: bool
    var effects: seq<UiEffect>

    /** Entering the screen: rebuild the record, start unvalidated with an idle messenger. */
    constructor (params: Params)
      ensures info == RebuildInfo(params) && imageUri == ImageUriParam(params)
      ensures !isValidated && effects == []
      ensures fresh(messenger) && !messenger.isSending && messenger.calls == []
      ensures ValidateEnabled() && !SendEnabled()
    {
      info := RebuildInfo(params);
      imageUri := ImageUriParam(params);
      messenger := new Messenger();
      isValidated := false;
      effects := [];
    }

    /** The send button is enabled exactly when validated and no send is in flight: nothing
        is sent from an unvalidated record. */
    function SendEnabled(): (enabled: bool)
      reads this, messenger
      ensures enabled <==> isValidated && !messenger.isSending
    {
      isValidated && !messenger.isSending
    }

    /** The validate button is enabled exactly until validated. */
    function ValidateEnabled(): (enabled: bool)
      reads this
      ensures enabled <==> !isValidated
    {
      !isValidated
    }

    /** `handleValidateInfo`: set the gate and confirm; the record does not change, and a
        second call leaves the gate set. */
    method HandleValidateInfo()
      modifies this`isValidated, this`effects
      ensures isValidated && !ValidateEnabled()
      ensures SendEnabled() <==> !messenger.isSending
      ensures effects == old(effects) + [ValidatedAlert]
    {
      isValidated := true;
      effects := effects + [ValidatedAlert];
    }

    /** `handleSendMessage`, reachable only through the send button, hence only when enabled:
        send through the channel prompt, then give feedback. The gate stays as it was. */
    method HandleSendMessage(choice: Choice, enc: string -> string, link: Link) returns (f: UiEffect)
      requires SendEnabled()
      modifies this`effects, messenger
      ensures isValidated
      ensures f == SendFeedback(ChoiceOutcome(choice, link))
      ensures effects == old(effects) + [f]
      ensures messenger.calls == old(messenger.calls) + ChoiceCalls(info, choice, enc, link)
      ensures !messenger.isSending && SendEnabled() && !ValidateEnabled()
    {
      var result := messenger.SendMessage(info, choice, enc, link);
      f := SendFeedback(result);
      effects := effects + [f];
    }
  }
}
