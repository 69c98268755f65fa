/**
  The messaging hook: composition of the plain-text message body from an
  identity record, the `sms:` and `mailto:` URIs that carry it, and the
  send operations, which go through the platform's "can open" check and
  "open" call and keep an `isSending` flag.
 */
module Messaging {
  import opened IDTypes
  import opened Text

  const Header := "Informations de la pièce d'identité :"
  const Footer := "Envoyé depuis l'app Scanner ID"
  const EmailSubject := "Informations pièce d'identité scannée"
  const ShareTitle := "Informations pièce d'identité"
  const CancelledMessage := "Envoi annulé"
  const ShareErrorMessage := "Erreur lors du partage des informations"

  /** The document-number line: empty when the field is absent or empty. */
  function DocumentLine(info: Info): string {
    if Truthy(info.numeroDocument) then "Numéro de document : " + info.numeroDocument.value else ""
  }

  /** The expiration line: empty when the field is absent or empty. */
  function ExpirationLine(info: Info): string {
    if Truthy(info.dateExpiration) then "Date d'expiration : " + info.dateExpiration.value else ""
  }

  /** The lines of the message template, in order: header, blank line, the three mandatory
      lines, the two optional lines (each empty when its field is absent or empty), blank
      line, footer. */
  function MessageLines(info: Info): (lines: seq<string>)
    ensures |lines| == 9
  {
    [Header,
     "",
     "Nom : " + info.nom,
     "Prénom : " + info.prenom,
     "Date de naissance : " + info.dateNaissance,
     DocumentLine(info),
     ExpirationLine(info),
     "",
     Footer]
  }

  /** The message body: the template's lines separated by line breaks. */
  function FormatInfoForMessage(info: Info): (body: string)
    ensures |Header| <= |body| && body[..|Header|] == Header
    ensures |Footer| <= |body| && body[|body| - |Footer|..] == Footer
  {
    var lines := MessageLines(info);
    JoinCons(lines, '\n');
    JoinEndsWithLast(lines, '\n');
    Join(lines, '\n')
  }

  /** No field of the record holds a line break. */
  predicate SingleLineFields(info: Info) {
    && '\n' !in info.nom
    && '\n' !in info.prenom
    && '\n' !in info.dateNaissance
    && (info.numeroDocument.Some? ==> '\n' !in info.numeroDocument.value)
    && (info.dateExpiration.Some? ==> '\n' !in info.dateExpiration.value)
  }

  /** Read back line by line, the body is exactly the nine template lines when no field holds
      a line break; in particular it then has nine lines, and an absent optional field leaves an empty line. */
  lemma {:induction false} BodyLines(info: Info)
    requires SingleLineFields(info)
    ensures Split(FormatInfoForMessage(info), '\n') == MessageLines(info)
    ensures |Split(FormatInfoForMessage(info), '\n')| == 9
  {
    var ls := MessageLines(info);
    assert '\n' !in Header && '\n' !in Footer;
    assert '\n' !in "Nom : " && '\n' !in "Prénom : " && '\n' !in "Date de naissance : ";
    assert '\n' !in "Numéro de document : " && '\n' !in "Date d'expiration : ";
    assert NoneContains(ls, '\n');
    SplitJoin(ls, '\n');
  }

  // ---------------------------------------------------------------------------
  // URIs. URI-component encoding is the platform's `encodeURIComponent`; the
  // model takes it as the parameter `enc` and assumes nothing about it.

  /** `sms:<phone or ''>?body=<encoded body>`. */
  function SmsUrl(phoneNumber: Option<string>, body: string, enc: string -> string): (url: string)
    ensures StartsWith(url, "sms:")
  {
    "sms:" + OrEmpty(phoneNumber) + "?body=" + enc(body)
  }

  /** `mailto:<email or ''>?subject=<encoded subject>&body=<encoded body>`. */
  function MailtoUrl(email: Option<string>, subject: string, body: string, enc: string -> string): (url: string)
    ensures StartsWith(url, "mailto:")
  {
    "mailto:" + OrEmpty(email) + "?subject=" + enc(subject) + "&body=" + enc(body)
  }

  /** How a handler reads an `sms:` URI back: the recipient up to the first `?`, then the
      encoded body after `body=`. */
  function ParseSmsUrl(url: string): Option<(string, string)> {
    if !StartsWith(url, "sms:") then None
    else
      var rest := url[4..];
      var q := IndexOf(rest, '?');
      if q == |rest| || !StartsWith(rest[q + 1..], "body=") then None
      else Some((rest[..q], rest[q + 1..][5..]))
  }

  /** How a handler reads a `mailto:` URI back: the recipient up to the first `?`, then the
      query, see `ParseMailQuery`. */
  function ParseMailtoUrl(url: string): Option<(string, string, string)> {
    if !StartsWith(url, "mailto:") then None
    else
      var rest := url[7..];
      var q := IndexOf(rest, '?');
      if q == |rest| || !StartsWith(rest[q + 1..], "subject=") then None
      else
        match ParseMailQuery(rest[q + 1..][8..])
        case None => None
        case Some((subject, body)) => Some((rest[..q], subject, body))
  }

  /** The query of a `mailto:` URI after `subject=`: the encoded subject up to the first `&`,
      and the encoded body after `body=`. */
  function ParseMailQuery(query: string): Option<(string, string)> {
    var a := IndexOf(query, '&');
    if a == |query| || !StartsWith(query[a + 1..], "body=") then None
    else Some((query[..a], query[a + 1..][5..]))
  }

  /** The SMS URI carries the recipient (empty when none is given) and the encoded body,
      and a handler recovers both. */
  lemma SmsUrlRoundTrip(phoneNumber: Option<string>, body: string, enc: string -> string)
    requires '?' !in OrEmpty(phoneNumber)
    ensures ParseSmsUrl(SmsUrl(phoneNumber, body, enc)) == Some((OrEmpty(phoneNumber), enc(body)))
  {
    var phone := OrEmpty(phoneNumber);
    var rest := phone + "?" + ("body=" + enc(body));
    assert SmsUrl(phoneNumber, body, enc) == "sms:" + rest;
    assert ("sms:" + rest)[4..] == rest;
    FieldAfter(phone, '?', "body=", enc(body));
  }

  /** The query part: the subject is read up to the first `&`, so it must hold none. */
  lemma MailQueryRoundTrip(subject: string, body: string)
    requires '&' !in subject
    ensures ParseMailQuery(subject + "&" + ("body=" + body)) == Some((subject, body))
  {
    FieldAfter(subject, '&', "body=", body);
  }

  /** The address part: the recipient is read up to the first `?`, so it must hold none. */
  lemma MailtoAddressRoundTrip(to: string, query: string, subject: string, body: string)
    requires '?' !in to
    requires ParseMailQuery(query) == Some((subject, body))
    ensures ParseMailtoUrl("mailto:" + (to + "?" + ("subject=" + query))) == Some((to, subject, body))
  {
    var rest := to + "?" + ("subject=" + query);
    assert ("mailto:" + rest)[7..] == rest;
    FieldAfter(to, '?', "subject=", query);
  }

  /** The mailto URI carries the recipient, the encoded subject and the encoded body, and a
      handler recovers all three when the encoded subject holds no `&`. */
  lemma MailtoUrlRoundTrip(email: Option<string>, subject: string, body: string, enc: string -> string)
    requires '?' !in OrEmpty(email)
    requires '&' !in enc(subject)
    ensures ParseMailtoUrl(MailtoUrl(email, subject, body, enc))
         == Some((OrEmpty(email), enc(subject), enc(body)))
  {
    var to := OrEmpty(email);
    var query := enc(subject) + "&" + ("body=" + enc(body));
    assert MailtoUrl(email, subject, body, enc) == "mailto:" + (to + "?" + ("subject=" + query));
    MailQueryRoundTrip(enc(subject), enc(body));
    MailtoAddressRoundTrip(to, query, enc(subject), enc(body));
  }

  // ---------------------------------------------------------------------------
  // Sending. The platform is given as oracle inputs, and every call the hook
  // makes into it is appended to `calls`.

  datatype Channel = Sms | Email

  /** The user's answer to the channel prompt. */
  datatype Choice = Pick(channel: Channel) | Cancel

  /** What the platform does for one URI: whether `canOpenURL` throws, what it answers,
      and whether `openURL` throws. */
  datatype Link = Link(checkThrows: bool, canOpen: bool, openThrows: bool)

  /** Whether native share exists, and if so whether the share call throws. */
  datatype ShareSupport = NoShare | Share(throws: bool)

  /** A call into the platform. */
  datatype PlatformCall =
    | CanOpenUrl(url: string)
    | OpenUrl(url: string)
    | ChannelPrompt
    | NativeShare(title: string, text: string)

  function UnavailableMessage(ch: Channel): string {
    match ch
    case Sms => "Impossible d'ouvrir l'application SMS"
    case Email => "Impossible d'ouvrir l'application email"
  }

  function OpenErrorMessage(ch: Channel): string {
    match ch
    case Sms => "Erreur lors de l'ouverture de l'application SMS"
    case Email => "Erreur lors de l'ouverture de l'application email"
  }

  /** The URI a channel opens for a record, with no recipient given: read back, it has an
      empty recipient and carries the encoded body (and, by e-mail, the fixed subject). */
  function ChannelUrl(ch: Channel, info: Info, enc: string -> string): (url: string)
    ensures ch == Sms ==> ParseSmsUrl(url) == Some(("", enc(FormatInfoForMessage(info))))
    ensures ch == Email && '&' !in enc(EmailSubject)
            ==> ParseMailtoUrl(url) == Some(("", enc(EmailSubject), enc(FormatInfoForMessage(info))))
  {
    var body := FormatInfoForMessage(info);
    match ch
    case Sms =>
      SmsUrlRoundTrip(None, body, enc);
      SmsUrl(None, body, enc)
    case Email =>
      var url := MailtoUrl(None, EmailSubject, body, enc);
      if '&' in enc(EmailSubject) then url
      else
        MailtoUrlRoundTrip(None, EmailSubject, body, enc);
        url
  }

  /** The platform calls of one channel attempt on `url`: always the check, and the open
      call exactly when the check answered yes without throwing. */
  function LinkCalls(url: string, link: Link): (cs: seq<PlatformCall>)
    ensures |cs| >= 1 && cs[0] == CanOpenUrl(url)
    ensures OpenUrl(url) in cs <==> !link.checkThrows && link.canOpen
    ensures forall u :: OpenUrl(u) in cs ==> u == url
  {
    if !link.checkThrows && link.canOpen then [CanOpenUrl(url), OpenUrl(url)] else [CanOpenUrl(url)]
  }

  /** The result of one channel attempt: success exactly when the URI could be opened and
      opening it did not throw; otherwise the channel's "cannot open" message when the
      check said no, and its "error while opening" message when a call threw. */
  function LinkOutcome(ch: Channel, link: Link): (r: SendResult)
    ensures r.success <==> !link.checkThrows && link.canOpen && !link.openThrows
    ensures r.success ==> r.error == None
    ensures !link.checkThrows && !link.canOpen ==> r == SendResult(false, Some(UnavailableMessage(ch)))
    ensures link.checkThrows || (link.canOpen && link.openThrows)
            ==> r == SendResult(false, Some(OpenErrorMessage(ch)))
  {
    if link.checkThrows then SendResult(false, Some(OpenErrorMessage(ch)))
    else if !link.canOpen then SendResult(false, Some(UnavailableMessage(ch)))
    else if link.openThrows then SendResult(false, Some(OpenErrorMessage(ch)))
    else SendResult(true, None)
  }

  /** A successful attempt is one that opened the URI: the hook never reports success
      without having handed the URI to the platform. */
  lemma SuccessOnlyAfterOpen(ch: Channel, url: string, link: Link)
    ensures LinkOutcome(ch, link).success ==> OpenUrl(url) in LinkCalls(url, link)
  {
  }

  /** The result of `sendMessage` for a given answer to the prompt. */
  function ChoiceOutcome(choice: Choice, link: Link): (r: SendResult)
    ensures choice == Cancel ==> r == SendResult(false, Some(CancelledMessage))
    ensures choice.Pick? ==> r == LinkOutcome(choice.channel, link)
  {
    match choice
    case Cancel => SendResult(false, Some(CancelledMessage))
    case Pick(ch) => LinkOutcome(ch, link)
  }

  /** The platform calls of `sendMessage`: the prompt, then the chosen channel's calls. */
  function ChoiceCalls(info: Info, choice: Choice, enc: string -> string, link: Link): (cs: seq<PlatformCall>)
    ensures |cs| >= 1 && cs[0] == ChannelPrompt
    ensures choice == Cancel ==> cs == [ChannelPrompt]
    ensures choice.Pick? ==> cs[1..] == LinkCalls(ChannelUrl(choice.channel, info, enc), link)
  {
    match choice
    case Cancel => [ChannelPrompt]
    case Pick(ch) => [ChannelPrompt] + LinkCalls(ChannelUrl(ch, info, enc), link)
  }

  /** The messaging hook's state: the `isSending` flag, plus the log of platform calls. */
  class Messenger {
    var isSending: bool
    var calls: seq<PlatformCall>

    constructor ()
      ensures !isSending && calls == []
    {
      isSending := false;
      calls := [];
    }

    /** The `try`/`catch` part of a channel send: check that the URI can be opened, then open it. */
    method OpenChannel(ch: Channel, url: string, link: Link) returns (r: SendResult)
      modifies this`calls
      ensures r == LinkOutcome(ch, link)
      ensures calls == old(calls) + LinkCalls(url, link)
    {
      calls := calls + [CanOpenUrl(url)];
      if link.checkThrows {
        return SendResult(false, Some(OpenErrorMessage(ch)));
      }
      if link.canOpen {
        calls := calls + [OpenUrl(url)];
        if link.openThrows {
          return SendResult(false, Some(OpenErrorMessage(ch)));
        }
        return SendResult(true, None);
      } else {
        return SendResult(false, Some(UnavailableMessage(ch)));
      }
    }

    /** `sendViaSMS`: compose the body, build the `sms:` URI and try to open it; `isSending`
        is false again when it returns, on every path. */
    method SendViaSms(info: Info, phoneNumber: Option<string>, enc: string -> string, link: Link)
      returns (r: SendResult)
      modifies this
      ensures !isSending
      ensures r == LinkOutcome(Sms, link)
      ensures calls == old(calls) + LinkCalls(SmsUrl(phoneNumber, FormatInfoForMessage(info), enc), link)
    {
      isSending := true;
      var message := FormatInfoForMessage(info);
      var url := SmsUrl(phoneNumber, message, enc);
      r := OpenChannel(Sms, url, link);
      isSending := false;
    }

    /** `sendViaEmail`: compose the body, build the `mailto:` URI with the fixed subject and
        try to open it; `isSending` is false again when it returns, on every path. */
    method SendViaEmail(info: Info, email: Option<string>, enc: string -> string, link: Link)
      returns (r: SendResult)
      modifies this
      ensures !isSending
      ensures r == LinkOutcome(Email, link)
      ensures calls == old(calls) + LinkCalls(MailtoUrl(email, EmailSubject, FormatInfoForMessage(info), enc), link)
    {
      isSending := true;
      var message := FormatInfoForMessage(info);
      var url := MailtoUrl(email, EmailSubject, message, enc);
      r := OpenChannel(Email, url, link);
      isSending := false;
    }

    /** `sendMessage`: prompt for a channel and return exactly that channel's result, with no
        recipient; cancelling the prompt touches no channel and leaves `isSending` as it was. */
    method SendMessage(info: Info, choice: Choice, enc: string -> string, link: Link)
      returns (r: SendResult)
      modifies this
      ensures r == ChoiceOutcome(choice, link)
      ensures calls == old(calls) + ChoiceCalls(info, choice, enc, link)
      ensures isSending == (if choice == Cancel then old(isSending) else false)
    {
      calls := calls + [ChannelPrompt];
      match choice {
        case Pick(Sms) =>
          r := SendViaSms(info, None, enc, link);
        case Pick(Email) =>
          r := SendViaEmail(info, None, enc, link);
        case Cancel =>
          r := SendResult(false, Some(CancelledMessage));
      }
    }

    /** `shareInfo`: use native share when the platform has it, otherwise fall back to
        `sendMessage`; `isSending` is false again when it returns, on every path. */
    method ShareInfo(info: Info, share: ShareSupport, choice: Choice, enc: string -> string, link: Link)
      returns (r: SendResult)
      modifies this
      ensures !isSending
      ensures share.Share? ==> r == (if share.throws then SendResult(false, Some(ShareErrorMessage)) else SendResult(true, None))
      ensures share.Share? ==> calls == old(calls) + [NativeShare(ShareTitle, FormatInfoForMessage(info))]
      ensures share.NoShare? ==> r == ChoiceOutcome(choice, link)
      ensures share.NoShare? ==> calls == old(calls) + ChoiceCalls(info, choice, enc, link)
    {
      isSending := true;
      var message := FormatInfoForMessage(info);
      if share.Share? {
        calls := calls + [NativeShare(ShareTitle, message)];
        if share.throws {
          r := SendResult(false, Some(ShareErrorMessage));
        } else {
          r := SendResult(true, None);
        }
      } else {
        r := SendMessage(info, choice, enc, link);
      }
      isSending := false;
    }
  }
}
