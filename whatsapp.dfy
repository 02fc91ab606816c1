/**
  The `messages.upsert` handler of whatsapp/client.js: the guards, the text and
  sender extraction, and the dispatch on processMessage's reply.

  `sock.sendMessage` appends to an Outbox. The JSON decoding of the two tagged
  payloads and the helpers formatBookingConfirmation, askForMissingFields and
  hasBookingKeywords, whose code is not part of this model, are given
  functions. The bookings table is the one of booking.service.js.
 */
module WhatsApp {
  import opened Js
  import opened Products
  import opened Bookings
  import opened Assistant

  /** The fields of `msg.message` the handler reads. */
  datatype Content = Content(conversation: Option<string>, extendedText: Option<string>)

  /** One message of the event: `key.remoteJid`, `key.fromMe` and `message`. */
  datatype Inbound = Inbound(remoteJid: string, fromMe: bool, message: Option<Content>)

  /** The `{ messages, type }` of a `messages.upsert` event. */
  datatype Upsert = Upsert(kind: string, messages: seq<Inbound>)

  /** One `sock.sendMessage(to, { text })`. */
  datatype Outbound = Outbound(to: string, text: string)

  /** The code the handler calls but that is not part of this model. The two
      decoders return None when `JSON.parse` throws. */
  datatype Collaborators = Collaborators(
    decodeBooking: string -> Option<Fields>,
    formatConfirmation: Fields -> string,
    decodeMissing: string -> Option<seq<string>>,
    askForMissingFields: seq<string> -> string,
    hasBookingKeywords: string -> bool)

  const Notify := "notify"
  const BookingDataTag := "BOOKING_DATA:"
  const PartialTag := "PARTIAL_BOOKING:"
  const ListingHeader := "Based on your query, these products may help:\n\n"
  const ListingFooter := "\nFor personalized advice, please describe your symptoms."

  /** The success text; `result.bookingId` is always undefined, because
      saveBooking's result has no such property. */
  const SuccessText := "\U{1F389} Appointment booked successfully!\n\nBooking ID: undefined\n\nOur team will contact you shortly."
  const SaveErrorText := "\U{274C} Sorry, there was an error saving your booking. Please try again."

  /** The outbound messages, in the order they were sent. */
  class Outbox {
    var sent: seq<Outbound>

    constructor ()
      ensures sent == []
    {
      sent := [];
    }

    method Send(to: string, text: string)
      modifies this
      ensures sent == old(sent) + [Outbound(to, text)]
    {
      sent := sent + [Outbound(to, text)];
    }
  }

  // ---------------------------------------------------------------- extraction

  /** `msg.message.conversation || msg.message.extendedTextMessage?.text || ""`. */
  function MessageText(c: Content): (text: string)
    ensures text == "" || (Truthy(c.conversation) && text == c.conversation.value)
                       || (!Truthy(c.conversation) && Truthy(c.extendedText) && text == c.extendedText.value)
    ensures text == "" <==> !Truthy(c.conversation) && !Truthy(c.extendedText)
  {
    if Truthy(c.conversation) then c.conversation.value
    else if Truthy(c.extendedText) then c.extendedText.value
    else ""
  }

  /** `from.split("@")[0]`: the sender's number, which the handler only logs. */
  function JidPhone(jid: string): (phone: string)
    ensures '@' !in phone && StartsWith(jid, phone)
  {
    var pieces := Split(jid, '@');
    JoinStartsWithFirst(pieces, '@');
    pieces[0]
  }

  lemma JoinStartsWithFirst(pieces: seq<string>, sep: char)
    requires |pieces| >= 1
    ensures StartsWith(Join(pieces, sep), pieces[0])
  {
  }

  /** The phone number is exactly the part before the first "@". */
  lemma JidPhoneOf(user: string, server: string)
    requires '@' !in user
    ensures JidPhone(user + ['@'] + server) == user
  {
    SplitAfterPiece(user, '@', server);
  }

  /** The message the handler goes on with, or None when one of the guards
      returns: not a "notify" event, no message (reading `messages[0].message`
      throws before anything is sent), no content, sent by this account, or blank
      text. */
  function Accepted(ev: Upsert): Option<Inbound> {
    if ev.kind != Notify || |ev.messages| == 0 then None
    else
      var m := ev.messages[0];
      if m.message.None? || m.fromMe then None
      else if Trim(MessageText(m.message.value)) == "" then None
      else Some(m)
  }

  // ---------------------------------------------------------------- dispatch

  /** `💊 ${brand_name} (${composition}) - ₹${price}\n` */
  function HandlerLine(p: Product): string {
    "\U{1F48A} " + ProductLine(p)
  }

  function HandlerListing(ps: seq<Product>): string
    decreases |ps|
  {
    if |ps| == 0 then "" else HandlerListing(ps[..|ps| - 1]) + HandlerLine(ps[|ps| - 1])
  }

  /** The handler's own product reply: the header, the first two matches and the
      footer. */
  function HandlerProductReply(matches: seq<Product>): string {
    ListingHeader + HandlerListing(Take(matches, 2)) + ListingFooter
  }

  /** The messages the BOOKING_DATA branch sends: the confirmation, then the
      success text unless saveBooking throws. */
  function BookingDataReplies(from: string, payload: string, env: Collaborators, dbFails: bool): seq<Outbound> {
    match env.decodeBooking(payload)
    case None => [Outbound(from, Apology)]
    case Some(data) =>
      [Outbound(from, env.formatConfirmation(data)),
       Outbound(from, if SaveOutcome(data, dbFails).None? then SaveErrorText else SuccessText)]
  }

  /** The messages sent for `aiResponse`, in the first-match order of the handler. */
  function Dispatch(from: string, text: string, aiResponse: string, catalogue: seq<Product>,
                    env: Collaborators, dbFails: bool): seq<Outbound>
  {
    if StartsWith(aiResponse, BookingDataTag) then
      BookingDataReplies(from, ReplaceFirst(aiResponse, BookingDataTag, ""), env, dbFails)
    else if StartsWith(aiResponse, PartialTag) then
      match env.decodeMissing(ReplaceFirst(aiResponse, PartialTag, ""))
      case None => [Outbound(from, Apology)]
      case Some(missing) => [Outbound(from, env.askForMissingFields(missing))]
    else if aiResponse == BookingIntent then [Outbound(from, BookingTemplate())]
    else if aiResponse == BookingIntent || env.hasBookingKeywords(text) then [Outbound(from, BookingTemplate())]
    else if |FindProduct(catalogue, text)| > 0 then [Outbound(from, HandlerProductReply(FindProduct(catalogue, text)))]
    else [Outbound(from, aiResponse)]
  }

  /** Everything the handler sends for one event. */
  function Replies(ev: Upsert, catalogue: seq<Product>, o: OracleAnswers, env: Collaborators, dbFails: bool): seq<Outbound> {
    match Accepted(ev)
    case None => []
    case Some(m) =>
      var text := MessageText(m.message.value);
      Dispatch(m.remoteJid, text, AiReply(catalogue, text, o), catalogue, env, dbFails)
  }

  /** The booking data the handler stores for one event, if any. */
  function Stored(ev: Upsert, catalogue: seq<Product>, o: OracleAnswers, env: Collaborators, dbFails: bool): Option<Fields> {
    match Accepted(ev)
    case None => None
    case Some(m) => StoredData(AiReply(catalogue, MessageText(m.message.value), o), env, dbFails)
  }

  /** The `messages.upsert` handler. */
  method HandleUpsert(ev: Upsert, catalogue: seq<Product>, o: OracleAnswers, env: Collaborators, dbFails: bool,
                      outbox: Outbox, table: BookingTable)
    requires table.Valid()
    modifies outbox, table
    ensures outbox.sent == old(outbox.sent) + Replies(ev, catalogue, o, env, dbFails)
    ensures table.Valid()
    ensures Stored(ev, catalogue, o, env, dbFails).Some? ==>
              table.rows == old(table.rows) + [NewRow(old(table.nextId), Stored(ev, catalogue, o, env, dbFails).value)]
              && table.nextId == old(table.nextId) + 1
    ensures Stored(ev, catalogue, o, env, dbFails).None? ==> table.rows == old(table.rows) && table.nextId == old(table.nextId)
  {
    if ev.kind != Notify || |ev.messages| == 0 {
      return;
    }
    var msg := ev.messages[0];
    if msg.message.None? || msg.fromMe {
      return;
    }
    var from := msg.remoteJid;
    var text := MessageText(msg.message.value);
    if Trim(text) == "" {
      return;
    }
    assert Accepted(ev) == Some(msg);
    var aiResponse := ProcessMessage(catalogue, text, o);
    Respond(from, text, aiResponse, catalogue, env, dbFails, outbox, table);
  }

  /** Lines 64–122 of the handler, for an accepted message. */
  method Respond(from: string, text: string, aiResponse: string, catalogue: seq<Product>, env: Collaborators,
                 dbFails: bool, outbox: Outbox, table: BookingTable)
    requires table.Valid()
    modifies outbox, table
    ensures outbox.sent == old(outbox.sent) + Dispatch(from, text, aiResponse, catalogue, env, dbFails)
    ensures table.Valid()
    ensures StoredData(aiResponse, env, dbFails).Some? ==>
              table.rows == old(table.rows) + [NewRow(old(table.nextId), StoredData(aiResponse, env, dbFails).value)]
              && table.nextId == old(table.nextId) + 1
    ensures StoredData(aiResponse, env, dbFails).None? ==> table.rows == old(table.rows) && table.nextId == old(table.nextId)
  {
    if StartsWith(aiResponse, BookingDataTag) {
      ConfirmAndSave(from, ReplaceFirst(aiResponse, BookingDataTag, ""), env, dbFails, outbox, table);
      return;
    }
    if StartsWith(aiResponse, PartialTag) {
      var data := env.decodeMissing(ReplaceFirst(aiResponse, PartialTag, ""));
      if data.None? {
        outbox.Send(from, Apology);
        return;
      }
      outbox.Send(from, env.askForMissingFields(data.value));
      return;
    }
    if aiResponse == BookingIntent {
      outbox.Send(from, BookingTemplate());
      return;
    }
    if aiResponse == BookingIntent || env.hasBookingKeywords(text) {
      outbox.Send(from, BookingTemplate());
      return;
    }
    var matchedProducts := FindProduct(catalogue, text);
    if |matchedProducts| > 0 {
      var responseText := ListProducts(matchedProducts);
      outbox.Send(from, responseText);
      return;
    }
    outbox.Send(from, aiResponse);
  }

  /** Lines 109–117: the handler's own listing of the first two matches. */
  method ListProducts(matchedProducts: seq<Product>) returns (responseText: string)
    ensures responseText == HandlerProductReply(matchedProducts)
  {
    responseText := ListingHeader;
    var shown := Take(matchedProducts, 2);
    for i := 0 to |shown|
      invariant responseText == ListingHeader + HandlerListing(shown[..i])
    {
      assert shown[..i + 1][..i] == shown[..i];
      responseText := responseText + HandlerLine(shown[i]);
    }
    assert shown[..|shown|] == shown;
    responseText := responseText + ListingFooter;
  }

  /** Lines 66–85: decode, confirm, save, and report the save. */
  method ConfirmAndSave(from: string, payload: string, env: Collaborators, dbFails: bool,
                        outbox: Outbox, table: BookingTable)
    requires table.Valid()
    modifies outbox, table
    ensures outbox.sent == old(outbox.sent) + BookingDataReplies(from, payload, env, dbFails)
    ensures table.Valid()
    ensures var d := env.decodeBooking(payload);
            if d.Some? && Complete(d.value) && !dbFails
            then table.rows == old(table.rows) + [NewRow(old(table.nextId), d.value)] && table.nextId == old(table.nextId) + 1
            else table.rows == old(table.rows) && table.nextId == old(table.nextId)
  {
    var bookingData := env.decodeBooking(payload);
    if bookingData.None? {
      // JSON.parse throws; the outer catch sends the apology
      outbox.Send(from, Apology);
      return;
    }
    outbox.Send(from, env.formatConfirmation(bookingData.value));
    var result := table.Save(bookingData.value, dbFails);
    if result.None? {
      outbox.Send(from, SaveErrorText);
    } else {
      outbox.Send(from, SuccessText);
    }
  }

  /** The booking data Respond stores for a reply, if any. */
  function StoredData(aiResponse: string, env: Collaborators, dbFails: bool): Option<Fields> {
    if !StartsWith(aiResponse, BookingDataTag) then None
    else match env.decodeBooking(ReplaceFirst(aiResponse, BookingDataTag, ""))
      case None => None
      case Some(data) => if Complete(data) && !dbFails then Some(data) else None
  }

  // ---------------------------------------------------------------- properties

  /** Every branch of the dispatch sends one message to the sender, except the
      BOOKING_DATA branch with a readable payload, which sends two. */
  lemma DispatchShape(from: string, text: string, aiResponse: string, catalogue: seq<Product>,
                      env: Collaborators, dbFails: bool)
    ensures var r := Dispatch(from, text, aiResponse, catalogue, env, dbFails);
            && 1 <= |r| <= 2
            && (forall i | 0 <= i < |r| :: r[i].to == from)
            && (|r| == 2 <==> StartsWith(aiResponse, BookingDataTag)
                               && env.decodeBooking(aiResponse[|BookingDataTag|..]).Some?)
  {
    if StartsWith(aiResponse, BookingDataTag) {
      ReplacePrefix(aiResponse, BookingDataTag);
    }
  }

  /** Nothing is sent exactly when a guard returns early. */
  lemma SilentExactlyOnGuards(ev: Upsert, catalogue: seq<Product>, o: OracleAnswers, env: Collaborators, dbFails: bool)
    ensures Replies(ev, catalogue, o, env, dbFails) == [] <==>
              || ev.kind != Notify
              || |ev.messages| == 0
              || ev.messages[0].message.None?
              || ev.messages[0].fromMe
              || Trim(MessageText(ev.messages[0].message.value)) == ""
  {
    match Accepted(ev)
    case None =>
    case Some(m) =>
      var text := MessageText(m.message.value);
      DispatchShape(m.remoteJid, text, AiReply(catalogue, text, o), catalogue, env, dbFails);
  }

  /** Only the first message of an event is looked at. */
  lemma OnlyFirstMessage(kind: string, m: Inbound, rest: seq<Inbound>, catalogue: seq<Product>,
                         o: OracleAnswers, env: Collaborators, dbFails: bool)
    ensures Replies(Upsert(kind, [m] + rest), catalogue, o, env, dbFails) == Replies(Upsert(kind, [m]), catalogue, o, env, dbFails)
    ensures Stored(Upsert(kind, [m] + rest), catalogue, o, env, dbFails) == Stored(Upsert(kind, [m]), catalogue, o, env, dbFails)
  {
    assert Accepted(Upsert(kind, [m] + rest)) == Accepted(Upsert(kind, [m]));
  }

  /** The dispatch with the unreachable `aiResponse === "INTENT:BOOKING"` test of
      line 101 removed. */
  function DispatchWithoutDeadTest(from: string, text: string, aiResponse: string, catalogue: seq<Product>,
                                   env: Collaborators, dbFails: bool): seq<Outbound>
  {
    if StartsWith(aiResponse, BookingDataTag) then
      BookingDataReplies(from, ReplaceFirst(aiResponse, BookingDataTag, ""), env, dbFails)
    else if StartsWith(aiResponse, PartialTag) then
      match env.decodeMissing(ReplaceFirst(aiResponse, PartialTag, ""))
      case None => [Outbound(from, Apology)]
      case Some(missing) => [Outbound(from, env.askForMissingFields(missing))]
    else if aiResponse == BookingIntent then [Outbound(from, BookingTemplate())]
    else if env.hasBookingKeywords(text) then [Outbound(from, BookingTemplate())]
    else if |FindProduct(catalogue, text)| > 0 then [Outbound(from, HandlerProductReply(FindProduct(catalogue, text)))]
    else [Outbound(from, aiResponse)]
  }

  /** The first disjunct of line 101 is never what makes that branch fire. */
  lemma FallbackTestIsKeywordsOnly(from: string, text: string, aiResponse: string, catalogue: seq<Product>,
                                   env: Collaborators, dbFails: bool)
    ensures Dispatch(from, text, aiResponse, catalogue, env, dbFails)
            == DispatchWithoutDeadTest(from, text, aiResponse, catalogue, env, dbFails)
  {
  }

  /** The success text is sent whenever saveBooking does not throw, also when it
      reports incomplete data; the error text only when the insert fails. */
  lemma SuccessTextUnlessInsertFails(from: string, text: string, aiResponse: string, catalogue: seq<Product>,
                                     env: Collaborators, dbFails: bool, data: Fields)
    requires StartsWith(aiResponse, BookingDataTag)
    requires env.decodeBooking(aiResponse[|BookingDataTag|..]) == Some(data)
    ensures Dispatch(from, text, aiResponse, catalogue, env, dbFails)[0] == Outbound(from, env.formatConfirmation(data))
    ensures |Dispatch(from, text, aiResponse, catalogue, env, dbFails)| == 2
    ensures !Complete(data) ==> Dispatch(from, text, aiResponse, catalogue, env, dbFails)[1] == Outbound(from, SuccessText)
    ensures Dispatch(from, text, aiResponse, catalogue, env, dbFails)[1] == Outbound(from, SaveErrorText)
            <==> Complete(data) && dbFails
  {
    ReplacePrefix(aiResponse, BookingDataTag);
    SaveErrorDiffersFromSuccess();
  }

  lemma SaveErrorDiffersFromSuccess()
    ensures SaveErrorText != SuccessText
  {
    assert |SaveErrorText| != |SuccessText|;
  }

  /** The product reply of processMessage carries no tag and is not the booking
      intent. */
  lemma ProductReplyUntagged(matches: seq<Product>)
    ensures !StartsWith(ProductReply(matches), BookingDataTag)
    ensures !StartsWith(ProductReply(matches), PartialTag)
    ensures ProductReply(matches) != BookingIntent
  {
    assert ProductReply(matches)[0] == ProductHeader[0] == 'H';
  }

  /** The apology carries no tag and is not the booking intent. */
  lemma ApologyUntagged()
    ensures !StartsWith(Apology, BookingDataTag) && !StartsWith(Apology, PartialTag) && Apology != BookingIntent
  {
    assert Apology[0] == 'S' && |Apology| != |BookingIntent|;
  }

  /** processMessage's product reply is never sent: when the text mentions
      products and has no booking keywords, the handler sends its own listing
      of the first two matches instead. */
  lemma ProductReplyReplaced(ev: Upsert, catalogue: seq<Product>, o: OracleAnswers, env: Collaborators, dbFails: bool)
    requires Accepted(ev).Some?
    requires var text := MessageText(ev.messages[0].message.value);
             |FindProduct(catalogue, text)| > 0 && !env.hasBookingKeywords(text)
    ensures var text := MessageText(ev.messages[0].message.value);
            Replies(ev, catalogue, o, env, dbFails)
            == [Outbound(ev.messages[0].remoteJid, HandlerProductReply(FindProduct(catalogue, text)))]
  {
    var text := MessageText(ev.messages[0].message.value);
    ProductFirst(catalogue, text, o, o);
    FindProductIgnoresQueryCase(catalogue, text);
    ProductReplyUntagged(FindProduct(catalogue, Lower(text)));
  }

  /** With no product and no booking keyword, a failed intent check reaches the
      customer as the apology. */
  lemma FailedCheckSendsApology(ev: Upsert, catalogue: seq<Product>, o: OracleAnswers, env: Collaborators, dbFails: bool)
    requires Accepted(ev).Some?
    requires var text := MessageText(ev.messages[0].message.value);
             |FindProduct(catalogue, text)| == 0 && !env.hasBookingKeywords(text)
    requires o.bookingVerdict.None? || o.symptomVerdict.None?
    ensures Replies(ev, catalogue, o, env, dbFails) == [Outbound(ev.messages[0].remoteJid, Apology)]
  {
    var text := MessageText(ev.messages[0].message.value);
    FailureGivesApology(catalogue, text, o);
    ApologyUntagged();
  }

  /** A positive booking verdict, with no product mentioned, gets the template. */
  lemma BookingVerdictSendsTemplate(ev: Upsert, catalogue: seq<Product>, o: OracleAnswers, env: Collaborators, dbFails: bool)
    requires Accepted(ev).Some?
    requires |FindProduct(catalogue, MessageText(ev.messages[0].message.value))| == 0
    requires o.bookingVerdict.Some? && o.symptomVerdict.Some? && IsVerdict(o.bookingVerdict.value, BookingWord)
    ensures Replies(ev, catalogue, o, env, dbFails) == [Outbound(ev.messages[0].remoteJid, BookingTemplate())]
    ensures Stored(ev, catalogue, o, env, dbFails).None?
  {
    BookingBeatsSymptom(catalogue, MessageText(ev.messages[0].message.value), o, "");
    assert BookingIntent[0] == 'I';
  }

  /** Only a complete booking, decoded from a BOOKING_DATA reply and inserted
      without error, is stored. */
  lemma StoredIsComplete(ev: Upsert, catalogue: seq<Product>, o: OracleAnswers, env: Collaborators, dbFails: bool)
    requires Stored(ev, catalogue, o, env, dbFails).Some?
    ensures Complete(Stored(ev, catalogue, o, env, dbFails).value) && !dbFails
    ensures |Replies(ev, catalogue, o, env, dbFails)| == 2
            && Replies(ev, catalogue, o, env, dbFails)[1].text == SuccessText
  {
    var m := Accepted(ev).value;
    var aiResponse := AiReply(catalogue, MessageText(m.message.value), o);
    ReplacePrefix(aiResponse, BookingDataTag);
  }
}
