/** `handle_incoming_message`: from one Telegram message to the outbound calls it makes.
    The answers of those calls are parameters: `lookup` is what `getFile` returned for the
    last photo and `outcome` what `run_receipt_agent` did; the answer to `sendMessage` is
    irrelevant because a failed send is only logged. */
module MessageHandler {
  import opened Wrappers
  import opened Json
  import opened Receipts
  import opened Extraction
  import opened ReceiptFormat
  import opened TelegramClient

  /** An outbound call, in the order the handler makes it. */
  datatype Call = Telegram(request: Request) | Agent(path: ReceiptPath, text: Json)

  const InvalidReceiptReply := "The provided image was not recognized as a valid receipt."
  const ProcessingFailedReply := "Sorry, I couldn't process the receipt. Please try again later."
  const HtmlParseMode := "HTML"

  /** `message["chat"]["id"]`; `None` when either subscript raises. */
  function ChatId(message: Json): (r: Option<Json>)
    ensures r.Some? <==> message.JObj? && "chat" in message.fields &&
                         message.fields["chat"].JObj? && "id" in message.fields["chat"].fields
    ensures r.Some? ==> r.value == message.fields["chat"].fields["id"]
  {
    match Subscript(message, "chat")
    case Some(chat) => Subscript(chat, "id")
    case None => None
  }

  /** `message.get("photo")` (the message is a dict whenever this is reached). */
  function Photos(message: Json): Json {
    if message.JObj? then Get(message.fields, "photo", JNull) else JNull
  }

  /** `photo[-1]["file_id"]` on a truthy `photo`; `None` when it raises, which it does
      unless `photo` is a list whose last element is a dict with a `file_id`. */
  function LastFileId(photo: Json): (r: Option<Json>)
    ensures r.Some? ==> photo.JArr? && |photo.items| > 0 &&
                        r == Subscript(photo.items[|photo.items| - 1], "file_id")
  {
    if photo.JArr? && |photo.items| > 0 then Subscript(photo.items[|photo.items| - 1], "file_id") else None
  }

  /** `get_photo_url` as the handler sees it: an API error leaves the URL unset. */
  function ResolvedUrl(token: string, lookup: FileLookup): Option<string> {
    match lookup
    case FileFound(info) => PhotoUrl(token, info)
    case FileApiError(_) => None
  }

  /** The message raises before any call: no chat id, or a photo field that
      `photo[-1]["file_id"]` cannot index. */
  predicate Aborts(message: Json) {
    ChatId(message).None? || (Truthy(Photos(message)) && LastFileId(Photos(message)).None?)
  }

  /** The handler gets as far as running the agent and replying. */
  predicate Replies(token: string, message: Json, lookup: FileLookup) {
    !Aborts(message) && Truthy(Photos(message)) && ResolvedUrl(token, lookup).Some?
  }

  method HandleIncomingMessage(token: string, message: Json, lookup: FileLookup,
                               outcome: CallOutcome, render: Renderers)
    returns (calls: seq<Call>, aborted: bool)
    // an uncaught KeyError/TypeError happens before any call is made
    ensures aborted <==> Aborts(message)
    ensures aborted ==> calls == []
    // no photo: nothing is looked up and nothing is sent
    ensures !Truthy(Photos(message)) ==> calls == []
    // a photo: only the LAST photo's file_id is looked up, first
    ensures !aborted && Truthy(Photos(message)) ==>
              |calls| >= 1 && calls[0] == Telegram(GetFile(token, LastFileId(Photos(message)).value))
    // lookup failed or gave no path: no agent run and no reply
    ensures !Replies(token, message, lookup) ==> |calls| <= 1
    // otherwise: one agent run, on the URL and with no text, then exactly one send to chat.id
    ensures Replies(token, message, lookup) ==>
              && |calls| == 3
              && calls[1] == Agent(UrlString(ResolvedUrl(token, lookup).value), JNull)
              && calls[2].Telegram?
              && calls[2].request.url == BaseUrl(token) + "/sendMessage"
              && calls[2].request.data.Some?
              && "chat_id" in calls[2].request.data.value
              && calls[2].request.data.value["chat_id"] == ChatId(message).value
    ensures Replies(token, message, lookup) && outcome.Returned? && outcome.value.Some? && outcome.value.value.Info? ==>
              IsSendMessage(calls[2].request, token, ChatId(message).value,
                            JStr(FormatHtml(outcome.value.value.info, render)), Some(HtmlParseMode))
    ensures Replies(token, message, lookup) && outcome == Returned(Some(Invalid)) ==>
              IsSendMessage(calls[2].request, token, ChatId(message).value, JStr(InvalidReceiptReply), None)
    ensures Replies(token, message, lookup) && outcome.Raised? ==>
              IsSendMessage(calls[2].request, token, ChatId(message).value, JStr(ProcessingFailedReply), None)
    // the root agent's `None` matches neither isinstance test: `text` stays None
    ensures Replies(token, message, lookup) && outcome == Returned(None) ==>
              IsSendMessage(calls[2].request, token, ChatId(message).value, JNull, None)
  {
    calls, aborted := [], false;
    var chatRef := ChatId(message);
    if chatRef.None? {
      return [], true;
    }
    var chatId := chatRef.value;
    // message is a dict here, since message["chat"] succeeded
    var text := Or(Get(message.fields, "text", JNull), Get(message.fields, "caption", JNull));
    var photo, photoUrl := Photos(message), None;
    if Truthy(photo) {
      var fileId := LastFileId(photo);
      if fileId.None? {
        return [], true;
      }
      calls := calls + [Telegram(GetFile(token, fileId.value))];
      match lookup {
        case FileFound(info) =>
          photoUrl := PhotoUrl(token, info);
        case FileApiError(_) =>
      }
    }
    if TruthyText(photoUrl) {
      var parseMode: Option<string>;
      text, parseMode := JNull, None;
      calls := calls + [Agent(UrlString(photoUrl.value), text)];
      match outcome {
        case Returned(Some(Info(receipt))) =>
          text := JStr(FormatHtml(receipt, render));
          parseMode := Some(HtmlParseMode);
        case Returned(Some(Invalid)) =>
          text := JStr(InvalidReceiptReply);
        case Returned(None) =>
        case Raised(_) =>
          text := JStr(ProcessingFailedReply);
      }
      var send := SendMessage(token, chatId, text, parseMode);
      calls := calls + [Telegram(send)];
    } else {
      PhotoUrlTruthyAt(token, lookup, photoUrl);
    }
  }

  /** Helper: an unset or empty URL means no URL was resolved. */
  lemma PhotoUrlTruthyAt(token: string, lookup: FileLookup, photoUrl: Option<string>)
    requires photoUrl.None? || (lookup.FileFound? && photoUrl == PhotoUrl(token, lookup.info))
    requires !TruthyText(photoUrl)
    ensures photoUrl.None?
  {
    if lookup.FileFound? {
      PhotoUrlTruthy(token, lookup.info);
    }
  }

  /** The scenario of a two-photo message: the handler asks for the URL of the last photo,
      `"b"`, and never for `"a"`. */
  lemma LastPhotoIsLookedUp()
    ensures var a := JObj(map["file_id" := JStr("a")]);
            var b := JObj(map["file_id" := JStr("b")]);
            var m := JObj(map["chat" := JObj(map["id" := JNum(42)]), "photo" := JArr([a, b])]);
            !Aborts(m) && Truthy(Photos(m)) && LastFileId(Photos(m)) == Some(JStr("b"))
  {
    var a := JObj(map["file_id" := JStr("a")]);
    var b := JObj(map["file_id" := JStr("b")]);
    var m := JObj(map["chat" := JObj(map["id" := JNum(42)]), "photo" := JArr([a, b])]);
    assert Photos(m) == JArr([a, b]);
  }
}
