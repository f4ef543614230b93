/** `TelegramBotClient`: the requests it sends to the Bot API. The transport
    (`_make_request`: httpx, `raise_for_status`, JSON decoding) is the caller's oracle,
    which answers a request with a result or a `TelegramBotAPIError`. */
module TelegramClient {
  import opened Wrappers
  import opened Json

  const ApiOrigin := "https://api.telegram.org"

  /** `base_url` of a client built with `bot_token`. */
  function BaseUrl(token: string): string {
    ApiOrigin + "/bot" + token
  }

  /** `file_base_url` of a client built with `bot_token`. */
  function FileBaseUrl(token: string): string {
    ApiOrigin + "/file/bot" + token
  }

  datatype HttpMethod = HttpGet | HttpPost

  /** The arguments of one `_make_request` call, resolved to the URL httpx is given. */
  datatype Request = Request(verb: HttpMethod, url: string,
                             params: Option<map<string, Json>>, data: Option<map<string, Json>>)

  function MakeRequest(token: string, verb: HttpMethod, endpoint: string,
                       params: Option<map<string, Json>>, data: Option<map<string, Json>>): (r: Request)
    ensures r.url == BaseUrl(token) + "/" + endpoint
  {
    Request(verb, BaseUrl(token) + "/" + endpoint, params, data)
  }

  /** The form a `sendMessage` call posts: `chat_id` and `text` always, `parse_mode` only
      when it was given and non-empty, and nothing else. */
  predicate IsSendMessage(r: Request, token: string, chatId: Json, text: Json, parseMode: Option<string>) {
    && r.verb == HttpPost
    && r.url == BaseUrl(token) + "/sendMessage"
    && r.params.None?
    && r.data.Some?
    && r.data.value.Keys == {"chat_id", "text"} + (if TruthyText(parseMode) then {"parse_mode"} else {})
    && r.data.value["chat_id"] == chatId
    && r.data.value["text"] == text
    && (TruthyText(parseMode) ==> r.data.value["parse_mode"] == JStr(parseMode.value))
  }

  /** `send_message`: the request it hands to `_make_request`. */
  method SendMessage(token: string, chatId: Json, text: Json, parseMode: Option<string>)
    returns (r: Request)
    ensures IsSendMessage(r, token, chatId, text, parseMode)
  {
    var data := map["chat_id" := chatId, "text" := text];
    if TruthyText(parseMode) {
      data := data["parse_mode" := JStr(parseMode.value)];
    }
    r := MakeRequest(token, HttpPost, "sendMessage", None, Some(data));
  }

  /** `get_file`: a GET with the single query parameter `file_id`. */
  function GetFile(token: string, fileId: Json): (r: Request)
    ensures r.verb == HttpGet && r.url == BaseUrl(token) + "/getFile"
    ensures r.params == Some(map["file_id" := fileId]) && r.data.None?
  {
    MakeRequest(token, HttpGet, "getFile", Some(map["file_id" := fileId]), None)
  }

  /** What `getFile` answered: the `result` object (`{}` when the reply had none), its
      fields rendered as text, or a `TelegramBotAPIError`. */
  datatype FileLookup = FileFound(info: map<string, string>) | FileApiError(message: string)

  /** `get_photo_url` once `get_file` returned `info`: the download URL under the file base
      URL when the result is non-empty and has a `file_path`, and `None` otherwise. The
      URL always names the file's path after the client's file base URL. */
  function PhotoUrl(token: string, info: map<string, string>): (url: Option<string>)
    ensures url.Some? <==> info != map[] && "file_path" in info
    ensures url.Some? ==>
              var prefix := FileBaseUrl(token) + "/";
              |prefix| <= |url.value| && url.value[..|prefix|] == prefix &&
              url.value[|prefix|..] == info["file_path"]
  {
    if info != map[] && "file_path" in info then
      Some(FileBaseUrl(token) + "/" + info["file_path"])
    else
      None
  }

  /** A resolved photo URL is non-empty, so the handler's `if photo_url:` holds exactly
      when a URL was found. */
  lemma PhotoUrlTruthy(token: string, info: map<string, string>)
    ensures TruthyText(PhotoUrl(token, info)) <==> PhotoUrl(token, info).Some?
  {
    var url := PhotoUrl(token, info);
    if url.Some? {
      assert url.value[0] == 'h';
    }
  }

  /** The form a `setWebhook` call posts: `url` always, `secret_token` only when one is
      configured and non-empty. */
  predicate IsSetWebhook(r: Request, token: string, webhookUrl: string, secret: Option<string>) {
    && r.verb == HttpPost
    && r.url == BaseUrl(token) + "/setWebhook"
    && r.params.None?
    && r.data.Some?
    && r.data.value.Keys == {"url"} + (if TruthyText(secret) then {"secret_token"} else {})
    && r.data.value["url"] == JStr(webhookUrl)
    && (TruthyText(secret) ==> r.data.value["secret_token"] == JStr(secret.value))
  }

  /** `set_webhook`: the request it hands to `_make_request`. */
  method SetWebhook(token: string, webhookUrl: string, secret: Option<string>) returns (r: Request)
    ensures IsSetWebhook(r, token, webhookUrl, secret)
  {
    var data := map["url" := JStr(webhookUrl)];
    if TruthyText(secret) {
      data := data["secret_token" := JStr(secret.value)];
    }
    r := MakeRequest(token, HttpPost, "setWebhook", None, Some(data));
  }

  /** `delete_webhook`: a POST of the single field `drop_pending_updates`. */
  function DeleteWebhook(token: string, dropPendingUpdates: bool): (r: Request)
    ensures r.verb == HttpPost && r.url == BaseUrl(token) + "/deleteWebhook" && r.params.None?
    ensures r.data == Some(map["drop_pending_updates" := JBool(dropPendingUpdates)])
  {
    MakeRequest(token, HttpPost, "deleteWebhook", None, Some(map["drop_pending_updates" := JBool(dropPendingUpdates)]))
  }

  /** `get_webhook_info`: a bare GET. */
  function GetWebhookInfo(token: string): (r: Request)
    ensures r.verb == HttpGet && r.url == BaseUrl(token) + "/getWebhookInfo"
    ensures r.params.None? && r.data.None?
  {
    MakeRequest(token, HttpGet, "getWebhookInfo", None, None)
  }

  /** Download URLs and API method URLs are disjoint: a file URL never addresses an API
      method of the same bot, whatever the token and path. */
  lemma FileUrlsAreNotMethodUrls(token: string, path: string, endpoint: string)
    ensures FileBaseUrl(token) + "/" + path != BaseUrl(token) + "/" + endpoint
  {
    var f := FileBaseUrl(token) + "/" + path;
    var m := BaseUrl(token) + "/" + endpoint;
    assert f[|ApiOrigin| + 1] == 'f';
    assert m[|ApiOrigin| + 1] == 'b';
  }
}
