# Receipt agent: a Dafny model of its decision and request-building logic

The receipt agent is a Telegram bot. A Telegram webhook delivers a message with a receipt
photo. The bot resolves the photo's download URL through the Bot API and asks an LLM agent
to extract the receipt's fields. It answers with an HTML summary, a "not a valid receipt"
text or an apology. A command-line variant runs the same extraction on a local file, and a
persistence helper stores an extracted receipt as a database row.

This project models the logic between those external services. Every service is a
parameter:

- the `getFile` answer (`TelegramClient.FileLookup`);
- the outcome of the extraction call (`Extraction.CallOutcome`);
- the LLM's reply as a function of the content it is sent (`llm: UserContent -> ModelReply`);
- whether `setWebhook` succeeded;
- what `ngrok.connect` did;
- the date and amount renderers used by the reply template.

Modules, one per file:

| module | models |
|---|---|
| `Json` | request bodies and Telegram messages as decoded JSON, with Python truthiness |
| `Receipts` | `ReceiptInfo`, `InvalidReceipt` and the declared field constraints, including pydantic's digit and decimal-place check on `Decimal` |
| `Extraction` | `run_receipt_agent` in `app/agent.py` and in the root `agent.py`: input selection, content assembly, error mapping |
| `ReceiptFormat` | the payment-method display rule and the reply template |
| `TelegramClient` | the Bot API base URLs and the requests `send_message`, `get_file`, `get_photo_url`, `set_webhook`, `delete_webhook` and `get_webhook_info` build |
| `MessageHandler` | `handle_incoming_message` as the sequence of outbound calls it makes |
| `WebhookEndpoint` | the secret-header dependency and the `webhook` scheduling rule |
| `Lifespan` | start-up registration, rollback and teardown as a sequence of actions |
| `Cli` | `main` in main.py: log lines and exit status |
| `Persistence` | `save_receipt_into_db` over a store of rows with an id counter |

Where the code differs from its docstrings and tests, the model follows the code:

- **Secret check.** `require_valid_api_secret_token` declares the header as a required
  `str` and compares it with `TELEGRAM_BOT_SECRET_TOKEN`, which is `None` when unset. So a
  missing header is FastAPI's 422 validation error, not a 401. With no secret configured,
  every request is rejected. The test suite describes a later revision with a settings
  object. In that revision a missing header gets 401 "header missing", and with no
  configured secret a request without the header is accepted. That a request which does
  send a header is also accepted when no secret is set is an assumption of this model;
  the tests show only a request without the header. `CheckSecretTested` models that revision, and
  `RevisionsOfSecretCheck` states where the two agree and where they differ.
- **Agent text.** `handle_incoming_message` computes the caption text, then sets `text` to
  `None` before calling the agent. The agent never sees the caption.
- **Handler with the root agent.** The handler imports `run_receipt_agent` from the root
  `agent.py`. That variant returns `None` on failure and defines no
  `ReceiptProcessingError`. A `None` result matches neither `isinstance` test, so the
  handler sends a message whose `text` is `None`. The model includes this case; it is the
  `Returned(None)` outcome.
- **Broken imports.** `telegram_webhook.py` and `main.py` import `ReceiptProcessingError`
  from the root `agent.py`, which does not define it. The model assumes the
  imported name behaves as its namesake in `app/agent.py`.
- **Database session.** `app/operations.py` imports `db_session`, but `app/db.py` defines
  only `async_db_session`, an async context manager yielding an `AsyncSession`.
  `save_receipt_into_db` as written could not use it: the synchronous `with` fails before
  any row is built, and its `commit` and `refresh` calls are not awaited. The model
  assumes `db_session` is a synchronous session context manager (add, commit, refresh),
  and `ReceiptStore` is that working session.

## Model

| member | source | states |
|---|---|---|
| `Receipts.NumDigits` | app/agent.py:29-36 | the digit count of a number `n` is the `r` with `10^(r-1) <= n < 10^r` (zero has one digit) |
| `Receipts.Normalize` | app/agent.py:29-36 | normalising a decimal keeps its value and leaves no trailing fractional zero |
| `Receipts.FitsDecimalMeaning` | app/agent.py:29-36 | the `max_digits`/`decimal_places` check holds exactly when the normalised value has at most `places` decimals and magnitude below `10^(maxDigits - places)` |
| `Receipts.FitsDecimal` | app/agent.py:29-36 | pydantic's `max_digits`/`decimal_places` check as it runs on the normalised decimal: digit count, decimal places and whole digits each within their bound |
| `Receipts.ValidReceiptInfo` | app/agent.py:29-39 | the constraints `ReceiptInfo` declares: total within 10 digits and 2 places, tip within 5 digits and 2 places, payment method one of the five literals |
| `Receipts.ValidOutput` | app/agent.py:78 | an `InvalidReceipt` always meets the output type's constraints; a `ReceiptInfo` meets them when its fields do |
| `Receipts.ValidReceiptInfoMeaning` | app/agent.py:29-39 | a receipt is valid exactly when its method is listed, its normalised total has at most 2 decimals and is below 10^8, and its normalised tip has at most 2 decimals and is below 10^3 |
| `Receipts.TotalExampleValid` | app/agent.py:29-31 | 19.99 satisfies the `total_amount` constraint (10 digits, 2 places) |
| `Receipts.TotalExampleTooPrecise` | app/agent.py:29-31 | 0.001 violates the `total_amount` constraint |
| `Receipts.TipExampleTooLarge` | app/agent.py:32-36 | 1000.00 violates the `tip` constraint (5 digits, 2 places), whatever its trailing zeros |
| `Extraction.SelectImage` | app/agent.py:115-119 | a string becomes `ImageUrl(url)`; a path becomes `BinaryContent` of its bytes with media type `image/png` |
| `Extraction.AssembleContent` | app/agent.py:121 | the content tuple: `(text, image)` when the text is non-empty, `(image,)` otherwise |
| `Extraction.AssembleContentRecovers` | app/agent.py:121 | the content carries the image last, and the text first exactly when the text is non-empty |
| `Extraction.RunAgent` | app/agent.py:78-85 | a run succeeds exactly when the provider replied with an output satisfying the declared constraints, and then yields that one `ReceiptInfo` or `InvalidReceipt` |
| `Extraction.RunReceiptAgent` | app/agent.py:94-128 | the result is the run's output when it succeeds, else `ReceiptProcessingError` with "Error processing receipt: " and the run error's text |
| `Extraction.ProviderFailureIsNotInvalid` | app/agent.py:123-128 | a provider failure is re-raised as `ReceiptProcessingError`, never turned into `InvalidReceipt`; the root variant returns `None` |
| `Extraction.RunReceiptAgentOrNone` | agent.py:77-92 | the root variant returns `None` exactly when the run fails, and the run's output unchanged otherwise |
| `Extraction.RevisionsAgree` | agent.py:77-92 | the root variant returns `None` exactly where `app/agent.py` raises, and the same output everywhere else |
| `ReceiptFormat.ReplaceChar` | telegram_webhook.py:310 | `replace` keeps the length and swaps exactly the matching characters |
| `ReceiptFormat.TitleFrom` | telegram_webhook.py:310 | `title()` upper-cases a letter after a non-letter, lower-cases a letter after a letter, keeps everything else |
| `ReceiptFormat.PaymentMethodDisplay` | telegram_webhook.py:310 | the display has the method's length, no underscore, and a space exactly where the method had `_` or a space |
| `ReceiptFormat.DisplayAt` | telegram_webhook.py:310 | for a lower-case identifier: `_` shows as a space, a word's first letter is capitalised, other letters are kept |
| `ReceiptFormat.DisplayRoundTrip` | telegram_webhook.py:310 | turning spaces back to `_` and lower-casing recovers the payment method from its display |
| `ReceiptFormat.PaymentMethodsAreIdentifiers` | app/agent.py:37 | each of the five `Literal` payment methods is a lower-case identifier, so the display lemmas apply to all of them |
| `ReceiptFormat.ValidPaymentMethodRoundTrip` | telegram_webhook.py:310 | for every receipt that passed validation, the payment method is recovered from its display |
| `ReceiptFormat.DisplayInjective` | telegram_webhook.py:310 | two payment-method spellings with the same display are equal |
| `ReceiptFormat.DisplayCreditCard` | telegram_webhook.py:310 | `credit_card` shows as "Credit Card" |
| `ReceiptFormat.DisplayDebitCard` | telegram_webhook.py:310 | `debit_card` shows as "Debit Card" |
| `ReceiptFormat.DisplayTransfer` | telegram_webhook.py:310 | `transfer` shows as "Transfer" |
| `ReceiptFormat.DisplayYape` | telegram_webhook.py:310 | `yape` shows as "Yape" |
| `ReceiptFormat.DisplayPlin` | telegram_webhook.py:310 | `plin` shows as "Plin" |
| `ReceiptFormat.FormatHtml` | telegram_webhook.py:299-322 | the reply opens with the "Receipt Details" heading, has the tip's line followed by the payment method's display, and closes with the note line |
| `TelegramClient.BaseUrl` | telegram_webhook.py:55 | the API base URL `https://api.telegram.org/bot<token>` |
| `TelegramClient.FileBaseUrl` | telegram_webhook.py:56 | the download base URL `https://api.telegram.org/file/bot<token>` |
| `TelegramClient.MakeRequest` | telegram_webhook.py:58-88 | a request goes to the base URL, `/`, then the endpoint, with the verb, query parameters and form data it was given |
| `TelegramClient.SendMessage` | telegram_webhook.py:90-111 | posts `chat_id` and `text` to `sendMessage`, adds `parse_mode` only when it is non-empty, and sends no other field |
| `TelegramClient.GetFile` | telegram_webhook.py:113-124 | a GET to `getFile` with the single query parameter `file_id` |
| `TelegramClient.PhotoUrl` | telegram_webhook.py:126-139 | a URL exactly when the file info is non-empty and has `file_path`; the URL is the file base URL, `/`, then the path |
| `TelegramClient.PhotoUrlTruthy` | telegram_webhook.py:349 | a resolved URL is never empty, so `if photo_url:` holds exactly when one was found |
| `TelegramClient.SetWebhook` | telegram_webhook.py:141-159 | posts `url` to `setWebhook` and adds `secret_token` only when it is non-empty |
| `TelegramClient.DeleteWebhook` | telegram_webhook.py:161-173 | posts the single field `drop_pending_updates` to `deleteWebhook` |
| `TelegramClient.GetWebhookInfo` | telegram_webhook.py:175-185 | a bare GET to `getWebhookInfo` |
| `TelegramClient.FileUrlsAreNotMethodUrls` | telegram_webhook.py:53-56 | a download URL under `https://api.telegram.org/file/bot<token>` never equals an API method URL under `https://api.telegram.org/bot<token>` |
| `MessageHandler.ChatId` | telegram_webhook.py:339 | `message["chat"]["id"]` is found exactly when the message is an object with an object `chat` that has an `id`, and then it is that id |
| `MessageHandler.Photos` | telegram_webhook.py:343 | `message.get("photo")`, null when absent |
| `MessageHandler.Aborts` | telegram_webhook.py:339-346 | the handler raises before any call exactly when the chat id is missing, or `photo` is truthy and `photo[-1]["file_id"]` cannot be read |
| `MessageHandler.LastFileId` | telegram_webhook.py:343-346 | a file id is found only in a non-empty photo list, and it is the last element's `file_id` |
| `MessageHandler.HandleIncomingMessage` | telegram_webhook.py:325-367 | only the last photo is looked up. No photo, a failed lookup or a missing path means no send. Otherwise the agent runs once on the URL with no text, then exactly one message goes to `chat.id`: HTML for a receipt, the fixed "not recognized" or "couldn't process" text with no parse mode otherwise |
| `MessageHandler.LastPhotoIsLookedUp` | telegram_webhook.py:343-346 | for photos `a` then `b`, the looked-up file id is `b` |
| `WebhookEndpoint.CheckSecret` | telegram_webhook.py:370-393 | accepts exactly a header equal to the configured secret; a missing header gives FastAPI's 422; any other value gives 401 "X-Telegram-Bot-Api-Secret-Token header invalid" |
| `WebhookEndpoint.NoSecretRejectsEverything` | telegram_webhook.py:370-393 | with no secret configured, every request is rejected, with 401 when a header is sent |
| `WebhookEndpoint.CheckSecretTested` | tests/test_telegram_webhook.py:72-124 | the revision the test suite expects: no secret accepts every request (tested without a header; assumed with one); a configured secret accepts only an equal header, and a missing one gets 401 "header missing" |
| `WebhookEndpoint.RevisionsOfSecretCheck` | tests/test_telegram_webhook.py:72-124 | the revisions agree when a secret is configured and a header is sent; they differ (422 against 401) on a missing header and whenever no secret is configured |
| `WebhookEndpoint.Webhook` | telegram_webhook.py:396-418 | always answers 200 `{"ok": true}`; schedules once, with the body's `message`, exactly when that is present and non-empty; only a non-object body fails |
| `WebhookEndpoint.HandleRequest` | telegram_webhook.py:396-418 | a rejected request gets the check's error response and schedules nothing; an accepted one behaves as `webhook` |
| `WebhookEndpoint.ScheduledOnlyWithSecret` | telegram_webhook.py:389-418 | work is scheduled only for a header equal to the configured secret, and it is the body's message, once |
| `WebhookEndpoint.CorrectSecretScenario` | tests/test_telegram_webhook.py:92-107 | the right secret and `{"message": {"chat": {"id": 123}}}` give 200 `{"ok": true}` and schedule that message |
| `Lifespan.PublicUrl` | telegram_webhook.py:192-224 | Render uses `RENDER_EXTERNAL_URL` with no tunnel; otherwise a tunnel is owned exactly when ngrok is enabled and connects; in every other case there is no URL |
| `Lifespan.RunLifespan` | telegram_webhook.py:262-288 | no URL: nothing happens. Registration failed on an owned tunnel: the tunnel is closed and teardown does nothing. Otherwise teardown deletes the webhook and closes the tunnel only if one is owned. An owned tunnel is closed exactly once |
| `Cli.RunCli` | main.py:45-66 | a missing file exits 1 without running the agent; the agent gets the path and no text; a receipt logs success and exits 0; anything else returned logs "not recognized" and exits 0; `ReceiptProcessingError` exits 1 |
| `Cli.RootAgentFailsOnlyOnMissingFile` | main.py:56-66 | with the root agent, which returns `None` on failure, the CLI exits 1 exactly when the file does not exist |
| `Cli.AppAgentExitCode` | main.py:56-66 | with `app/agent.py`, the CLI exits 1 exactly when the file is missing or the agent run failed |
| `Persistence.NewRow` | app/operations.py:21-30 | the new row has no id yet and all eight `ReceiptInfo` fields copied unchanged |
| `Persistence.RowsDetermineInfo` | app/models.py:8-34 | two rows hold the same receipt exactly when they agree on everything but the id |
| `Persistence.ReceiptStore.Save` | app/operations.py:20-34 | appends exactly one row and changes no existing row. The returned row is the stored row, carries the input's fields and gets a key no stored row has. Keys stay distinct |
| `Persistence.SaveScenario` | app/operations.py:20-34 | saving 19.99, tip 0, `yape` into an empty table yields a row with key 1 and exactly the input's eight fields |

## Left out

- HTTP transport (`_make_request`: httpx, `raise_for_status`, JSON decoding). It is external I/O. A request is modelled by its arguments, and its answer is a parameter of the caller.
- FastAPI routing, `Depends`, `BackgroundTasks` and when the detached task runs. These are framework concurrency; the model records only which message is scheduled, and how many times.
- Malformed JSON in the webhook body. JSON parsing is a library step; the body is given already decoded, and floats are not modelled.
- `GET /healthz`. It returns a constant and has no logic.
- The LLM call and its configuration (model name, provider, temperature). They are external and non-deterministic; the reply is the oracle `llm`.
- pydantic-ai's output retries. An out-of-schema reply is modelled as an immediate `AgentRunError`.
- Exceptions from `receipt_agent.run` other than `AgentRunError`. The source catches only `AgentRunError`; any other exception would escape to the handler task or to the CLI, which does not catch it. The model treats every provider failure as an `AgentRunError`.
- `Extraction.RunAgent`: library error texts are not reproduced, apart from the one validation-failure message. The provider's own error text is passed through.
- `Path.read_bytes()` failing. The file's bytes are a parameter, and the `OSError` path is not modelled.
- `strftime` date rendering and `Decimal` `:.2f` formatting. They are library formatting and appear as the renderer parameters.
- The reply template's emoji and indentation. `FormatHtml` keeps one labelled line per field.
- `ReceiptFormat.TitleFrom`: only ASCII letters count as cased. Python's `str.title()` also cases other Unicode letters, and this model does not.
- `TelegramClient.PhotoUrl`: the `getFile` result is modelled as an object with text fields, which is what Telegram's File object is. A non-object result or a non-string `file_path` is not modelled.
- `Receipts.Normalize`: `Decimal.normalize()` also rounds to the context precision (28 digits), and it turns trailing zeros of a whole number into a positive exponent (`1000` becomes `1E+3`). This model does neither: it keeps `Decimal(1000, 0)`. The digit count `FitsDecimal` uses is the same for both forms.
- ngrok handling beyond connect and disconnect, the `--port` lookup in `sys.argv`, logging, logfire and dotenv. These are environment and I/O; the port is a parameter.
- `app/config.py` and `app/db.py` (settings loading, engine and session creation). They are configuration and database plumbing; the store is the `ReceiptStore` class.
- The `Decimal` constraints on `Receipt` rows. SQLModel table models do not validate on construction, so `Persistence.ReceiptStore` does not assume them.
- `save_receipt_into_db` with the async session `app/db.py` defines. The failing `with`, the unawaited `commit` and `refresh`, and a row whose id is never filled in are not modelled; `Persistence.ReceiptStore.Save` models a working synchronous session.
- Database failures (constraint violation, lost connection) in `save_receipt_into_db`. They propagate uncaught to the caller; the model has no failure path for them.
- `argparse` and the logging configuration in `main.py`. `model_dump_json` appears as the entry `LogReceiptJson`.
- `Path` string normalisation in the "file not found" message. The path is shown as given.
