# X2TG core in Dafny

X2TG polls RSS feeds of X/Twitter accounts and forwards every new entry
to Telegram and/or Feishu. This project models its core and proves
properties about it:

- **Configuration** (`config.py`):
  - the `RSS_URL` grammar `URL@T,URL@F,...`, parsed into feed configs;
  - `parse_csv`;
  - `NOTIFY_CHANNELS` with its `telegram,feishu` default;
  - `build_enabled_channels`.

  The process environment is a `map<string, string>`.
- **Checkpoints and selection** (`rss_fetcher.py`):
  - the JSON state file that maps a feed URL to the last handled link;
  - `load_last_link` and `save_last_link`;
  - the part of `fetch_new_tweets` that decides what is new. First
    contact only seeds the checkpoint. Later calls scan newest-first up
    to the checkpoint link, skip entries without a link, and return the
    result oldest-first.
- **Telegram channel** (`notifier.py:31-116`):
  - the HTML body;
  - the choice between `sendPhoto` and `sendMessage`, with the
    1000-character caption ceiling;
  - the payload dictionary, edited in place;
  - the single fallback from a failed `sendPhoto` to `sendMessage`;
  - the plain status message.
- **Feishu channel** (`notifier.py:119-329`):
  - the tenant access token cache: reuse while live, and expiry at
    `now + max(expire - 120, 60)`;
  - the size and content-type checks on a downloaded image;
  - the image upload;
  - the interactive card;
  - the card and text senders: the credential gate, the fallback to a
    card without the image, and one post per receive id.
- **Routers** `send_telegram_message` and `send_plain_message`: Telegram
  first, then Feishu, each only when enabled.

How the model is set up:

- **Network.** Every HTTP exchange becomes a request value that the model
  records, plus a reply value it is given as a parameter.
- **Results.** A call's observable effect is its sequence of requests,
  the Feishu recipients that accepted, and the token cache afterwards.
- **Clock.** The clock (`int(time.time())`) is a parameter `now`.
- **Mutable state.** Two things are classes updated in place by methods
  with `modifies` clauses:
  - the module-level token cache (`Feishu.TokenCache`);
  - the state file (`RssFetcher.StateStore`).
- **Methods and their specifications.**
  - The loops of the source are methods with loop invariants:
    - the `RSS_URL` loop;
    - the two loops of `build_enabled_channels`;
    - the entry scan;
    - the per-recipient posting loop.
  - The mutation of the Telegram payload dictionary is a method too.
  - Each method is proved equal to a specification function, and the
    properties are lemmas about those functions.

Two behaviours of the code are worth stating plainly:

- **Non-atomic save.** `save_state` opens the file with `"w"`, which
  truncates it, and then dumps the JSON. The write is not atomic: if the
  dump fails, the file can be left unreadable, and then every feed's
  checkpoint is lost (`RssFetcher.FailedDumpLosesState`).
- **Token reuse.** A cached token is reused only when it is non-empty and
  its expiry time is strictly later than `now`.

## Model

| member | source | states |
|---|---|---|
| Config.ParseFeedItem | config.py:13-33 | Over the raw item split at `@`: a config exists exactly when the stripped first piece is non-empty, and it is that url with the flag `TranslateFlag` of the pieces; the url is stripped and has no `@`, and no comma when the item has none |
| Config.TranslateFlag | config.py:22-27 | Translation is off exactly when there is a second `@` piece whose stripped text is `F` or `f`; on otherwise, including when there is no `@` |
| Config.RssConfigs | config.py:13-33 | Every parsed feed url is non-empty, stripped and free of `@` and `,` |
| Config.ParseRssConfigs | config.py:13-33 | The loop with its `continue` and its `F` test yields exactly `RssConfigs` of the variable, in item order |
| Config.RssUrls | config.py:36 | RSS_URLS has one url per config, the i-th being the i-th config's url |
| Config.RssConfigsOfFormat | config.py:8-33 | Writing feeds as `URL@T`/`URL@F` joined by commas and parsing gives back exactly those feeds, with their flags, in order |
| Config.ParseCsv | config.py:49-50 | Every item is non-empty, stripped and comma-free |
| Config.CsvItemsKeep | config.py:49-50 | Every piece that is not blank is kept, stripped |
| Config.ParseCsvConcat | config.py:49-50 | For every input, a value made of two parts joined by a comma parses to the first part's items followed by the second's, so items keep their input order |
| Config.ParseCsvItem | config.py:49-50 | A comma-free value gives its stripped text as the one item when that is non-blank, and nothing otherwise; with `ParseCsvConcat` this fixes `parse_csv` on every input |
| Config.ParseCsvOfJoin | config.py:49-50 | Parsing clean items joined with commas gives the items back in order |
| Config.ParseCsvIdempotent | config.py:49-50 | Parsing the comma-joined result of a parse gives the same list |
| Config.NotifyChannels | config.py:54-56 | Every channel name is non-empty, comma-free and has no upper-case ASCII letter |
| Config.DefaultNotifyChannels | config.py:53-56 | With NOTIFY_CHANNELS unset the channel names are `["telegram", "feishu"]` |
| Config.ChannelNamed | config.py:71 | A name is supported exactly when it is `telegram` or `feishu`, and maps to the channel of that name |
| Config.Requested | config.py:70-77 | The requested channels have no duplicates and contain a channel exactly when its name occurs |
| Config.RequestedOrder | config.py:70-77 | The requested channels are in the order their names first occur |
| Config.Gated | config.py:79-92 | A channel survives the second loop exactly when it was requested and its credentials are present |
| Config.GatedKeepsOrder | config.py:79-92 | The second loop keeps the channels duplicate-free and in first-occurrence order |
| Config.EnabledChannelsSpec | config.py:66-94 | Telegram is enabled exactly when named and bot token and chat id are non-empty; Feishu exactly when named and app id, secret and at least one receive id are present; no duplicates; first-occurrence order |
| Config.RequestChannels | config.py:70-77 | The first loop yields exactly `Requested`: no duplicates, first-occurrence order, a channel exactly when its name occurs |
| Config.GateChannels | config.py:79-92 | The second loop yields exactly `Gated`: a channel stays exactly when it was requested and its credentials are present |
| Config.BuildEnabledChannels | config.py:66-94 | The two loops compute `EnabledChannels`, with the same iff, uniqueness and order guarantees |
| Config.LoadSettings | config.py:43-97 | ENABLED_CHANNELS contains Telegram and Feishu exactly under the conditions above, read from the environment |
| RssFetcher.LoadState | rss_fetcher.py:17-27 | A stored object loads as itself; any non-empty result comes from a stored object, so a missing, unreadable or non-object file loads as `{}` |
| RssFetcher.StoreState | rss_fetcher.py:29-35 | A completed write stores the map and loads it back; a failed open leaves the file as it was; a failed dump leaves a file that loads as `{}` |
| RssFetcher.LastLink | rss_fetcher.py:37-40 | A link is returned exactly when the file holds an object with the feed's key, and it is that key's value |
| RssFetcher.StateStore.LoadLastLink | rss_fetcher.py:37-40 | The same read against the store's current file |
| RssFetcher.FileAfterSave | rss_fetcher.py:42-46 | A completed save holds the old keys plus the feed's, the feed's new link, and every other feed's old link; a failed open changes nothing; a failed dump loses every checkpoint |
| RssFetcher.NoStateNoCheckpoint | rss_fetcher.py:17-27 | A missing, unreadable or non-object state file has no checkpoint for any feed |
| RssFetcher.SaveThenLoad | rss_fetcher.py:37-46 | After a successful save the feed reads back the new link and every other feed reads back what it did before |
| RssFetcher.FailedDumpLosesState | rss_fetcher.py:29-35 | A save whose dump fails after truncation leaves no checkpoint for any feed |
| RssFetcher.StateStore.SaveLastLink | rss_fetcher.py:42-46 | The file becomes the read-modify-write result; on success the saved feed reads the new link and no other feed changes |
| RssFetcher.Reversed | rss_fetcher.py:136 | The k-th element of the result is the k-th from the end of the input |
| RssFetcher.Scan | rss_fetcher.py:88-95 | Every selected entry has a non-empty link different from the checkpoint, and there are no more of them than entries |
| RssFetcher.ScanIsLinkedPrefix | rss_fetcher.py:88-95 | The scan selects exactly the linked entries before the first entry carrying the checkpoint link |
| RssFetcher.ScanWithoutCheckpoint | rss_fetcher.py:88-95 | If the checkpoint link is absent from the feed every linked entry is new |
| RssFetcher.ScanUpToDate | rss_fetcher.py:88-92 | If the newest entry carries the checkpoint link nothing is new |
| RssFetcher.ScanConverges | rss_fetcher.py:88-95 | Checkpointing the newest selected link and scanning the same feed again selects nothing |
| RssFetcher.ScanEmptyCheckpoint | rss_fetcher.py:91-95 | With an empty checkpoint the scan stops at the first entry without a link, because equality is tested before emptiness |
| RssFetcher.NewTweets | rss_fetcher.py:88-136 | Every returned tweet has a non-empty link different from the checkpoint |
| RssFetcher.NewTweetsOldestFirst | rss_fetcher.py:122-136 | The k-th returned tweet is the k-th selected entry counted from the oldest, with the entry's author or else the feed title or else `Unknown` |
| RssFetcher.SelectNewTweets | rss_fetcher.py:88-136 | The loop with `break`, `continue` and the reversal returns exactly `NewTweets` |
| RssFetcher.FetchEarlyExits | rss_fetcher.py:49-73 | An empty url, a failed fetch or a feed without entries returns nothing and leaves the state file unchanged |
| RssFetcher.FirstContact | rss_fetcher.py:75-85 | First contact with a feed returns nothing and checkpoints the newest entry's link, or writes nothing when that link is empty |
| RssFetcher.CheckpointedFetchDoesNotWrite | rss_fetcher.py:75-136 | Once a feed has a checkpoint, fetching never writes the state file |
| RssFetcher.FirstContactThenQuiet | rss_fetcher.py:79-92 | A first fetch followed by a fetch of the unchanged feed yields nothing either time |
| RssFetcher.FetchNewTweets | rss_fetcher.py:49-136 | Returns `FetchedTweets` (nothing for an empty url, a failed fetch or an empty feed) and leaves the file as `FileAfterFetch` says |
| HtmlEscape.Escape | notifier.py:32-39 | No `<`, `>`, `"` or `'` survives escaping |
| HtmlEscape.UnescapeOfEscape | notifier.py:32-39 | Escaping loses nothing: unescaping the five entities gives the text back |
| Telegram.BuildTelegramBody | notifier.py:31-43 | The body starts with the header holding the escaped author and the original section holding the escaped original |
| Telegram.DecodeBuiltBody | notifier.py:31-43 | The body can be read back into the author, original, link, and translation exactly when it is non-empty |
| Telegram.TelegramNeedsCredentials | notifier.py:46-49 | Nothing is sent exactly when the bot token or the chat id is missing or empty |
| Telegram.TelegramMethodChoice | notifier.py:53-71 | `sendPhoto` is used exactly when there is an image and the body has at most 1000 characters; it carries the first image, the body as caption, no text and no preview key; otherwise one `sendMessage` with the body as text |
| Telegram.TelegramPhotoFallback | notifier.py:76-99 | A failed `sendPhoto` is followed by exactly one `sendMessage` equal to the image-less request, without photo or caption; a successful one is not repeated |
| Telegram.SendTelegramMessage | notifier.py:46-99 | The in-place edits of the payload dictionary produce exactly `TelegramMessageRequests` |
| Telegram.TelegramPlainRequests | notifier.py:102-116 | One `sendMessage` exactly when credentials are present, with the text unchanged, the chat id, and no preview key |
| Feishu.ExpiryFor | notifier.py:136-138 | The cache expiry is at least a minute ahead: exactly `expire - 120` seconds ahead when `expire >= 180`, and exactly 60 seconds ahead otherwise |
| Feishu.TokenCacheHit | notifier.py:119-123 | No exchange happens exactly when the cached token is non-empty and unexpired, and then it is returned with the cache unchanged; at most one exchange otherwise |
| Feishu.TokenExchangeOutcome | notifier.py:125-139 | The call fails exactly on a transport error, a non-zero code or a non-integer expire, leaving the cache unchanged; otherwise it returns and caches the reply's token until `ExpiryFor(now, expire)`, which is `now + 7080` when `expire` is absent and always at least `now + 60` |
| Feishu.TokenReusedForAMinute | notifier.py:119-139 | A non-empty token just obtained is reused without an exchange by every call in the next minute |
| Feishu.TokenRenewedAfterExpiry | notifier.py:119-128 | Once the expiry time is reached the next call makes exactly one exchange |
| Feishu.TokenCache.constructor | notifier.py:22 | The cache starts with no token, expired at 0 |
| Feishu.TokenCache.GetTenantAccessToken | notifier.py:119-139 | The method's result, requests and new cache are exactly `TokenFetch` of the old cache |
| Feishu.CheckImage | notifier.py:142-159 | A download is accepted exactly when it is non-empty and at most 10 MiB; empty and oversize are distinct errors; the header type wins, else the guessed type, else `application/octet-stream` |
| Feishu.UploadImage | notifier.py:162-182 | The url is always downloaded, and the upload with the checked size and type follows exactly when the checks pass; the reply's key is returned exactly when the code is 0 and the key is non-empty; otherwise the check's error, or the upload error |
| Feishu.BuildFeishuCard | notifier.py:185-225 | Two to four elements, the original first and the link last |
| Feishu.ReadBuiltCard | notifier.py:185-225 | The card can be read back into the author, original and link, with the translation and the image key exactly when non-empty |
| Feishu.CardWithoutImage | notifier.py:239-247 | The fallback card is the full card with only its image element removed |
| Feishu.Posts | notifier.py:257-264 | One post per receive id, in list order, all with the same content, bearer and id type |
| Feishu.DeliveredIff | notifier.py:257-283 | A receive id counts as delivered exactly when the post to one of its positions was accepted, whatever the other posts did |
| Feishu.PostToRecipients | notifier.py:257-283 | The loop posts to every receive id and collects exactly the accepted ones |
| Feishu.FeishuCardGates | notifier.py:228-237 | Missing credentials send nothing and keep the cache; a failed token posts nothing |
| Feishu.FeishuCardPosts | notifier.py:239-283 | With a token every receive id gets one post of the same card, with the uploaded image key only when download and upload succeeded |
| Feishu.SendFeishuCardMessage | notifier.py:228-283 | The method's requests, delivered ids and new cache are exactly `FeishuCardSend` of the old cache |
| Feishu.FeishuPlainPosts | notifier.py:286-329 | The text goes as one post per receive id exactly when credentials and a token are there; otherwise nothing is posted |
| Feishu.SendFeishuPlainMessage | notifier.py:286-329 | The method's requests, delivered ids and new cache are exactly `FeishuPlainSend` of the old cache |
| Notifier.TelegramFirstOfParts | notifier.py:332-340 | The combined trace puts every Telegram request before every Feishu request and splits back into its two parts |
| Notifier.NotifyDispatch | notifier.py:332-340 | The Telegram requests are the Telegram adapter's exactly when Telegram is enabled; the Feishu requests likewise; Telegram goes first; a disabled Feishu leaves the cache alone |
| Notifier.NotifyPlainDispatch | notifier.py:343-351 | The same dispatch for a status text |
| Notifier.SendToChannels | notifier.py:332-340 | The method's requests, delivered ids and new cache are exactly `Notify` |
| Notifier.SendPlainMessage | notifier.py:343-351 | The method's requests, delivered ids and new cache are exactly `NotifyPlain` |

## Left out

- HTTP, the proxy settings and timeouts. Every request is a value and every reply is a parameter.
- Failures of `raise_for_status` and JSON decoding. Each is folded into the "failed" reply of its exchange.
- `feedparser`, BeautifulSoup and `html2text`. An entry arrives with its link, author, text, publication date and image urls already extracted.
- The second `feedparser.parse(rss_url)` attempt. Both fetch attempts are folded into one optional parsed feed.
- JSON encoding of the card and of the text content. The card is a datatype, and its fixed fields (schema 2.0, config, the blue template) are not represented.
- The `uuid` of each post. It is random and does not affect what is sent.
- The image file name built from `mimetypes.guess_extension`. The upload request records the size and content type only.
- The type `mimetypes.guess_type` would guess from the url. It is an input of the download reply.
- `print` logging and the `config.py` validation messages. They have no effect on the outcome.
- `CHECK_INTERVAL`, the AI provider settings and `translator.py`. Translation is an input string.
- `main.py`. The polling loop and the translation pipeline are not part of this model.
- Concurrency around the token cache and the state file. The source is single-threaded.
- PyText.Lower and PyText.Upper: map only ASCII letters. The source only compares their results with the ASCII constants `F`, `telegram` and `feishu`. A non-ASCII name whose Python case mapping lands on one of those constants is not modelled.
- Feishu.ExpireSeconds: a non-integer `expire` that `int()` still accepts (a float or a numeric string) is not distinguished from an integer; every other value is modelled as the `int()` failure.
- RssFetcher.LoadState: JSON decoding errors and I/O errors are one `Unreadable` case. The file contents are a map, not text.
- RssFetcher.LoadState: the `State` type maps strings to strings, so an object holding non-string values is not modelled. In the source a `null` value reads as no checkpoint and takes the first-contact path (rss_fetcher.py:40, 79). A number is never equal to a link, so every linked entry would be returned (rss_fetcher.py:91).
- Telegram.BuildTelegramBody: the link is inserted unescaped, as in the source, so a link holding `'` or `>` breaks the anchor's HTML for Telegram. The model's decoder still recovers it, because the anchor is the last element and it takes everything between the anchor's fixed opening and closing. What Telegram's own HTML parser does with such a link is not modelled.
