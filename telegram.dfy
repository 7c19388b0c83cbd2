/** The Telegram channel of the notifier (notifier.py:31-116): the HTML
    message body, the choice between sendPhoto and sendMessage, and the one
    fallback from a failed sendPhoto to sendMessage.  A call's observable
    effect is the list of HTTP requests it makes; whether the photo request
    succeeds is a parameter. */
module Telegram {
  import opened Wrappers
  import opened Config
  import opened HtmlEscape

  // ---------------------------------------------------------------------
  // Message body

  const HeaderOpen: string := "📢 <b>"
  const HeaderClose: string := "</b>\n\n"
  const OriginalLabel: string := "<b>原文：</b>\n"
  const TranslationLabel: string := "<b>翻译：</b>\n"
  const SectionEnd: string := "\n\n"
  const AnchorLead: string := "🔗 "
  const AnchorOpen: string := "<a href='"
  const AnchorClose: string := "'>查看推文</a>"

  function Anchor(link: string): string {
    AnchorLead + (AnchorOpen + link + AnchorClose)
  }

  lemma Assoc(a: string, b: string, c: string)
    ensures a + (b + c) == (a + b) + c
  {
  }

  /** _build_telegram_body: header with the escaped author, the escaped
      original, the escaped translation only when there is one, and the
      link anchor, whose href is inserted unescaped. */
  function BuildTelegramBody(author: string, original: string, translated: Option<string>, link: string): (body: string)
    ensures StartsWith(body, HeaderOpen + Escape(author) + HeaderClose + OriginalLabel + Escape(original) + SectionEnd)
  {
    var parts := HeaderOpen + Escape(author) + HeaderClose + OriginalLabel + Escape(original) + SectionEnd;
    var translation := if Truthy(translated) then TranslationLabel + Escape(translated.value) + SectionEnd else "";
    assert (parts + translation + Anchor(link))[..|parts|] == parts;
    parts + translation + Anchor(link)
  }

  /** The four fields a body carries, as the builder received them. */
  datatype TelegramFields = TelegramFields(author: string, original: string, translated: Option<string>, link: string)

  /** Splits `s` before the first `c`. */
  function BreakAt(s: string, c: char): (r: (string, string))
    ensures r.0 + r.1 == s
    ensures c !in r.0
    ensures |r.1| == 0 || r.1[0] == c
  {
    if |s| == 0 || s[0] == c then ([], s)
    else
      var t := BreakAt(s[1..], c);
      assert [s[0]] + (t.0 + t.1) == s;
      ([s[0]] + t.0, t.1)
  }

  lemma {:induction false} BreakAtUnique(x: string, y: string, c: char)
    requires c !in x && |y| > 0 && y[0] == c
    ensures BreakAt(x + y, c) == (x, y)
    decreases |x|
  {
    if |x| == 0 {
      assert x + y == y;
    } else {
      assert (x + y)[1..] == x[1..] + y;
      BreakAtUnique(x[1..], y, c);
      assert [x[0]] + x[1..] == x;
    }
  }

  predicate EndsWith(s: string, p: string) {
    |p| <= |s| && s[|s| - |p|..] == p
  }

  /** The link inside `<a href='...'>查看推文</a>`. */
  function AnchorLink(s: string): Option<string> {
    if |AnchorOpen| + |AnchorClose| <= |s| && StartsWith(s, AnchorOpen) && EndsWith(s, AnchorClose)
    then Some(s[|AnchorOpen|..|s| - |AnchorClose|])
    else None
  }

  /** A section text that ends in the blank line and the link marker,
      followed by the anchor element: the text and the link. */
  function SectionThenLink(text: string, rest: string): Option<(string, string)> {
    var tail := SectionEnd + AnchorLead;
    if EndsWith(text, tail) && AnchorLink(rest).Some?
    then Some((text[..|text| - |tail|], AnchorLink(rest).value))
    else None
  }

  /** Reads the original, the optional translation and the link from what
      follows the original's opening. Escaped text holds no '<', so each
      section ends at the first '<' after it. */
  function DecodeSections(s: string): Option<(string, Option<string>, string)> {
    var (original, rest) := BreakAt(s, '<');
    if EndsWith(original, SectionEnd) && StartsWith(rest, TranslationLabel) then
      var (translated, rest2) := BreakAt(rest[|TranslationLabel|..], '<');
      match SectionThenLink(translated, rest2)
      case Some((t, l)) => Some((original[..|original| - |SectionEnd|], Some(t), l))
      case None => None
    else
      match SectionThenLink(original, rest)
      case Some((o, l)) => Some((o, None, l))
      case None => None
  }

  /** Unescapes the decoded fields. */
  function UnescapeFields(author: string, sections: Option<(string, Option<string>, string)>): Option<TelegramFields> {
    match sections
    case Some((o, t, l)) =>
      Some(TelegramFields(Unescape(author), Unescape(o), if t.Some? then Some(Unescape(t.value)) else None, l))
    case None => None
  }

  /** Reads the fields back out of a body. */
  function DecodeTelegramBody(body: string): Option<TelegramFields> {
    if !StartsWith(body, HeaderOpen) then None
    else
      var (author, rest) := BreakAt(body[|HeaderOpen|..], '<');
      var opening := HeaderClose + OriginalLabel;
      if !StartsWith(rest, opening) then None
      else UnescapeFields(author, DecodeSections(rest[|opening|..]))
  }

  lemma AnchorLinkOf(link: string)
    ensures AnchorLink(AnchorOpen + link + AnchorClose) == Some(link)
  {
    var rest := AnchorOpen + link + AnchorClose;
    assert rest[..|AnchorOpen|] == AnchorOpen;
    assert rest[|rest| - |AnchorClose|..] == AnchorClose;
    assert rest[|AnchorOpen|..|rest| - |AnchorClose|] == link;
  }

  lemma SectionTextOf(e: string)
    ensures var text := e + SectionEnd + AnchorLead;
      EndsWith(text, SectionEnd + AnchorLead) && text[..|text| - |SectionEnd + AnchorLead|] == e
  {
    var text := e + (SectionEnd + AnchorLead);
    assert text[|text| - |SectionEnd + AnchorLead|..] == SectionEnd + AnchorLead;
    assert text[..|text| - |SectionEnd + AnchorLead|] == e;
    assert e + SectionEnd + AnchorLead == text;
  }

  lemma SectionThenAnchor(e: string, link: string)
    requires '<' !in e
    ensures BreakAt(e + SectionEnd + Anchor(link), '<') == (e + SectionEnd + AnchorLead, AnchorOpen + link + AnchorClose)
    ensures SectionThenLink(e + SectionEnd + AnchorLead, AnchorOpen + link + AnchorClose) == Some((e, link))
  {
    var text := e + SectionEnd + AnchorLead;
    var rest := AnchorOpen + link + AnchorClose;
    Assoc(e + SectionEnd, AnchorLead, rest);
    assert '<' !in SectionEnd + AnchorLead;
    Assoc(e, SectionEnd, AnchorLead);
    BreakAtUnique(text, rest, '<');
    SectionTextOf(e);
    AnchorLinkOf(link);
  }

  lemma DecodeSectionsPlain(eo: string, link: string)
    requires '<' !in eo
    ensures DecodeSections(eo + SectionEnd + Anchor(link)) == Some((eo, None, link))
  {
    SectionThenAnchor(eo, link);
    var text := eo + SectionEnd + AnchorLead;
    assert text[|text| - |SectionEnd|..] == text[|text| - 2..];
    assert text[|text| - 1] == ' ';
  }

  lemma DecodeSectionsTranslated(eo: string, et: string, link: string)
    requires '<' !in eo && '<' !in et
    ensures DecodeSections(eo + SectionEnd + (TranslationLabel + et + SectionEnd + Anchor(link)))
         == Some((eo, Some(et), link))
  {
    var rest := TranslationLabel + et + SectionEnd + Anchor(link);
    BreakAtUnique(eo + SectionEnd, rest, '<');
    assert StartsWith(rest, TranslationLabel);
    assert rest[|TranslationLabel|..] == et + SectionEnd + Anchor(link);
    SectionThenAnchor(et, link);
    var o := eo + SectionEnd;
    assert o[|o| - |SectionEnd|..] == SectionEnd;
    assert o[..|o| - |SectionEnd|] == eo;
  }

  lemma DecodeAfterHeader(ea: string, sections: string)
    requires '<' !in ea
    ensures DecodeTelegramBody(HeaderOpen + (ea + (HeaderClose + OriginalLabel + sections)))
         == UnescapeFields(ea, DecodeSections(sections))
  {
    var opening := HeaderClose + OriginalLabel;
    var body := HeaderOpen + (ea + (opening + sections));
    assert body[|HeaderOpen|..] == ea + (opening + sections);
    assert '<' == (opening + sections)[0];
    BreakAtUnique(ea, opening + sections, '<');
    assert (opening + sections)[|opening|..] == sections;
  }

  /** The body carries its fields unambiguously: decoding gives back the
      author, the original, the translation exactly when it is non-empty,
      and the link. */
  lemma DecodeBuiltBody(author: string, original: string, translated: Option<string>, link: string)
    ensures DecodeTelegramBody(BuildTelegramBody(author, original, translated, link))
         == Some(TelegramFields(author, original, if Truthy(translated) then translated else None, link))
  {
    var ea, eo := Escape(author), Escape(original);
    var translation := if Truthy(translated) then TranslationLabel + Escape(translated.value) + SectionEnd else "";
    var sections := (eo + SectionEnd) + (translation + Anchor(link));
    var body := BuildTelegramBody(author, original, translated, link);
    Regroup(HeaderOpen, ea, HeaderClose, OriginalLabel, eo, SectionEnd, translation, Anchor(link));
    assert body == HeaderOpen + (ea + (HeaderClose + OriginalLabel + sections));
    DecodeAfterHeader(ea, sections);
    UnescapeOfEscape(author);
    UnescapeOfEscape(original);
    if Truthy(translated) {
      var et := Escape(translated.value);
      UnescapeOfEscape(translated.value);
      DecodeSectionsTranslated(eo, et, link);
    } else {
      assert translation + Anchor(link) == Anchor(link);
      DecodeSectionsPlain(eo, link);
    }
  }

  lemma Regroup(h1: string, a: string, h2: string, l: string, o: string, se: string, t: string, an: string)
    ensures h1 + a + h2 + l + o + se + t + an == h1 + (a + ((h2 + l) + ((o + se) + (t + an))))
  {
  }

  // ---------------------------------------------------------------------
  // Requests

  /** A JSON value in a request payload. */
  datatype Field = Text(text: string) | Flag(flag: bool)

  type Payload = map<string, Field>

  /** The Bot API method a request calls. */
  datatype BotMethod = SendMessage | SendPhoto

  /** A POST to https://api.telegram.org/bot<token>/<method>. */
  datatype TelegramRequest = TelegramRequest(botToken: string, endpoint: BotMethod, payload: Payload)

  /** Telegram's caption length ceiling as the code applies it. */
  const CaptionLimit: nat := 1000

  /** The sendMessage payload: the body as text, link preview on. */
  function MessagePayload(chatId: string, body: string): Payload {
    map["chat_id" := Text(chatId), "parse_mode" := Text("HTML"),
        "disable_web_page_preview" := Flag(false), "text" := Text(body)]
  }

  /** The sendPhoto payload: the first image with the body as caption. */
  function PhotoPayload(chatId: string, photo: string, body: string): Payload {
    map["chat_id" := Text(chatId), "parse_mode" := Text("HTML"),
        "photo" := Text(photo), "caption" := Text(body)]
  }

  predicate UsesPhoto(images: seq<string>, body: string) {
    |images| > 0 && |body| <= CaptionLimit
  }

  /** The requests _send_telegram_message makes; `photoAccepted` is whether
      the sendPhoto request succeeded (unused when none is made). */
  function TelegramMessageRequests(tg: TelegramSettings, author: string, original: string,
                                   translated: Option<string>, link: string, images: seq<string>,
                                   photoAccepted: bool): seq<TelegramRequest>
  {
    if !TelegramReady(tg.botToken, tg.chatId) then []
    else
      var body := BuildTelegramBody(author, original, translated, link);
      var token, chatId := tg.botToken.value, tg.chatId.value;
      var text := TelegramRequest(token, SendMessage, MessagePayload(chatId, body));
      if UsesPhoto(images, body) then
        [TelegramRequest(token, SendPhoto, PhotoPayload(chatId, images[0], body))]
          + (if photoAccepted then [] else [text])
      else [text]
  }

  /** Without a bot token and a chat id nothing is sent. */
  lemma TelegramNeedsCredentials(tg: TelegramSettings, author: string, original: string,
                                 translated: Option<string>, link: string, images: seq<string>, ok: bool)
    ensures TelegramMessageRequests(tg, author, original, translated, link, images, ok) == []
        <==> !TelegramReady(tg.botToken, tg.chatId)
  {
  }

  /** sendPhoto is used exactly when there is an image and the body fits the
      caption ceiling; it carries the first image and the body as caption,
      and no link-preview key. */
  lemma TelegramMethodChoice(tg: TelegramSettings, author: string, original: string,
                             translated: Option<string>, link: string, images: seq<string>, ok: bool)
    requires TelegramReady(tg.botToken, tg.chatId)
    ensures var rs := TelegramMessageRequests(tg, author, original, translated, link, images, ok);
      var body := BuildTelegramBody(author, original, translated, link);
      && 1 <= |rs| <= 2
      && (rs[0].endpoint == SendPhoto <==> |images| > 0 && |body| <= CaptionLimit)
      && (rs[0].endpoint == SendPhoto ==>
            && rs[0].payload["photo"] == Text(images[0])
            && rs[0].payload["caption"] == Text(body)
            && "text" !in rs[0].payload
            && "disable_web_page_preview" !in rs[0].payload)
      && (rs[0].endpoint == SendMessage ==> rs[0].payload["text"] == Text(body) && |rs| == 1)
  {
  }

  /** A failed sendPhoto is retried exactly once, as the sendMessage request
      the same message would have produced with no images; a successful one
      is not repeated. */
  lemma TelegramPhotoFallback(tg: TelegramSettings, author: string, original: string,
                              translated: Option<string>, link: string, images: seq<string>, ok: bool)
    requires TelegramReady(tg.botToken, tg.chatId)
    requires UsesPhoto(images, BuildTelegramBody(author, original, translated, link))
    ensures var rs := TelegramMessageRequests(tg, author, original, translated, link, images, false);
      && |rs| == 2
      && rs[1] == TelegramMessageRequests(tg, author, original, translated, link, [], ok)[0]
      && "photo" !in rs[1].payload && "caption" !in rs[1].payload
    ensures |TelegramMessageRequests(tg, author, original, translated, link, images, true)| == 1
  {
  }

  /** _send_telegram_message: builds the payload dict and edits it in place
      as the source does, posting at most twice. */
  method SendTelegramMessage(tg: TelegramSettings, author: string, original: string,
                             translated: Option<string>, link: string, images: seq<string>,
                             photoAccepted: bool)
    returns (requests: seq<TelegramRequest>)
    ensures requests == TelegramMessageRequests(tg, author, original, translated, link, images, photoAccepted)
  {
    if !Truthy(tg.botToken) || !Truthy(tg.chatId) {
      return [];
    }
    var token, chatId := tg.botToken.value, tg.chatId.value;
    var body := BuildTelegramBody(author, original, translated, link);

    var endpoint := SendMessage;
    var payload: Payload := map["chat_id" := Text(chatId), "parse_mode" := Text("HTML"),
                                "disable_web_page_preview" := Flag(false)];
    if |images| > 0 {
      if |body| <= CaptionLimit {
        endpoint := SendPhoto;
        payload := payload["photo" := Text(images[0])];
        payload := payload["caption" := Text(body)];
        if "disable_web_page_preview" in payload {
          payload := payload - {"disable_web_page_preview"};
        }
        assert payload == PhotoPayload(chatId, images[0], body);
      } else {
        payload := payload["text" := Text(body)];
      }
    } else {
      payload := payload["text" := Text(body)];
    }

    requests := [TelegramRequest(token, endpoint, payload)];
    if !photoAccepted && endpoint == SendPhoto {
      // The photo request failed: one retry as a plain text message.
      if "photo" in payload {
        payload := payload - {"photo"};
      }
      if "caption" in payload {
        payload := payload - {"caption"};
      }
      payload := payload["text" := Text(body)];
      payload := payload["disable_web_page_preview" := Flag(false)];
      assert payload == MessagePayload(chatId, body);
      requests := requests + [TelegramRequest(token, SendMessage, payload)];
    }
  }

  /** The requests _send_telegram_plain_message makes for a status text:
      one sendMessage with the text as given, and no link-preview setting. */
  function TelegramPlainRequests(tg: TelegramSettings, text: string): (rs: seq<TelegramRequest>)
    ensures |rs| <= 1
    ensures |rs| == 1 <==> TelegramReady(tg.botToken, tg.chatId)
    ensures |rs| == 1 ==>
      && rs[0].botToken == tg.botToken.value
      && rs[0].endpoint == SendMessage
      && "text" in rs[0].payload && rs[0].payload["text"] == Text(text)
      && "chat_id" in rs[0].payload && rs[0].payload["chat_id"] == Text(tg.chatId.value)
      && "disable_web_page_preview" !in rs[0].payload
  {
    if !TelegramReady(tg.botToken, tg.chatId) then []
    else
      [TelegramRequest(tg.botToken.value, SendMessage,
        map["chat_id" := Text(tg.chatId.value), "text" := Text(text), "parse_mode" := Text("HTML")])]
  }
}
