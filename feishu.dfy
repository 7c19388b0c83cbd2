/** The Feishu channel of the notifier (notifier.py:119-329): the cached
    tenant access token, the image download and upload, the interactive
    card, and the posting of one message to every receive id.  Every HTTP
    exchange is a request the model records plus a reply it is given. */
module Feishu {
  import opened Wrappers
  import opened Config

  // ---------------------------------------------------------------------
  // Requests and replies

  /** What is sent to each recipient: the JSON of a card, or of `{"text": ...}`. */
  datatype Content = Interactive(card: Card) | PlainText(text: string)

  /** The HTTP requests the channel makes.  `bearer` is the token put in the
      Authorization header, which the exchange may have left as None. */
  datatype FeishuRequest =
    | TokenExchange(apiBase: string, appId: Option<string>, appSecret: Option<string>)
    | ImageDownload(url: string)
    | ImageUpload(apiBase: string, bearer: Option<string>, size: nat, contentType: string)
    | MessagePost(apiBase: string, bearer: Option<string>, receiveIdType: string, receiveId: string, content: Content)

  function MsgType(c: Content): string {
    match c
    case Interactive(_) => "interactive"
    case PlainText(_) => "text"
  }

  /** The `expire` field of the token exchange's reply: absent, a value
      `int()` accepts, or one it rejects. */
  datatype ExpireField = ExpireAbsent | ExpireValue(seconds: int) | ExpireInvalid

  /** The token exchange's outcome: a transport or HTTP error, or the JSON
      reply's `code`, `tenant_access_token` and `expire`. */
  datatype TokenReply =
    | ExchangeFailed
    | ExchangeBody(code: Option<int>, token: Option<string>, expire: ExpireField)

  datatype TokenError = ExchangeRefused | CodeNotZero | ExpireNotInteger

  // ---------------------------------------------------------------------
  // Tenant access token

  /** The token cache's two entries. */
  datatype CacheState = CacheState(token: Option<string>, expireAt: int)

  datatype TokenOutcome = TokenOutcome(result: Result<Option<string>, TokenError>, requests: seq<FeishuRequest>, cache: CacheState)

  /** The lifetime the server grants when the reply does not say. */
  const DefaultExpire: int := 7200

  function ExpireSeconds(e: ExpireField): int {
    match e
    case ExpireValue(s) => s
    case _ => DefaultExpire
  }

  /** The cached token is used until two minutes before the server's
      expiry, but for at least one minute. */
  function ExpiryFor(now: int, expire: int): (at: int)
    ensures at >= now + 60
    ensures expire >= 180 ==> at == now + expire - 120
    ensures expire < 180 ==> at == now + 60
  {
    now + (if expire - 120 > 60 then expire - 120 else 60)
  }

  predicate CacheHit(c: CacheState, now: int) {
    Truthy(c.token) && c.expireAt > now
  }

  /** _get_feishu_tenant_access_token on cache `c` at time `now`. */
  function TokenFetch(c: CacheState, fs: FeishuSettings, now: int, reply: TokenReply): TokenOutcome {
    if CacheHit(c, now) then TokenOutcome(Ok(c.token), [], c)
    else
      var exchange := [TokenExchange(fs.apiBase, fs.appId, fs.appSecret)];
      match reply
      case ExchangeFailed => TokenOutcome(Err(ExchangeRefused), exchange, c)
      case ExchangeBody(code, token, expire) =>
        if code != Some(0) then TokenOutcome(Err(CodeNotZero), exchange, c)
        else if expire.ExpireInvalid? then TokenOutcome(Err(ExpireNotInteger), exchange, c)
        else TokenOutcome(Ok(token), exchange, CacheState(token, ExpiryFor(now, ExpireSeconds(expire))))
  }

  /** A live cached token is returned without any exchange; otherwise
      exactly one exchange is made. */
  lemma TokenCacheHit(c: CacheState, fs: FeishuSettings, now: int, reply: TokenReply)
    ensures var t := TokenFetch(c, fs, now, reply);
      && (t.requests == [] <==> CacheHit(c, now))
      && (CacheHit(c, now) ==> t.result == Ok(c.token) && t.cache == c)
      && |t.requests| <= 1
  {
  }

  /** A failed exchange raises and leaves the cache as it was; a successful
      one caches the reply's token until `now + max(expire - 120, 60)`, with
      `expire` 7200 when absent. */
  lemma TokenExchangeOutcome(c: CacheState, fs: FeishuSettings, now: int, reply: TokenReply)
    requires !CacheHit(c, now)
    ensures var t := TokenFetch(c, fs, now, reply);
      && (t.result.Err? <==> reply.ExchangeFailed? || reply.code != Some(0) || reply.expire.ExpireInvalid?)
      && (t.result.Err? ==> t.cache == c)
      && (t.result.Ok? ==>
            && t.result.value == reply.token
            && t.cache.token == reply.token
            && t.cache.expireAt >= now + 60
            && (reply.expire.ExpireAbsent? ==> t.cache.expireAt == now + 7080)
            && (reply.expire.ExpireValue? ==> t.cache.expireAt == ExpiryFor(now, reply.expire.seconds)))
  {
  }

  /** A non-empty token from an exchange is reused, with no new exchange,
      by every call in the following minute. */
  lemma TokenReusedForAMinute(c: CacheState, fs: FeishuSettings, now: int, reply: TokenReply, later: int, reply2: TokenReply)
    requires !CacheHit(c, now)
    requires TokenFetch(c, fs, now, reply).result.Ok?
    requires Truthy(TokenFetch(c, fs, now, reply).result.value)
    requires now <= later < now + 60
    ensures var t := TokenFetch(c, fs, now, reply);
      TokenFetch(t.cache, fs, later, reply2) == TokenOutcome(t.result, [], t.cache)
  {
  }

  /** Once the cached expiry time is reached, the next call exchanges again. */
  lemma TokenRenewedAfterExpiry(c: CacheState, fs: FeishuSettings, now: int, reply: TokenReply)
    requires c.expireAt <= now
    ensures TokenFetch(c, fs, now, reply).requests == [TokenExchange(fs.apiBase, fs.appId, fs.appSecret)]
  {
  }

  /** The module-level `_FEISHU_TOKEN_CACHE` dictionary. */
  class TokenCache {
    var token: Option<string>
    var expireAt: int

    /** The cache as the module starts it: no token, expired at 0. */
    constructor()
      ensures token == None && expireAt == 0
    {
      token := None;
      expireAt := 0;
    }

    function State(): CacheState
      reads this
    {
      CacheState(token, expireAt)
    }

    /** _get_feishu_tenant_access_token at time `now`, given the reply the
        exchange would get. */
    method GetTenantAccessToken(fs: FeishuSettings, now: int, reply: TokenReply)
      returns (result: Result<Option<string>, TokenError>, requests: seq<FeishuRequest>)
      modifies this
      ensures TokenOutcome(result, requests, State()) == TokenFetch(old(State()), fs, now, reply)
    {
      var cached := token;
      if Truthy(cached) && expireAt > now {
        return Ok(cached), [];
      }
      requests := [TokenExchange(fs.apiBase, fs.appId, fs.appSecret)];
      if reply.ExchangeFailed? {
        return Err(ExchangeRefused), requests;
      }
      if reply.code != Some(0) {
        return Err(CodeNotZero), requests;
      }
      var expire := DefaultExpire;
      match reply.expire {
        case ExpireInvalid => return Err(ExpireNotInteger), requests;
        case ExpireValue(s) => expire := s;
        case ExpireAbsent =>
      }
      token := reply.token;
      expireAt := ExpiryFor(now, expire);
      result := Ok(reply.token);
    }
  }

  // ---------------------------------------------------------------------
  // Image download and upload

  /** The download's outcome: an error, or the body's size, the
      Content-Type header ("" when absent) and the type guessed from the
      URL's extension. */
  datatype DownloadReply = DownloadFailed | Downloaded(size: nat, headerType: string, guessedType: Option<string>)

  datatype ImageError = DownloadError | EmptyImage | ImageTooLarge | UploadError

  const MaxImageBytes: nat := 10 * 1024 * 1024

  /** The checks of _download_image_bytes: the body's size and content type. */
  function CheckImage(d: DownloadReply): (r: Result<(nat, string), ImageError>)
    ensures r.Ok? <==> d.Downloaded? && 0 < d.size <= MaxImageBytes
    ensures d.Downloaded? && d.size == 0 ==> r == Err(EmptyImage)
    ensures d.Downloaded? && d.size > MaxImageBytes ==> r == Err(ImageTooLarge)
    ensures r.Ok? ==> r.value.0 == d.size && |r.value.1| > 0
    ensures r.Ok? && |d.headerType| > 0 ==> r.value.1 == d.headerType
    ensures r.Ok? && |d.headerType| == 0 ==>
      r.value.1 == (if Truthy(d.guessedType) then d.guessedType.value else "application/octet-stream")
  {
    match d
    case DownloadFailed => Err(DownloadError)
    case Downloaded(size, headerType, guessed) =>
      if size == 0 then Err(EmptyImage)
      else if size > MaxImageBytes then Err(ImageTooLarge)
      else if |headerType| > 0 then Ok((size, headerType))
      else if Truthy(guessed) then Ok((size, guessed.value))
      else Ok((size, "application/octet-stream"))
  }

  /** The upload's outcome: an error, or the JSON reply's `code` and
      `data.image_key`. */
  datatype UploadReply = UploadFailed | UploadBody(code: Option<int>, imageKey: Option<string>)

  /** _upload_feishu_image: the requests it makes and the image key, or the
      error it raises. */
  function UploadImage(fs: FeishuSettings, bearer: Option<string>, url: string,
                       d: DownloadReply, u: UploadReply): (r: (seq<FeishuRequest>, Result<string, ImageError>))
    ensures r.1.Ok? ==> |r.1.value| > 0
    ensures r.1.Ok? <==> CheckImage(d).Ok? && u.UploadBody? && u.code == Some(0) && Truthy(u.imageKey)
    ensures r.1.Ok? ==> r.1.value == u.imageKey.value
    ensures r.1.Err? && CheckImage(d).Err? ==> r.1.error == CheckImage(d).error
    ensures r.1.Err? && CheckImage(d).Ok? ==> r.1.error == UploadError
    ensures r.0 == [ImageDownload(url)] +
      (if CheckImage(d).Ok? then [ImageUpload(fs.apiBase, bearer, CheckImage(d).value.0, CheckImage(d).value.1)] else [])
  {
    var download := [ImageDownload(url)];
    match CheckImage(d)
    case Err(e) => (download, Err(e))
    case Ok((size, contentType)) =>
      var requests := download + [ImageUpload(fs.apiBase, bearer, size, contentType)];
      if u.UploadBody? && u.code == Some(0) && Truthy(u.imageKey) then (requests, Ok(u.imageKey.value))
      else (requests, Err(UploadError))
  }

  // ---------------------------------------------------------------------
  // Card

  /** A card element: a markdown block, or an image with its alt text. */
  datatype Element = Markdown(content: string) | Img(imgKey: string, alt: string)

  /** The card's header title and body elements; its schema (2.0), config
      (update_multi, fill width) and blue header template are fixed. */
  datatype Card = Card(title: string, elements: seq<Element>)

  const TitlePrefix: string := "📢 "
  const OriginalHeading: string := "### **原文**\n"
  const TranslationHeading: string := "### **翻译**\n"
  const ImageAlt: string := "tweet image"
  const LinkOpen: string := "[查看推文]("
  const LinkClose: string := ")"

  function LinkElement(link: string): Element {
    Markdown(LinkOpen + link + LinkClose)
  }

  /** _build_feishu_card: the original first, the translation if there is
      one, the image if there is a key, and the link last. */
  function BuildFeishuCard(author: string, original: string, translated: Option<string>,
                           link: string, imageKey: Option<string>): (card: Card)
    ensures 2 <= |card.elements| <= 4
    ensures card.elements[0] == Markdown(OriginalHeading + original)
    ensures card.elements[|card.elements| - 1] == LinkElement(link)
  {
    var translation := if Truthy(translated) then [Markdown(TranslationHeading + translated.value)] else [];
    var image := if Truthy(imageKey) then [Img(imageKey.value, ImageAlt)] else [];
    Card(TitlePrefix + author,
         [Markdown(OriginalHeading + original)] + translation + image + [LinkElement(link)])
  }

  /** What a card shows, as the builder received it. */
  datatype CardFields = CardFields(author: string, original: string, translated: Option<string>,
                                   link: string, imageKey: Option<string>)

  function AfterPrefix(s: string, p: string): Option<string> {
    if |p| <= |s| && s[..|p|] == p then Some(s[|p|..]) else None
  }

  function MarkdownAfter(e: Element, p: string): Option<string> {
    if e.Markdown? then AfterPrefix(e.content, p) else None
  }

  function LinkOf(e: Element): Option<string> {
    if e.Markdown? && |LinkOpen| + |LinkClose| <= |e.content|
       && e.content[..|LinkOpen|] == LinkOpen && e.content[|e.content| - |LinkClose|..] == LinkClose
    then Some(e.content[|LinkOpen|..|e.content| - |LinkClose|])
    else None
  }

  /** The optional translation and image between the original and the link. */
  function ReadMiddle(middle: seq<Element>): Option<(Option<string>, Option<string>)> {
    if |middle| == 0 then Some((None, None))
    else if |middle| == 1 then
      if middle[0].Img? then Some((None, Some(middle[0].imgKey)))
      else if MarkdownAfter(middle[0], TranslationHeading).Some? then Some((MarkdownAfter(middle[0], TranslationHeading), None))
      else None
    else if |middle| == 2 && middle[1].Img? && MarkdownAfter(middle[0], TranslationHeading).Some? then
      Some((MarkdownAfter(middle[0], TranslationHeading), Some(middle[1].imgKey)))
    else None
  }

  /** Reads the fields back out of a card. */
  function ReadFeishuCard(card: Card): Option<CardFields> {
    var es := card.elements;
    if |es| < 2 then None
    else
      match (AfterPrefix(card.title, TitlePrefix), MarkdownAfter(es[0], OriginalHeading),
             ReadMiddle(es[1..|es| - 1]), LinkOf(es[|es| - 1]))
      case (Some(author), Some(original), Some((translated, key)), Some(link)) =>
        Some(CardFields(author, original, translated, link, key))
      case _ => None
  }

  lemma AfterPrefixOf(p: string, s: string)
    ensures AfterPrefix(p + s, p) == Some(s)
  {
    assert (p + s)[..|p|] == p;
    assert (p + s)[|p|..] == s;
  }

  lemma LinkOfElement(link: string)
    ensures LinkOf(LinkElement(link)) == Some(link)
  {
    var s := LinkOpen + link + LinkClose;
    assert s[..|LinkOpen|] == LinkOpen;
    assert s[|s| - |LinkClose|..] == LinkClose;
    assert s[|LinkOpen|..|s| - |LinkClose|] == link;
  }

  /** The card carries its fields unambiguously: reading gives back the
      author, the original, the translation exactly when it is non-empty,
      the link, and the image key exactly when it is non-empty. */
  lemma ReadBuiltCard(author: string, original: string, translated: Option<string>, link: string, imageKey: Option<string>)
    ensures ReadFeishuCard(BuildFeishuCard(author, original, translated, link, imageKey))
         == Some(CardFields(author, original, if Truthy(translated) then translated else None,
                            link, if Truthy(imageKey) then imageKey else None))
  {
    var card := BuildFeishuCard(author, original, translated, link, imageKey);
    var es := card.elements;
    var translation := if Truthy(translated) then [Markdown(TranslationHeading + translated.value)] else [];
    var image := if Truthy(imageKey) then [Img(imageKey.value, ImageAlt)] else [];
    assert es[1..|es| - 1] == translation + image;
    AfterPrefixOf(TitlePrefix, author);
    AfterPrefixOf(OriginalHeading, original);
    LinkOfElement(link);
    if Truthy(translated) {
      AfterPrefixOf(TranslationHeading, translated.value);
    }
  }

  function WithoutImages(es: seq<Element>): (r: seq<Element>)
    ensures forall e :: e in r ==> !e.Img?
  {
    if |es| == 0 then []
    else (if es[0].Img? then [] else [es[0]]) + WithoutImages(es[1..])
  }

  lemma {:induction false} WithoutImagesAppend(a: seq<Element>, b: seq<Element>)
    ensures WithoutImages(a + b) == WithoutImages(a) + WithoutImages(b)
  {
    if |a| == 0 {
      assert a + b == b;
    } else {
      assert (a + b)[1..] == a[1..] + b;
      WithoutImagesAppend(a[1..], b);
    }
  }

  /** The card an upload failure falls back to is the card with its image
      element removed, everything else in place. */
  lemma CardWithoutImage(author: string, original: string, translated: Option<string>, link: string, imageKey: Option<string>)
    ensures var full := BuildFeishuCard(author, original, translated, link, imageKey);
      BuildFeishuCard(author, original, translated, link, None) == Card(full.title, WithoutImages(full.elements))
  {
    var first := [Markdown(OriginalHeading + original)];
    var translation := if Truthy(translated) then [Markdown(TranslationHeading + translated.value)] else [];
    var image := if Truthy(imageKey) then [Img(imageKey.value, ImageAlt)] else [];
    var last := [LinkElement(link)];
    WithoutImagesAppend(first + translation + image, last);
    WithoutImagesAppend(first + translation, image);
    WithoutImagesAppend(first, translation);
    assert WithoutImages(first) == first;
    assert WithoutImages(translation) == translation;
    assert WithoutImages(image) == [];
    assert WithoutImages(last) == last;
    assert first + translation + [] == first + translation;
  }

  // ---------------------------------------------------------------------
  // Posting to the recipients

  /** Each recipient's reply: an error, or the JSON reply's `code`. */
  datatype PostReply = PostFailed | PostBody(code: Option<int>)

  /** Whether the post to the `i`-th recipient was accepted; a missing reply
      counts as a failure. */
  predicate Accepted(replies: seq<PostReply>, i: nat) {
    i < |replies| && replies[i].PostBody? && replies[i].code == Some(0)
  }

  /** One message post per receive id, in list order, all with the same content. */
  function Posts(fs: FeishuSettings, bearer: Option<string>, content: Content, ids: seq<string>): (r: seq<FeishuRequest>)
    ensures |r| == |ids|
    ensures forall i :: 0 <= i < |ids| ==> r[i] == MessagePost(fs.apiBase, bearer, fs.receiveIdType, ids[i], content)
  {
    seq(|ids|, i requires 0 <= i < |ids| => MessagePost(fs.apiBase, bearer, fs.receiveIdType, ids[i], content))
  }

  /** The receive ids whose post was accepted, in order. */
  function Delivered(ids: seq<string>, replies: seq<PostReply>): (r: seq<string>)
    ensures |r| <= |ids|
    ensures forall x :: x in r ==> x in ids
  {
    if |ids| == 0 then []
    else
      var k := |ids| - 1;
      var before := Delivered(ids[..k], replies);
      assert forall x :: x in ids[..k] ==> x in ids;
      before + (if Accepted(replies, k) then [ids[k]] else [])
  }

  /** A recipient's failure does not stop the others: every recipient whose
      own post was accepted is delivered, whatever happened before it. */
  lemma {:induction false} DeliveredIff(ids: seq<string>, replies: seq<PostReply>, x: string)
    ensures x in Delivered(ids, replies) <==> exists i :: 0 <= i < |ids| && ids[i] == x && Accepted(replies, i)
  {
    if |ids| > 0 {
      var k := |ids| - 1;
      DeliveredIff(ids[..k], replies, x);
      if x in Delivered(ids[..k], replies) {
        var i :| 0 <= i < k && ids[..k][i] == x && Accepted(replies, i);
        assert ids[i] == x;
      }
      if exists i :: 0 <= i < |ids| && ids[i] == x && Accepted(replies, i) {
        var i :| 0 <= i < |ids| && ids[i] == x && Accepted(replies, i);
        if i < k {
          assert ids[..k][i] == x;
        }
      }
    }
  }

  /** The loop of the two Feishu senders: posts `content` to every receive
      id in turn, whatever the earlier posts returned. */
  method PostToRecipients(fs: FeishuSettings, bearer: Option<string>, content: Content, replies: seq<PostReply>)
    returns (posts: seq<FeishuRequest>, delivered: seq<string>)
    ensures posts == Posts(fs, bearer, content, fs.receiveIds)
    ensures delivered == Delivered(fs.receiveIds, replies)
  {
    var ids := fs.receiveIds;
    posts, delivered := [], [];
    var i := 0;
    while i < |ids|
      invariant 0 <= i <= |ids|
      invariant posts == Posts(fs, bearer, content, ids[..i])
      invariant delivered == Delivered(ids[..i], replies)
    {
      posts := posts + [MessagePost(fs.apiBase, bearer, fs.receiveIdType, ids[i], content)];
      if Accepted(replies, i) {
        delivered := delivered + [ids[i]];
      }
      assert ids[..i + 1][..i] == ids[..i];
      i := i + 1;
    }
    assert ids[..i] == ids;
  }

  // ---------------------------------------------------------------------
  // The two senders

  datatype SendOutcome = SendOutcome(requests: seq<FeishuRequest>, delivered: seq<string>, cache: CacheState)

  /** The image key the card gets: the upload's, or None when there is no
      image or its download or upload failed. */
  function CardImage(fs: FeishuSettings, bearer: Option<string>, images: seq<string>,
                     d: DownloadReply, u: UploadReply): (seq<FeishuRequest>, Option<string>)
  {
    if |images| == 0 then ([], None)
    else
      var (requests, key) := UploadImage(fs, bearer, images[0], d, u);
      (requests, if key.Ok? then Some(key.value) else None)
  }

  /** _send_feishu_card_message: the credential gate, the token, the
      optional image, and one post per recipient. */
  function FeishuCardSend(fs: FeishuSettings, c: CacheState, now: int, tokenReply: TokenReply,
                          author: string, original: string, translated: Option<string>, link: string,
                          images: seq<string>, d: DownloadReply, u: UploadReply,
                          replies: seq<PostReply>): SendOutcome
  {
    if !FeishuReady(fs.appId, fs.appSecret, fs.receiveIds) then SendOutcome([], [], c)
    else
      var t := TokenFetch(c, fs, now, tokenReply);
      if t.result.Err? then SendOutcome(t.requests, [], t.cache)
      else
        var bearer := t.result.value;
        var (imageRequests, key) := CardImage(fs, bearer, images, d, u);
        var content := Interactive(BuildFeishuCard(author, original, translated, link, key));
        SendOutcome(t.requests + imageRequests + Posts(fs, bearer, content, fs.receiveIds),
                    Delivered(fs.receiveIds, replies), t.cache)
  }

  /** The message posts among a call's requests, in order. */
  function MessagePosts(rs: seq<FeishuRequest>): (r: seq<FeishuRequest>)
    ensures forall q :: q in r ==> q.MessagePost? && q in rs
  {
    if |rs| == 0 then []
    else
      assert forall q :: q in rs[1..] ==> q in rs;
      (if rs[0].MessagePost? then [rs[0]] else []) + MessagePosts(rs[1..])
  }

  lemma {:induction false} MessagePostsAll(rs: seq<FeishuRequest>)
    requires forall i :: 0 <= i < |rs| ==> rs[i].MessagePost?
    ensures MessagePosts(rs) == rs
  {
    if |rs| > 0 {
      MessagePostsAll(rs[1..]);
      assert rs == [rs[0]] + rs[1..];
    }
  }

  lemma {:induction false} MessagePostsAppend(a: seq<FeishuRequest>, b: seq<FeishuRequest>)
    ensures MessagePosts(a + b) == MessagePosts(a) + MessagePosts(b)
  {
    if |a| == 0 {
      assert a + b == b;
    } else {
      assert (a + b)[1..] == a[1..] + b;
      MessagePostsAppend(a[1..], b);
    }
  }

  lemma {:induction false} MessagePostsNone(rs: seq<FeishuRequest>)
    requires forall i :: 0 <= i < |rs| ==> !rs[i].MessagePost?
    ensures MessagePosts(rs) == []
  {
    if |rs| > 0 {
      MessagePostsNone(rs[1..]);
    }
  }

  /** Without app id, app secret and receive ids nothing is sent and the
      cache is untouched; without a token no message is posted. */
  lemma FeishuCardGates(fs: FeishuSettings, c: CacheState, now: int, tokenReply: TokenReply,
                        author: string, original: string, translated: Option<string>, link: string,
                        images: seq<string>, d: DownloadReply, u: UploadReply, replies: seq<PostReply>)
    ensures var o := FeishuCardSend(fs, c, now, tokenReply, author, original, translated, link, images, d, u, replies);
      && (!FeishuReady(fs.appId, fs.appSecret, fs.receiveIds) ==> o == SendOutcome([], [], c))
      && (FeishuReady(fs.appId, fs.appSecret, fs.receiveIds) && TokenFetch(c, fs, now, tokenReply).result.Err? ==>
            MessagePosts(o.requests) == [] && o.delivered == [] && o.cache == c)
  {
    if FeishuReady(fs.appId, fs.appSecret, fs.receiveIds) && TokenFetch(c, fs, now, tokenReply).result.Err? {
      MessagePostsNone(TokenFetch(c, fs, now, tokenReply).requests);
    }
  }

  /** With a token, every receive id gets exactly one post, in list order,
      all carrying the same card; the card has the uploaded image when the
      download and upload succeeded and is the image-less card otherwise. */
  lemma FeishuCardPosts(fs: FeishuSettings, c: CacheState, now: int, tokenReply: TokenReply,
                        author: string, original: string, translated: Option<string>, link: string,
                        images: seq<string>, d: DownloadReply, u: UploadReply, replies: seq<PostReply>)
    requires FeishuReady(fs.appId, fs.appSecret, fs.receiveIds)
    requires TokenFetch(c, fs, now, tokenReply).result.Ok?
    ensures var o := FeishuCardSend(fs, c, now, tokenReply, author, original, translated, link, images, d, u, replies);
      var bearer := TokenFetch(c, fs, now, tokenReply).result.value;
      var uploaded := |images| > 0 && UploadImage(fs, bearer, images[0], d, u).1.Ok?;
      var key := if uploaded then Some(UploadImage(fs, bearer, images[0], d, u).1.value) else None;
      && MessagePosts(o.requests)
           == Posts(fs, bearer, Interactive(BuildFeishuCard(author, original, translated, link, key)), fs.receiveIds)
      && o.delivered == Delivered(fs.receiveIds, replies)
  {
    var t := TokenFetch(c, fs, now, tokenReply);
    var bearer := t.result.value;
    var (imageRequests, key) := CardImage(fs, bearer, images, d, u);
    var content := Interactive(BuildFeishuCard(author, original, translated, link, key));
    var posts := Posts(fs, bearer, content, fs.receiveIds);
    assert key == (if |images| > 0 && UploadImage(fs, bearer, images[0], d, u).1.Ok?
                   then Some(UploadImage(fs, bearer, images[0], d, u).1.value) else None);
    assert FeishuCardSend(fs, c, now, tokenReply, author, original, translated, link, images, d, u, replies).requests
        == t.requests + imageRequests + posts;
    MessagePostsNone(t.requests);
    MessagePostsNone(imageRequests);
    MessagePostsAppend(t.requests, imageRequests);
    MessagePostsAppend(t.requests + imageRequests, posts);
    MessagePostsAll(posts);
  }

  /** _send_feishu_card_message, updating the token cache in place. */
  method SendFeishuCardMessage(cache: TokenCache, fs: FeishuSettings, now: int, tokenReply: TokenReply,
                               author: string, original: string, translated: Option<string>, link: string,
                               images: seq<string>, d: DownloadReply, u: UploadReply, replies: seq<PostReply>)
    returns (requests: seq<FeishuRequest>, delivered: seq<string>)
    modifies cache
    ensures SendOutcome(requests, delivered, cache.State())
         == FeishuCardSend(fs, old(cache.State()), now, tokenReply, author, original, translated, link, images, d, u, replies)
  {
    if !Truthy(fs.appId) || !Truthy(fs.appSecret) || |fs.receiveIds| == 0 {
      return [], [];
    }
    var token;
    token, requests := cache.GetTenantAccessToken(fs, now, tokenReply);
    if token.Err? {
      return requests, [];
    }
    var bearer := token.value;

    // A failed download or upload is only logged: the card goes without image.
    var imageRequests: seq<FeishuRequest> := [];
    var imageKey: Option<string> := None;
    if |images| > 0 {
      imageRequests := [ImageDownload(images[0])];
      var checked := CheckImage(d);
      if checked.Ok? {
        imageRequests := imageRequests + [ImageUpload(fs.apiBase, bearer, checked.value.0, checked.value.1)];
        if u.UploadBody? && u.code == Some(0) && Truthy(u.imageKey) {
          imageKey := u.imageKey;
        }
      }
    }
    assert CardImage(fs, bearer, images, d, u) == (imageRequests, imageKey);

    var content := Interactive(BuildFeishuCard(author, original, translated, link, imageKey));
    var posts;
    posts, delivered := PostToRecipients(fs, bearer, content, replies);
    requests := requests + imageRequests + posts;
  }

  /** _send_feishu_plain_message: the same gate and token, then the text
      posted to every recipient. */
  function FeishuPlainSend(fs: FeishuSettings, c: CacheState, now: int, tokenReply: TokenReply,
                           text: string, replies: seq<PostReply>): SendOutcome
  {
    if !FeishuReady(fs.appId, fs.appSecret, fs.receiveIds) then SendOutcome([], [], c)
    else
      var t := TokenFetch(c, fs, now, tokenReply);
      if t.result.Err? then SendOutcome(t.requests, [], t.cache)
      else SendOutcome(t.requests + Posts(fs, t.result.value, PlainText(text), fs.receiveIds),
                       Delivered(fs.receiveIds, replies), t.cache)
  }

  /** A status text reaches the recipients as a text message, one post per
      receive id in order, exactly when the credentials and a token are there. */
  lemma FeishuPlainPosts(fs: FeishuSettings, c: CacheState, now: int, tokenReply: TokenReply,
                         text: string, replies: seq<PostReply>)
    ensures var o := FeishuPlainSend(fs, c, now, tokenReply, text, replies);
      var t := TokenFetch(c, fs, now, tokenReply);
      && (FeishuReady(fs.appId, fs.appSecret, fs.receiveIds) && t.result.Ok? ==>
            MessagePosts(o.requests) == Posts(fs, t.result.value, PlainText(text), fs.receiveIds))
      && (!(FeishuReady(fs.appId, fs.appSecret, fs.receiveIds) && t.result.Ok?) ==>
            MessagePosts(o.requests) == [] && o.delivered == [])
  {
    var t := TokenFetch(c, fs, now, tokenReply);
    MessagePostsNone(t.requests);
    if FeishuReady(fs.appId, fs.appSecret, fs.receiveIds) && t.result.Ok? {
      var posts := Posts(fs, t.result.value, PlainText(text), fs.receiveIds);
      MessagePostsAppend(t.requests, posts);
      MessagePostsAll(posts);
    } else {
      MessagePostsNone([]);
    }
  }

  /** _send_feishu_plain_message, updating the token cache in place. */
  method SendFeishuPlainMessage(cache: TokenCache, fs: FeishuSettings, now: int, tokenReply: TokenReply,
                                text: string, replies: seq<PostReply>)
    returns (requests: seq<FeishuRequest>, delivered: seq<string>)
    modifies cache
    ensures SendOutcome(requests, delivered, cache.State())
         == FeishuPlainSend(fs, old(cache.State()), now, tokenReply, text, replies)
  {
    if !Truthy(fs.appId) || !Truthy(fs.appSecret) || |fs.receiveIds| == 0 {
      return [], [];
    }
    var token;
    token, requests := cache.GetTenantAccessToken(fs, now, tokenReply);
    if token.Err? {
      return requests, [];
    }
    var posts;
    posts, delivered := PostToRecipients(fs, token.value, PlainText(text), replies);
    requests := requests + posts;
  }
}
