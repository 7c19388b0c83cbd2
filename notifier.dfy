/** The notifier's two public entry points (notifier.py:332-351): a tweet
    and a status text each go to every enabled channel, Telegram first. */
module Notifier {
  import opened Wrappers
  import opened Config
  import Telegram
  import Feishu

  /** A request to either platform, in the order the notifier makes them. */
  datatype Request = ToTelegram(telegram: Telegram.TelegramRequest) | ToFeishu(feishu: Feishu.FeishuRequest)

  function FromTelegram(rs: seq<Telegram.TelegramRequest>): (r: seq<Request>)
    ensures |r| == |rs|
    ensures forall i :: 0 <= i < |rs| ==> r[i] == ToTelegram(rs[i])
  {
    seq(|rs|, i requires 0 <= i < |rs| => ToTelegram(rs[i]))
  }

  function FromFeishu(rs: seq<Feishu.FeishuRequest>): (r: seq<Request>)
    ensures |r| == |rs|
    ensures forall i :: 0 <= i < |rs| ==> r[i] == ToFeishu(rs[i])
  {
    seq(|rs|, i requires 0 <= i < |rs| => ToFeishu(rs[i]))
  }

  /** The Telegram requests among `rs`, in order. */
  function TelegramPart(rs: seq<Request>): seq<Telegram.TelegramRequest> {
    if |rs| == 0 then []
    else (if rs[0].ToTelegram? then [rs[0].telegram] else []) + TelegramPart(rs[1..])
  }

  /** The Feishu requests among `rs`, in order. */
  function FeishuPart(rs: seq<Request>): seq<Feishu.FeishuRequest> {
    if |rs| == 0 then []
    else (if rs[0].ToFeishu? then [rs[0].feishu] else []) + FeishuPart(rs[1..])
  }

  lemma {:induction false} PartsOfTelegram(rs: seq<Telegram.TelegramRequest>)
    ensures TelegramPart(FromTelegram(rs)) == rs
    ensures FeishuPart(FromTelegram(rs)) == []
  {
    if |rs| > 0 {
      assert FromTelegram(rs)[1..] == FromTelegram(rs[1..]);
      PartsOfTelegram(rs[1..]);
      assert rs == [rs[0]] + rs[1..];
    }
  }

  lemma {:induction false} PartsOfFeishu(rs: seq<Feishu.FeishuRequest>)
    ensures TelegramPart(FromFeishu(rs)) == []
    ensures FeishuPart(FromFeishu(rs)) == rs
  {
    if |rs| > 0 {
      assert FromFeishu(rs)[1..] == FromFeishu(rs[1..]);
      PartsOfFeishu(rs[1..]);
      assert rs == [rs[0]] + rs[1..];
    }
  }

  lemma {:induction false} TelegramPartAppend(a: seq<Request>, b: seq<Request>)
    ensures TelegramPart(a + b) == TelegramPart(a) + TelegramPart(b)
  {
    if |a| == 0 {
      assert a + b == b;
    } else {
      var head := if a[0].ToTelegram? then [a[0].telegram] else [];
      assert (a + b)[0] == a[0];
      assert (a + b)[1..] == a[1..] + b;
      assert TelegramPart(a + b) == head + TelegramPart(a[1..] + b);
      TelegramPartAppend(a[1..], b);
      assert head + (TelegramPart(a[1..]) + TelegramPart(b)) == (head + TelegramPart(a[1..])) + TelegramPart(b);
    }
  }

  lemma {:induction false} FeishuPartAppend(a: seq<Request>, b: seq<Request>)
    ensures FeishuPart(a + b) == FeishuPart(a) + FeishuPart(b)
  {
    if |a| == 0 {
      assert a + b == b;
    } else {
      var head := if a[0].ToFeishu? then [a[0].feishu] else [];
      assert (a + b)[0] == a[0];
      assert (a + b)[1..] == a[1..] + b;
      assert FeishuPart(a + b) == head + FeishuPart(a[1..] + b);
      FeishuPartAppend(a[1..], b);
      assert head + (FeishuPart(a[1..]) + FeishuPart(b)) == (head + FeishuPart(a[1..])) + FeishuPart(b);
    }
  }

  /** What a call to the router does: its requests, the Feishu recipients
      that accepted, and the token cache afterwards. */
  datatype Outcome = Outcome(requests: seq<Request>, delivered: seq<string>, cache: Feishu.CacheState)

  /** `send_telegram_message`: the Telegram adapter if Telegram is enabled,
      then the Feishu adapter if Feishu is enabled. */
  function Notify(s: Settings, c: Feishu.CacheState, now: int, tokenReply: Feishu.TokenReply,
                  author: string, original: string, translated: Option<string>, link: string,
                  images: seq<string>, photoAccepted: bool,
                  d: Feishu.DownloadReply, u: Feishu.UploadReply, replies: seq<Feishu.PostReply>): Outcome
  {
    var tg := if Telegram in s.enabled
      then Telegram.TelegramMessageRequests(s.telegram, author, original, translated, link, images, photoAccepted)
      else [];
    var fs := if Feishu in s.enabled
      then Feishu.FeishuCardSend(s.feishu, c, now, tokenReply, author, original, translated, link, images, d, u, replies)
      else Feishu.SendOutcome([], [], c);
    Outcome(FromTelegram(tg) + FromFeishu(fs.requests), fs.delivered, fs.cache)
  }

  /** `send_plain_message`: the same dispatch for a status text. */
  function NotifyPlain(s: Settings, c: Feishu.CacheState, now: int, tokenReply: Feishu.TokenReply,
                       text: string, replies: seq<Feishu.PostReply>): Outcome
  {
    var tg := if Telegram in s.enabled then Telegram.TelegramPlainRequests(s.telegram, text) else [];
    var fs := if Feishu in s.enabled
      then Feishu.FeishuPlainSend(s.feishu, c, now, tokenReply, text, replies)
      else Feishu.SendOutcome([], [], c);
    Outcome(FromTelegram(tg) + FromFeishu(fs.requests), fs.delivered, fs.cache)
  }

  /** Every Telegram request comes before every Feishu request. */
  predicate TelegramFirst(rs: seq<Request>) {
    forall i, j :: 0 <= i < j < |rs| && rs[i].ToFeishu? ==> rs[j].ToFeishu?
  }

  lemma TelegramFirstOfParts(a: seq<Telegram.TelegramRequest>, b: seq<Feishu.FeishuRequest>)
    ensures TelegramFirst(FromTelegram(a) + FromFeishu(b))
    ensures TelegramPart(FromTelegram(a) + FromFeishu(b)) == a
    ensures FeishuPart(FromTelegram(a) + FromFeishu(b)) == b
  {
    var rs := FromTelegram(a) + FromFeishu(b);
    forall i, j | 0 <= i < j < |rs| && rs[i].ToFeishu?
      ensures rs[j].ToFeishu?
    {
      assert i >= |a|;
    }
    TelegramPartAppend(FromTelegram(a), FromFeishu(b));
    FeishuPartAppend(FromTelegram(a), FromFeishu(b));
    PartsOfTelegram(a);
    PartsOfFeishu(b);
  }

  /** The router hands a tweet to the Telegram adapter exactly when Telegram
      is enabled and to the Feishu adapter exactly when Feishu is enabled,
      Telegram first; a disabled Feishu leaves the token cache alone. */
  lemma NotifyDispatch(s: Settings, c: Feishu.CacheState, now: int, tokenReply: Feishu.TokenReply,
                       author: string, original: string, translated: Option<string>, link: string,
                       images: seq<string>, photoAccepted: bool,
                       d: Feishu.DownloadReply, u: Feishu.UploadReply, replies: seq<Feishu.PostReply>)
    ensures var o := Notify(s, c, now, tokenReply, author, original, translated, link, images, photoAccepted, d, u, replies);
      && TelegramFirst(o.requests)
      && TelegramPart(o.requests)
           == (if Telegram in s.enabled
               then Telegram.TelegramMessageRequests(s.telegram, author, original, translated, link, images, photoAccepted)
               else [])
      && FeishuPart(o.requests)
           == (if Feishu in s.enabled
               then Feishu.FeishuCardSend(s.feishu, c, now, tokenReply, author, original, translated, link, images, d, u, replies).requests
               else [])
      && (Feishu !in s.enabled ==> o.cache == c && o.delivered == [])
  {
    var tg := if Telegram in s.enabled
      then Telegram.TelegramMessageRequests(s.telegram, author, original, translated, link, images, photoAccepted)
      else [];
    var fs := if Feishu in s.enabled
      then Feishu.FeishuCardSend(s.feishu, c, now, tokenReply, author, original, translated, link, images, d, u, replies)
      else Feishu.SendOutcome([], [], c);
    TelegramFirstOfParts(tg, fs.requests);
  }

  /** The same dispatch for a status text. */
  lemma NotifyPlainDispatch(s: Settings, c: Feishu.CacheState, now: int, tokenReply: Feishu.TokenReply,
                            text: string, replies: seq<Feishu.PostReply>)
    ensures var o := NotifyPlain(s, c, now, tokenReply, text, replies);
      && TelegramFirst(o.requests)
      && TelegramPart(o.requests)
           == (if Telegram in s.enabled then Telegram.TelegramPlainRequests(s.telegram, text) else [])
      && FeishuPart(o.requests)
           == (if Feishu in s.enabled then Feishu.FeishuPlainSend(s.feishu, c, now, tokenReply, text, replies).requests else [])
      && (Feishu !in s.enabled ==> o.cache == c && o.delivered == [])
  {
    var tg := if Telegram in s.enabled then Telegram.TelegramPlainRequests(s.telegram, text) else [];
    var fs := if Feishu in s.enabled
      then Feishu.FeishuPlainSend(s.feishu, c, now, tokenReply, text, replies)
      else Feishu.SendOutcome([], [], c);
    TelegramFirstOfParts(tg, fs.requests);
  }

  /** send_telegram_message, with the Feishu token cache updated in place. */
  method SendToChannels(s: Settings, cache: Feishu.TokenCache, now: int, tokenReply: Feishu.TokenReply,
                        author: string, original: string, translated: Option<string>, link: string,
                        images: seq<string>, photoAccepted: bool,
                        d: Feishu.DownloadReply, u: Feishu.UploadReply, replies: seq<Feishu.PostReply>)
    returns (requests: seq<Request>, delivered: seq<string>)
    modifies cache
    ensures Outcome(requests, delivered, cache.State())
         == Notify(s, old(cache.State()), now, tokenReply, author, original, translated, link, images, photoAccepted, d, u, replies)
  {
    var tg: seq<Telegram.TelegramRequest> := [];
    if Telegram in s.enabled {
      tg := Telegram.SendTelegramMessage(s.telegram, author, original, translated, link, images, photoAccepted);
    }
    var fs: seq<Feishu.FeishuRequest> := [];
    delivered := [];
    if Feishu in s.enabled {
      fs, delivered := Feishu.SendFeishuCardMessage(cache, s.feishu, now, tokenReply, author, original, translated,
                                                    link, images, d, u, replies);
    }
    requests := FromTelegram(tg) + FromFeishu(fs);
  }

  /** send_plain_message, with the Feishu token cache updated in place. */
  method SendPlainMessage(s: Settings, cache: Feishu.TokenCache, now: int, tokenReply: Feishu.TokenReply,
                          text: string, replies: seq<Feishu.PostReply>)
    returns (requests: seq<Request>, delivered: seq<string>)
    modifies cache
    ensures Outcome(requests, delivered, cache.State())
         == NotifyPlain(s, old(cache.State()), now, tokenReply, text, replies)
  {
    var tg: seq<Telegram.TelegramRequest> := [];
    if Telegram in s.enabled {
      tg := Telegram.TelegramPlainRequests(s.telegram, text);
    }
    var fs: seq<Feishu.FeishuRequest> := [];
    delivered := [];
    if Feishu in s.enabled {
      fs, delivered := Feishu.SendFeishuPlainMessage(cache, s.feishu, now, tokenReply, text, replies);
    }
    requests := FromTelegram(tg) + FromFeishu(fs);
  }
}
