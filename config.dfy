/** Configuration read from the process environment (config.py): the list of
    monitored feeds with their translate flag, the comma-separated list
    parser, and the choice of notification channels.  Everything is a
    function of the environment map instead of module-level globals. */
module Config {
  import opened Wrappers
  import opened PyText

  /** The process environment as `os.getenv` sees it. */
  type Environ = map<string, string>

  function Getenv(env: Environ, key: string): Option<string> {
    if key in env then Some(env[key]) else None
  }

  /** `os.getenv(key, default)`: the default only when the variable is unset. */
  function GetenvOr(env: Environ, key: string, default: string): string {
    if key in env then env[key] else default
  }

  // ---------------------------------------------------------------------
  // RSS_URL: "URL@T,URL@F,..."

  datatype FeedConfig = FeedConfig(url: string, translate: bool)

  /** A url the `URL@T/URL@F` grammar can carry unchanged. */
  predicate PlainUrl(u: string) {
    |u| > 0 && IsStripped(u) && '@' !in u && ',' !in u
  }

  /** The translate flag of an item split at '@': off only when the second
      part, stripped and upper-cased, is "F". */
  function TranslateFlag(parts: seq<string>): (r: bool)
    ensures !r <==> |parts| > 1 && (Strip(parts[1]) == "F" || Strip(parts[1]) == "f")
  {
    if |parts| > 1 then
      UpperIsF(Strip(parts[1]));
      Upper(Strip(parts[1])) != "F"
    else true
  }

  /** One comma-separated item: the url is the stripped text before the
      first '@'; translation is on unless the stripped second '@'-part is
      "F" in either case; an item whose url is empty yields nothing. */
  function ParseFeedItem(raw: string): (r: Option<FeedConfig>)
    ensures var pieces := Split(raw, '@');
      && (r.Some? <==> |Strip(pieces[0])| > 0)
      && (r.Some? ==> r.value == FeedConfig(Strip(pieces[0]), TranslateFlag(pieces)))
    ensures r.Some? ==> |r.value.url| > 0 && IsStripped(r.value.url) && '@' !in r.value.url
    ensures r.Some? && ',' !in raw ==> ',' !in r.value.url
  {
    SplitOfStrip(raw, '@');
    var item := Strip(raw);
    if |item| == 0 then None
    else
      var parts := Split(item, '@');
      var url := Strip(parts[0]);
      if |url| == 0 then None else Some(FeedConfig(url, TranslateFlag(parts)))
  }

  /** The configs the items yield, in item order (each item at most one). */
  function FeedConfigs(items: seq<string>): (r: seq<FeedConfig>)
    ensures |r| <= |items|
    ensures (forall k :: 0 <= k < |items| ==> ',' !in items[k]) ==>
              forall k :: 0 <= k < |r| ==> PlainUrl(r[k].url)
  {
    if |items| == 0 then []
    else
      var init := FeedConfigs(items[..|items| - 1]);
      match ParseFeedItem(items[|items| - 1])
      case Some(c) => init + [c]
      case None => init
  }

  /** RSS_CONFIGS as a function of the RSS_URL value. */
  function RssConfigs(rssUrl: string): (r: seq<FeedConfig>)
    ensures forall k :: 0 <= k < |r| ==> PlainUrl(r[k].url)
  {
    FeedConfigs(Split(rssUrl, ','))
  }

  lemma FeedConfigsStep(items: seq<string>, i: nat)
    requires i < |items|
    ensures FeedConfigs(items[..i + 1])
         == FeedConfigs(items[..i]) + (match ParseFeedItem(items[i]) case Some(c) => [c] case None => [])
  {
    assert items[..i + 1][..i] == items[..i];
  }

  /** The loop at config.py:13-33 that appends to RSS_CONFIGS. */
  method ParseRssConfigs(rssUrl: string) returns (configs: seq<FeedConfig>)
    ensures configs == RssConfigs(rssUrl)
    ensures forall k :: 0 <= k < |configs| ==> PlainUrl(configs[k].url)
  {
    var items := Split(rssUrl, ',');
    configs := [];
    var i := 0;
    while i < |items|
      invariant 0 <= i <= |items|
      invariant configs == FeedConfigs(items[..i])
    {
      FeedConfigsStep(items, i);
      var item := Strip(items[i]);
      ghost var parsed := ParseFeedItem(items[i]);
      i := i + 1;
      if |item| == 0 {
        assert parsed == None;
        continue;
      }
      var parts := Split(item, '@');
      var url := Strip(parts[0]);
      var translateFlag := true;
      if |parts| > 1 {
        var flag := Upper(Strip(parts[1]));
        if flag == "F" {
          translateFlag := false;
        }
      }
      assert translateFlag == TranslateFlag(parts);
      if |url| > 0 {
        assert parsed == Some(FeedConfig(url, translateFlag));
        configs := configs + [FeedConfig(url, translateFlag)];
      } else {
        assert parsed == None;
      }
    }
    assert items[..|items|] == items;
  }

  /** RSS_URLS: the urls of RSS_CONFIGS, in the same order. */
  function RssUrls(configs: seq<FeedConfig>): (r: seq<string>)
    ensures |r| == |configs|
    ensures forall k :: 0 <= k < |r| ==> r[k] == configs[k].url
  {
    seq(|configs|, k requires 0 <= k < |configs| => configs[k].url)
  }

  /** The documented form of one feed: URL@T or URL@F. */
  function FormatFeed(c: FeedConfig): string {
    c.url + "@" + (if c.translate then "T" else "F")
  }

  function FormatAll(cs: seq<FeedConfig>): (r: seq<string>)
    ensures |r| == |cs|
    ensures forall k :: 0 <= k < |cs| ==> r[k] == FormatFeed(cs[k])
  {
    if |cs| == 0 then [] else FormatAll(cs[..|cs| - 1]) + [FormatFeed(cs[|cs| - 1])]
  }

  function FormatFeeds(cs: seq<FeedConfig>): string {
    Join(FormatAll(cs), ',')
  }

  /** A url followed by a stripped flag parses back to that url; the flag
      turns translation off exactly when it is "F" or "f". */
  lemma ParseUrlWithFlag(url: string, flag: string)
    requires PlainUrl(url) && IsStripped(flag) && '@' !in flag
    ensures ParseFeedItem(url + "@" + flag) == Some(FeedConfig(url, !(flag == "F" || flag == "f")))
  {
    var s := url + "@" + flag;
    assert s[0] == url[0];
    assert s[|s| - 1] == if |flag| == 0 then '@' else flag[|flag| - 1];
    StripOfStripped(s);
    SplitAtSep(url, '@', flag);
    SplitWithoutSep(flag, '@');
    assert Split(s, '@') == [url, flag];
    StripOfStripped(url);
    StripOfStripped(flag);
    UpperIsF(flag);
  }

  /** Without a flag, translation defaults to on. */
  lemma ParseUrlWithoutFlag(url: string)
    requires PlainUrl(url)
    ensures ParseFeedItem(url) == Some(FeedConfig(url, true))
  {
    StripOfStripped(url);
    SplitWithoutSep(url, '@');
  }

  lemma ParseFormatFeed(c: FeedConfig)
    requires PlainUrl(c.url)
    ensures ParseFeedItem(FormatFeed(c)) == Some(c)
  {
    ParseUrlWithFlag(c.url, if c.translate then "T" else "F");
  }

  lemma DropLastThenAppend<T>(s: seq<T>)
    requires |s| > 0
    ensures s[..|s| - 1] + [s[|s| - 1]] == s
  {
  }

  lemma {:induction false} FeedConfigsOfFormatted(cs: seq<FeedConfig>)
    requires forall k :: 0 <= k < |cs| ==> PlainUrl(cs[k].url)
    ensures FeedConfigs(FormatAll(cs)) == cs
    decreases |cs|
  {
    if |cs| > 0 {
      var n := |cs| - 1;
      var items := FormatAll(cs);
      DropLastThenAppend(cs);
      FeedConfigsOfFormatted(cs[..n]);
      ParseFormatFeed(cs[n]);
      assert items[..n] == FormatAll(cs[..n]);
      assert FeedConfigs(items) == FeedConfigs(items[..n]) + [cs[n]];
    }
  }

  /** Writing feeds in the documented URL@T/URL@F form and parsing them
      gives back exactly those feeds, in order. */
  lemma RssConfigsOfFormat(cs: seq<FeedConfig>)
    requires forall k :: 0 <= k < |cs| ==> PlainUrl(cs[k].url)
    ensures RssConfigs(FormatFeeds(cs)) == cs
  {
    var items := FormatAll(cs);
    if |cs| == 0 {
      assert Split("", ',') == [""];
      assert FeedConfigs([""]) == [];
    } else {
      forall k | 0 <= k < |items| ensures ',' !in items[k] {
        assert items[k] == cs[k].url + "@" + (if cs[k].translate then "T" else "F");
      }
      SplitOfJoin(items, ',');
      FeedConfigsOfFormatted(cs);
    }
  }

  // ---------------------------------------------------------------------
  // parse_csv

  function CsvItems(pieces: seq<string>): (r: seq<string>)
    ensures |r| <= |pieces|
    ensures forall k :: 0 <= k < |r| ==> |r[k]| > 0 && IsStripped(r[k])
    ensures (forall k :: 0 <= k < |pieces| ==> ',' !in pieces[k]) ==>
              forall k :: 0 <= k < |r| ==> ',' !in r[k]
  {
    if |pieces| == 0 then []
    else
      var head := Strip(pieces[0]);
      (if |head| > 0 then [head] else []) + CsvItems(pieces[1..])
  }

  /** `parse_csv`: the non-empty stripped pieces of a comma-separated value,
      in input order. */
  function ParseCsv(value: string): (r: seq<string>)
    ensures forall k :: 0 <= k < |r| ==> |r[k]| > 0 && IsStripped(r[k]) && ',' !in r[k]
  {
    CsvItems(Split(value, ','))
  }

  lemma {:induction false} CsvItemsOfClean(xs: seq<string>)
    requires forall k :: 0 <= k < |xs| ==> |xs[k]| > 0 && IsStripped(xs[k])
    ensures CsvItems(xs) == xs
  {
    if |xs| > 0 {
      StripOfStripped(xs[0]);
      CsvItemsOfClean(xs[1..]);
    }
  }

  /** Joining clean items with commas and parsing gives the items back. */
  lemma ParseCsvOfJoin(xs: seq<string>)
    requires forall k :: 0 <= k < |xs| ==> |xs[k]| > 0 && IsStripped(xs[k]) && ',' !in xs[k]
    ensures ParseCsv(Join(xs, ',')) == xs
  {
    if |xs| == 0 {
      assert Split("", ',') == [""];
    } else {
      SplitOfJoin(xs, ',');
      CsvItemsOfClean(xs);
    }
  }

  /** Re-serialising a parsed list and parsing it again changes nothing. */
  lemma ParseCsvIdempotent(value: string)
    ensures ParseCsv(Join(ParseCsv(value), ',')) == ParseCsv(value)
  {
    ParseCsvOfJoin(ParseCsv(value));
  }

  lemma {:induction false} CsvItemsConcat(p: seq<string>, q: seq<string>)
    ensures CsvItems(p + q) == CsvItems(p) + CsvItems(q)
    decreases |p|
  {
    if |p| > 0 {
      var head := Strip(p[0]);
      var h := if |head| > 0 then [head] else [];
      assert (p + q)[0] == p[0];
      assert (p + q)[1..] == p[1..] + q;
      assert CsvItems(p + q) == h + CsvItems(p[1..] + q);
      CsvItemsConcat(p[1..], q);
      assert CsvItems(p) == h + CsvItems(p[1..]);
    } else {
      assert p + q == q;
    }
  }

  /** Parsing two values joined by a comma parses each one in turn, so
      items keep their input order. */
  lemma ParseCsvConcat(a: string, b: string)
    ensures ParseCsv(a + "," + b) == ParseCsv(a) + ParseCsv(b)
  {
    assert a + "," + b == a + [','] + b;
    SplitConcat(a, b, ',');
    CsvItemsConcat(Split(a, ','), Split(b, ','));
  }

  /** A value without a comma is one item: kept stripped when not blank. */
  lemma ParseCsvItem(s: string)
    requires ',' !in s
    ensures ParseCsv(s) == if |Strip(s)| > 0 then [Strip(s)] else []
  {
    SplitWithoutSep(s, ',');
    assert [s][1..] == [];
  }

  /** Every non-blank piece of the value is kept, stripped. */
  lemma {:induction false} CsvItemsKeep(pieces: seq<string>, k: nat)
    requires k < |pieces| && |Strip(pieces[k])| > 0
    ensures Strip(pieces[k]) in CsvItems(pieces)
  {
    if k > 0 {
      CsvItemsKeep(pieces[1..], k - 1);
    }
  }

  // ---------------------------------------------------------------------
  // Notification channels

  datatype Channel = Telegram | Feishu

  function ChannelName(c: Channel): string {
    match c
    case Telegram => "telegram"
    case Feishu => "feishu"
  }

  /** The supported channel a (lower-cased) name stands for. */
  function ChannelNamed(name: string): (r: Option<Channel>)
    ensures r.Some? <==> name == "telegram" || name == "feishu"
    ensures r.Some? ==> ChannelName(r.value) == name
  {
    if name == "telegram" then Some(Telegram)
    else if name == "feishu" then Some(Feishu)
    else None
  }

  /** The value NOTIFY_CHANNELS defaults to. */
  const DefaultChannelNames: string := "telegram,feishu"

  /** Every item lower-cased: no upper-case ASCII letter is left, and
      non-empty comma-free items stay so. */
  function LowerAll(items: seq<string>): (r: seq<string>)
    ensures |r| == |items|
    ensures forall k :: 0 <= k < |items| ==> r[k] == Lower(items[k])
    ensures forall k, i :: 0 <= k < |r| && 0 <= i < |r[k]| ==> !('A' <= r[k][i] <= 'Z')
    ensures (forall k :: 0 <= k < |items| ==> |items[k]| > 0 && ',' !in items[k]) ==>
              forall k :: 0 <= k < |r| ==> |r[k]| > 0 && ',' !in r[k]
  {
    var r := seq(|items|, k requires 0 <= k < |items| => Lower(items[k]));
    assert forall k, i :: 0 <= k < |r| && 0 <= i < |r[k]| ==> r[k][i] == LowerChar(items[k][i]);
    r
  }

  /** NOTIFY_CHANNELS: the lower-cased items of the variable, which
      defaults to "telegram,feishu" when unset. */
  function NotifyChannels(env: Environ): (r: seq<string>)
    ensures forall k :: 0 <= k < |r| ==> |r[k]| > 0 && ',' !in r[k]
    ensures forall k, i :: 0 <= k < |r| && 0 <= i < |r[k]| ==> !('A' <= r[k][i] <= 'Z')
  {
    LowerAll(ParseCsv(GetenvOr(env, "NOTIFY_CHANNELS", DefaultChannelNames)))
  }

  /** A step of `DefaultNotifyChannels`: lower-casing the two supported
      names changes nothing. */
  lemma ChannelNamesAreLowerCase()
    ensures LowerAll(["telegram", "feishu"]) == ["telegram", "feishu"]
  {
    LowerOfLowerCase("telegram");
    LowerOfLowerCase("feishu");
  }

  lemma DefaultChannelList()
    ensures ParseCsv(DefaultChannelNames) == ["telegram", "feishu"]
  {
    var xs := ["telegram", "feishu"];
    assert Join(xs, ',') == "telegram,feishu";
    ParseCsvOfJoin(xs);
  }

  /** With NOTIFY_CHANNELS unset both channels are requested, telegram first. */
  lemma DefaultNotifyChannels(env: Environ)
    requires "NOTIFY_CHANNELS" !in env
    ensures NotifyChannels(env) == ["telegram", "feishu"]
  {
    DefaultChannelList();
    ChannelNamesAreLowerCase();
  }

  predicate NoDuplicates<T(==)>(s: seq<T>) {
    forall i, j :: 0 <= i < j < |s| ==> s[i] != s[j]
  }

  /** Index of the first occurrence of `x` in `s`, or |s| when absent. */
  function FirstIndex(s: seq<string>, x: string): (r: nat)
    ensures r <= |s|
    ensures r < |s| <==> x in s
    ensures r < |s| ==> s[r] == x
    ensures forall q :: 0 <= q < r ==> s[q] != x
  {
    if |s| == 0 then 0
    else if s[0] == x then 0
    else 1 + FirstIndex(s[1..], x)
  }

  /** Channels listed in the order their names first occur in `names`. */
  predicate InFirstOccurrenceOrder(chs: seq<Channel>, names: seq<string>) {
    forall i, j :: 0 <= i < j < |chs| ==>
      FirstIndex(names, ChannelName(chs[i])) < FirstIndex(names, ChannelName(chs[j]))
  }

  /** The first loop of build_enabled_channels: supported names only, each
      kept at its first occurrence. */
  function Requested(names: seq<string>): (r: seq<Channel>)
    ensures NoDuplicates(r)
    ensures forall c :: c in r <==> ChannelName(c) in names
  {
    if |names| == 0 then []
    else
      var init := Requested(names[..|names| - 1]);
      var last := names[|names| - 1];
      assert names == names[..|names| - 1] + [last];
      match ChannelNamed(last)
      case Some(c) => if c in init then init else init + [c]
      case None => init
  }

  lemma FirstIndexInPrefix(names: seq<string>, k: nat, x: string)
    requires k <= |names| && x in names[..k]
    ensures FirstIndex(names[..k], x) == FirstIndex(names, x)
  {
    var i := FirstIndex(names[..k], x);
    assert names[i] == x;
    assert forall q :: 0 <= q < i ==> names[q] == names[..k][q];
  }

  /** A name absent before position n and present at n first occurs at n. */
  lemma FirstIndexAt(names: seq<string>, n: nat, x: string)
    requires n < |names| && names[n] == x && x !in names[..n]
    ensures FirstIndex(names, x) == n
  {
    assert forall q :: 0 <= q < n ==> names[q] == names[..n][q];
  }

  /** Order by first occurrence in a prefix is order by first occurrence in
      the whole list, for channels named in that prefix. */
  lemma PrefixOrder(chs: seq<Channel>, names: seq<string>, n: nat)
    requires n <= |names|
    requires InFirstOccurrenceOrder(chs, names[..n])
    requires forall c :: c in chs ==> ChannelName(c) in names[..n]
    ensures InFirstOccurrenceOrder(chs, names)
    ensures forall c :: c in chs ==> FirstIndex(names, ChannelName(c)) < n
  {
    forall c | c in chs ensures FirstIndex(names, ChannelName(c)) < n {
      FirstIndexInPrefix(names, n, ChannelName(c));
    }
    forall i, j | 0 <= i < j < |chs|
      ensures FirstIndex(names, ChannelName(chs[i])) < FirstIndex(names, ChannelName(chs[j]))
    {
      FirstIndexInPrefix(names, n, ChannelName(chs[i]));
      FirstIndexInPrefix(names, n, ChannelName(chs[j]));
    }
  }

  /** The last name adds its channel when supported and not yet requested. */
  lemma RequestedLast(names: seq<string>)
    requires |names| > 0
    ensures var n := |names| - 1;
      var init := Requested(names[..n]);
      var c := ChannelNamed(names[n]);
      Requested(names) == if c.Some? && c.value !in init then init + [c.value] else init
  {
  }

  /** One step of the first loop keeps first-occurrence order. */
  lemma RequestedOrderStep(init: seq<Channel>, names: seq<string>, n: nat, c: Option<Channel>)
    requires n < |names|
    requires InFirstOccurrenceOrder(init, names[..n])
    requires forall x :: x in init <==> ChannelName(x) in names[..n]
    requires c.Some? ==> ChannelName(c.value) == names[n]
    ensures InFirstOccurrenceOrder(if c.Some? && c.value !in init then init + [c.value] else init, names)
  {
    PrefixOrder(init, names, n);
    if c.Some? && c.value !in init {
      FirstIndexAt(names, n, ChannelName(c.value));
      OrderAppend(init, c.value, names);
    }
  }

  lemma {:induction false} RequestedOrder(names: seq<string>)
    ensures InFirstOccurrenceOrder(Requested(names), names)
    decreases |names|
  {
    if |names| > 0 {
      var n := |names| - 1;
      RequestedOrder(names[..n]);
      RequestedLast(names);
      RequestedOrderStep(Requested(names[..n]), names, n, ChannelNamed(names[n]));
    }
  }

  /** Whether the credentials a channel needs are all present. */
  function Ready(c: Channel, telegramReady: bool, feishuReady: bool): bool {
    match c
    case Telegram => telegramReady
    case Feishu => feishuReady
  }

  /** The second loop: the requested channels whose credentials are present. */
  function Gated(requested: seq<Channel>, telegramReady: bool, feishuReady: bool): (r: seq<Channel>)
    ensures |r| <= |requested|
    ensures forall c :: c in r <==> c in requested && Ready(c, telegramReady, feishuReady)
  {
    if |requested| == 0 then []
    else
      var init := Gated(requested[..|requested| - 1], telegramReady, feishuReady);
      var last := requested[|requested| - 1];
      assert requested == requested[..|requested| - 1] + [last];
      if Ready(last, telegramReady, feishuReady) then init + [last] else init
  }

  lemma GatedStep(requested: seq<Channel>, j: nat, telegramReady: bool, feishuReady: bool)
    requires j < |requested|
    ensures Gated(requested[..j + 1], telegramReady, feishuReady)
         == Gated(requested[..j], telegramReady, feishuReady)
            + (if Ready(requested[j], telegramReady, feishuReady) then [requested[j]] else [])
  {
    assert requested[..j + 1][..j] == requested[..j];
  }

  lemma {:induction false} GatedKeepsOrder(requested: seq<Channel>, names: seq<string>, tg: bool, fs: bool)
    requires NoDuplicates(requested) && InFirstOccurrenceOrder(requested, names)
    ensures NoDuplicates(Gated(requested, tg, fs))
    ensures InFirstOccurrenceOrder(Gated(requested, tg, fs), names)
    decreases |requested|
  {
    if |requested| > 0 {
      var n := |requested| - 1;
      var init := Gated(requested[..n], tg, fs);
      GatedKeepsOrder(requested[..n], names, tg, fs);
      var last := requested[n];
      if Ready(last, tg, fs) {
        forall i | 0 <= i < |init|
          ensures init[i] != last
          ensures FirstIndex(names, ChannelName(init[i])) < FirstIndex(names, ChannelName(last))
        {
          assert init[i] in requested[..n];
          var m :| 0 <= m < n && requested[..n][m] == init[i];
          assert requested[m] == init[i];
        }
        OrderAppend(init, last, names);
      }
    }
  }

  lemma OrderAppend(init: seq<Channel>, last: Channel, names: seq<string>)
    requires InFirstOccurrenceOrder(init, names)
    requires forall i :: 0 <= i < |init| ==> FirstIndex(names, ChannelName(init[i])) < FirstIndex(names, ChannelName(last))
    ensures InFirstOccurrenceOrder(init + [last], names)
  {
    var r := init + [last];
    forall i, j | 0 <= i < j < |r|
      ensures FirstIndex(names, ChannelName(r[i])) < FirstIndex(names, ChannelName(r[j]))
    {
      if j < |init| {
        assert r[i] == init[i] && r[j] == init[j];
      } else {
        assert r[i] == init[i] && r[j] == last;
      }
    }
  }

  /** TG_BOT_TOKEN and TG_CHAT_ID both set and non-empty. */
  predicate TelegramReady(botToken: Option<string>, chatId: Option<string>) {
    Truthy(botToken) && Truthy(chatId)
  }

  /** FEISHU_APP_ID, FEISHU_APP_SECRET non-empty and at least one receive id. */
  predicate FeishuReady(appId: Option<string>, appSecret: Option<string>, receiveIds: seq<string>) {
    Truthy(appId) && Truthy(appSecret) && receiveIds != []
  }

  function EnabledChannels(names: seq<string>, botToken: Option<string>, chatId: Option<string>,
                           appId: Option<string>, appSecret: Option<string>, receiveIds: seq<string>): seq<Channel>
  {
    Gated(Requested(names), TelegramReady(botToken, chatId), FeishuReady(appId, appSecret, receiveIds))
  }

  /** The enabled channels: each at most once, in the order the names first
      occur, telegram exactly when requested and configured, feishu likewise. */
  lemma EnabledChannelsSpec(names: seq<string>, botToken: Option<string>, chatId: Option<string>,
                            appId: Option<string>, appSecret: Option<string>, receiveIds: seq<string>)
    ensures var r := EnabledChannels(names, botToken, chatId, appId, appSecret, receiveIds);
      && (Telegram in r <==> "telegram" in names && TelegramReady(botToken, chatId))
      && (Feishu in r <==> "feishu" in names && FeishuReady(appId, appSecret, receiveIds))
      && NoDuplicates(r)
      && InFirstOccurrenceOrder(r, names)
  {
    RequestedOrder(names);
    GatedKeepsOrder(Requested(names), names, TelegramReady(botToken, chatId), FeishuReady(appId, appSecret, receiveIds));
  }

  /** The first loop of build_enabled_channels (config.py:70-77): supported
      names, each kept once, in the order they first appear. */
  method RequestChannels(names: seq<string>) returns (requested: seq<Channel>)
    ensures requested == Requested(names)
    ensures NoDuplicates(requested) && InFirstOccurrenceOrder(requested, names)
    ensures forall c :: c in requested <==> ChannelName(c) in names
  {
    requested := [];
    var i := 0;
    while i < |names|
      invariant 0 <= i <= |names|
      invariant requested == Requested(names[..i])
    {
      assert names[..i + 1][..i] == names[..i];
      RequestedLast(names[..i + 1]);
      var channel := ChannelNamed(names[i]);
      i := i + 1;
      if channel.None? {
        continue;
      }
      if channel.value in requested {
        continue;
      }
      requested := requested + [channel.value];
    }
    assert names[..|names|] == names;
    RequestedOrder(names);
  }

  /** The second loop of build_enabled_channels (config.py:79-92): keep a
      requested channel exactly when its credentials are present. */
  method GateChannels(requested: seq<Channel>, telegramReady: bool, feishuReady: bool)
    returns (enabled: seq<Channel>)
    ensures enabled == Gated(requested, telegramReady, feishuReady)
    ensures forall c :: c in enabled <==> c in requested && Ready(c, telegramReady, feishuReady)
  {
    enabled := [];
    var j := 0;
    while j < |requested|
      invariant 0 <= j <= |requested|
      invariant enabled == Gated(requested[..j], telegramReady, feishuReady)
    {
      GatedStep(requested, j, telegramReady, feishuReady);
      var channel := requested[j];
      if channel == Telegram {
        if telegramReady {
          enabled := enabled + [channel];
        }
      } else if channel == Feishu {
        if feishuReady {
          enabled := enabled + [channel];
        }
      }
      j := j + 1;
    }
    assert requested[..|requested|] == requested;
  }

  /** build_enabled_channels (config.py:66-94), over its inputs as values. */
  method BuildEnabledChannels(names: seq<string>, botToken: Option<string>, chatId: Option<string>,
                              appId: Option<string>, appSecret: Option<string>, receiveIds: seq<string>)
    returns (enabled: seq<Channel>)
    ensures enabled == EnabledChannels(names, botToken, chatId, appId, appSecret, receiveIds)
    ensures Telegram in enabled <==> "telegram" in names && TelegramReady(botToken, chatId)
    ensures Feishu in enabled <==> "feishu" in names && FeishuReady(appId, appSecret, receiveIds)
    ensures NoDuplicates(enabled) && InFirstOccurrenceOrder(enabled, names)
  {
    var requested := RequestChannels(names);
    enabled := GateChannels(requested, TelegramReady(botToken, chatId), FeishuReady(appId, appSecret, receiveIds));
    EnabledChannelsSpec(names, botToken, chatId, appId, appSecret, receiveIds);
  }

  // ---------------------------------------------------------------------
  // The settings the notifier reads

  datatype TelegramSettings = TelegramSettings(botToken: Option<string>, chatId: Option<string>)

  datatype FeishuSettings = FeishuSettings(
    apiBase: string, appId: Option<string>, appSecret: Option<string>,
    receiveIdType: string, receiveIds: seq<string>)

  datatype Settings = Settings(
    feeds: seq<FeedConfig>, telegram: TelegramSettings, feishu: FeishuSettings, enabled: seq<Channel>)

  /** The module-level values of config.py, read from `env`. */
  function LoadSettings(env: Environ): (s: Settings)
    ensures Telegram in s.enabled <==>
      "telegram" in NotifyChannels(env) && TelegramReady(Getenv(env, "TG_BOT_TOKEN"), Getenv(env, "TG_CHAT_ID"))
    ensures Feishu in s.enabled <==>
      && "feishu" in NotifyChannels(env)
      && FeishuReady(Getenv(env, "FEISHU_APP_ID"), Getenv(env, "FEISHU_APP_SECRET"),
                     ParseCsv(GetenvOr(env, "FEISHU_RECEIVE_IDS", "")))
  {
    var telegram := TelegramSettings(Getenv(env, "TG_BOT_TOKEN"), Getenv(env, "TG_CHAT_ID"));
    var feishu := FeishuSettings(
      GetenvOr(env, "FEISHU_API_BASE", "https://open.feishu.cn/open-apis"),
      Getenv(env, "FEISHU_APP_ID"), Getenv(env, "FEISHU_APP_SECRET"),
      GetenvOr(env, "FEISHU_RECEIVE_ID_TYPE", "chat_id"),
      ParseCsv(GetenvOr(env, "FEISHU_RECEIVE_IDS", "")));
    var names := NotifyChannels(env);
    EnabledChannelsSpec(names, telegram.botToken, telegram.chatId, feishu.appId, feishu.appSecret, feishu.receiveIds);
    Settings(RssConfigs(GetenvOr(env, "RSS_URL", "")), telegram, feishu,
             EnabledChannels(names, telegram.botToken, telegram.chatId, feishu.appId, feishu.appSecret, feishu.receiveIds))
  }
}
