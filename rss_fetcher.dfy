/** The checkpoint store and the selection of new entries (rss_fetcher.py).
    Fetching and parsing the feed, and extracting text and images from an
    entry's HTML, happen outside: the model receives the parsed entries. */
module RssFetcher {
  import opened Wrappers

  // ---------------------------------------------------------------------
  // Checkpoint store

  /** Feed URL -> link of the last entry handled for that feed. */
  type State = map<string, string>

  /** What the state file holds. */
  datatype StateFile =
    | Missing              // no file at STATE_FILE
    | Unreadable           // cannot be opened, or is not valid JSON
    | NotAnObject          // valid JSON whose top level is not an object
    | Stored(state: State)

  /** How an attempt to write the state file ends.  `open(path, "w")`
      truncates the file before `json.dump` writes it, so a failure inside
      the dump leaves a file that no longer parses. */
  datatype WriteOutcome = Written | OpenFailed | DumpFailed

  /** load_state: the stored map; anything else loads as the empty map. */
  function LoadState(f: StateFile): (r: State)
    ensures f.Stored? ==> r == f.state
    ensures r != map[] ==> f.Stored?
  {
    if f.Stored? then f.state else map[]
  }

  /** save_state: the file after an attempt to write `s` over `f`. */
  function StoreState(f: StateFile, s: State, outcome: WriteOutcome): (r: StateFile)
    ensures outcome == Written ==> r.Stored? && LoadState(r) == s
    ensures outcome == OpenFailed ==> r == f
    ensures outcome == DumpFailed ==> !r.Stored? && LoadState(r) == map[]
  {
    match outcome
    case Written => Stored(s)
    case OpenFailed => f
    case DumpFailed => Unreadable
  }

  /** load_last_link. */
  function LastLink(f: StateFile, url: string): (r: Option<string>)
    ensures r.Some? <==> f.Stored? && url in f.state
    ensures r.Some? ==> r.value == f.state[url]
  {
    var s := LoadState(f);
    if url in s then Some(s[url]) else None
  }

  /** save_last_link: read the whole map, set one key, write it all back. */
  function FileAfterSave(f: StateFile, url: string, link: string, outcome: WriteOutcome): (r: StateFile)
    ensures outcome == Written ==>
      && r.Stored?
      && r.state.Keys == LoadState(f).Keys + {url}
      && r.state[url] == link
      && forall k :: k in r.state && k != url ==> r.state[k] == LoadState(f)[k]
    ensures outcome == OpenFailed ==> r == f
    ensures outcome == DumpFailed ==> LoadState(r) == map[]
  {
    StoreState(f, LoadState(f)[url := link], outcome)
  }

  /** A file that is missing, unreadable or not an object holds no checkpoint. */
  lemma NoStateNoCheckpoint(f: StateFile, url: string)
    requires !f.Stored?
    ensures LastLink(f, url) == None
  {
  }

  /** After a successful save, the saved feed reads back the new link and
      every other feed reads back what it read before. */
  lemma SaveThenLoad(f: StateFile, url: string, link: string, other: string)
    ensures LastLink(FileAfterSave(f, url, link, Written), url) == Some(link)
    ensures other != url ==>
      LastLink(FileAfterSave(f, url, link, Written), other) == LastLink(f, other)
  {
  }

  /** A save that fails inside the dump loses every feed's checkpoint. */
  lemma FailedDumpLosesState(f: StateFile, url: string, link: string, other: string)
    ensures LastLink(FileAfterSave(f, url, link, DumpFailed), other) == None
  {
  }

  /** The state file, which save_last_link rewrites in place. */
  class StateStore {
    var file: StateFile

    constructor (f: StateFile)
      ensures file == f
    {
      file := f;
    }

    /** load_last_link(url) against the current file. */
    function LoadLastLink(url: string): (r: Option<string>)
      reads this
      ensures r.Some? <==> file.Stored? && url in file.state
      ensures r.Some? ==> r.value == file.state[url]
    {
      LastLink(file, url)
    }

    /** save_last_link(url, link); the write ends as `outcome` says. */
    method SaveLastLink(url: string, link: string, outcome: WriteOutcome)
      modifies this
      ensures file == FileAfterSave(old(file), url, link, outcome)
      ensures outcome == Written ==> LoadLastLink(url) == Some(link)
      ensures outcome == Written ==>
        forall other :: other != url ==> LoadLastLink(other) == old(LoadLastLink(other))
    {
      var state := LoadState(file);
      state := state[url := link];
      file := StoreState(file, state, outcome);
    }
  }

  // ---------------------------------------------------------------------
  // Selecting the new entries of a feed

  /** One feed entry after extraction.  `link`, `content` and `published`
      are "" when the entry lacks them; `content` and `images` are what the
      HTML-to-text conversion and the <img> scan of the description gave. */
  datatype Entry = Entry(
    link: string, author: Option<string>, content: string, published: string, images: seq<string>)

  /** A parsed feed: entries newest-first and the feed's own title. */
  datatype Feed = Feed(entries: seq<Entry>, title: Option<string>)

  /** The record fetch_new_tweets returns for one entry. */
  datatype Tweet = Tweet(
    link: string, author: string, content: string, published: string, images: seq<string>)

  /** An entry's author, else the feed's title, else "Unknown". */
  function ToTweet(e: Entry, feedTitle: Option<string>): Tweet {
    Tweet(e.link, e.author.GetOr(feedTitle.GetOr("Unknown")), e.content, e.published, e.images)
  }

  function Tweets(es: seq<Entry>, feedTitle: Option<string>): (r: seq<Tweet>)
    ensures |r| == |es|
    ensures forall k :: 0 <= k < |es| ==> r[k] == ToTweet(es[k], feedTitle)
  {
    seq(|es|, k requires 0 <= k < |es| => ToTweet(es[k], feedTitle))
  }

  /** Python's `list(reversed(s))`. */
  function Reversed<T>(s: seq<T>): (r: seq<T>)
    ensures |r| == |s|
    ensures forall k :: 0 <= k < |s| ==> r[k] == s[|s| - 1 - k]
  {
    if |s| == 0 then [] else Reversed(s[1..]) + [s[0]]
  }

  /** The scan of rss_fetcher.py:88-134, newest-first: stop at the first
      entry whose link is the checkpoint, skip entries without a link, keep
      the rest.  The equality test comes before the empty-link test. */
  function Scan(es: seq<Entry>, last: string): (r: seq<Entry>)
    ensures |r| <= |es|
    ensures forall k :: 0 <= k < |r| ==> |r[k].link| > 0 && r[k].link != last
  {
    if |es| == 0 then []
    else if es[0].link == last then []
    else if |es[0].link| == 0 then Scan(es[1..], last)
    else [es[0]] + Scan(es[1..], last)
  }

  /** The entries that have a link, in order. */
  function Linked(es: seq<Entry>): (r: seq<Entry>)
    ensures |r| <= |es|
  {
    if |es| == 0 then []
    else (if |es[0].link| > 0 then [es[0]] else []) + Linked(es[1..])
  }

  /** Index of the first entry whose link is `last`, or |es| if none is. */
  function Cut(es: seq<Entry>, last: string): (n: nat)
    ensures n <= |es|
    ensures forall k :: 0 <= k < n ==> es[k].link != last
    ensures n < |es| ==> es[n].link == last
  {
    if |es| == 0 || es[0].link == last then 0 else 1 + Cut(es[1..], last)
  }

  /** The scan returns exactly the linked entries that precede the first
      entry carrying the checkpoint link. */
  lemma {:induction false} ScanIsLinkedPrefix(es: seq<Entry>, last: string)
    ensures Scan(es, last) == Linked(es[..Cut(es, last)])
  {
    if |es| > 0 && es[0].link != last {
      ScanIsLinkedPrefix(es[1..], last);
      var n := Cut(es, last);
      assert es[..n][1..] == es[1..][..n - 1];
    }
  }

  /** If the checkpoint link appears nowhere in the feed (the feed was
      reset or rotated), every entry with a link is new. */
  lemma {:induction false} ScanWithoutCheckpoint(es: seq<Entry>, last: string)
    requires forall k :: 0 <= k < |es| ==> es[k].link != last
    ensures Scan(es, last) == Linked(es)
  {
    if |es| > 0 {
      ScanWithoutCheckpoint(es[1..], last);
    }
  }

  /** When the newest entry carries the checkpoint link, nothing is new. */
  lemma ScanUpToDate(es: seq<Entry>, last: string)
    requires es != [] && es[0].link == last
    ensures Scan(es, last) == []
  {
  }

  /** Checkpointing the newest selected link and scanning the same feed
      again selects nothing: the scan converges. */
  lemma {:induction false} ScanConverges(es: seq<Entry>, last: string)
    requires Scan(es, last) != []
    ensures Scan(es, Scan(es, last)[0].link) == []
  {
    if es[0].link != last && |es[0].link| == 0 {
      ScanConverges(es[1..], last);
    }
  }

  /** An empty checkpoint stops the scan at the first entry without a link:
      the test for the checkpoint runs before the test for a missing link. */
  lemma {:induction false} ScanEmptyCheckpoint(es: seq<Entry>)
    ensures Scan(es, "") == es[..Cut(es, "")]
  {
    if |es| > 0 && es[0].link != "" {
      ScanEmptyCheckpoint(es[1..]);
      var n := Cut(es, "");
      assert es[..n] == [es[0]] + es[1..][..n - 1];
    }
  }

  /** What fetch_new_tweets returns once a checkpoint exists: the scanned
      entries as tweets, oldest-first. */
  function NewTweets(es: seq<Entry>, last: string, feedTitle: Option<string>): (r: seq<Tweet>)
    ensures |r| <= |es|
    ensures forall k :: 0 <= k < |r| ==> |r[k].link| > 0 && r[k].link != last
  {
    Reversed(Tweets(Scan(es, last), feedTitle))
  }

  /** Oldest-first: the k-th tweet returned is the k-th selected entry
      counted from the oldest end. */
  lemma NewTweetsOldestFirst(es: seq<Entry>, last: string, feedTitle: Option<string>, k: nat)
    requires k < |NewTweets(es, last, feedTitle)|
    ensures var s := Scan(es, last);
      NewTweets(es, last, feedTitle)[k] == ToTweet(s[|s| - 1 - k], feedTitle)
  {
    var s := Scan(es, last);
    var t := Tweets(s, feedTitle);
    assert |t| == |s|;
    assert Reversed(t)[k] == t[|t| - 1 - k];
  }

  /** The loop of fetch_new_tweets (rss_fetcher.py:88-136) with `break`,
      `continue` and the final reversal. */
  method SelectNewTweets(entries: seq<Entry>, lastLink: string, feedTitle: Option<string>)
    returns (tweets: seq<Tweet>)
    ensures tweets == NewTweets(entries, lastLink, feedTitle)
    ensures |tweets| <= |entries|
    ensures forall k :: 0 <= k < |tweets| ==> |tweets[k].link| > 0 && tweets[k].link != lastLink
  {
    var newTweets: seq<Tweet> := [];
    ghost var collected: seq<Entry> := [];
    var i := 0;
    while i < |entries|
      invariant 0 <= i <= |entries|
      invariant collected + Scan(entries[i..], lastLink) == Scan(entries, lastLink)
      invariant newTweets == Tweets(collected, feedTitle)
    {
      var currentLink := entries[i].link;
      assert entries[i..][1..] == entries[i + 1..];
      if currentLink == lastLink {
        break;
      }
      if |currentLink| == 0 {
        i := i + 1;
        continue;
      }
      assert Scan(entries[i..], lastLink) == [entries[i]] + Scan(entries[i + 1..], lastLink);
      newTweets := newTweets + [ToTweet(entries[i], feedTitle)];
      collected := collected + [entries[i]];
      i := i + 1;
    }
    assert Scan(entries[i..], lastLink) == [];
    assert collected == Scan(entries, lastLink);
    tweets := Reversed(newTweets);
  }

  // ---------------------------------------------------------------------
  // fetch_new_tweets as a whole

  /** The tweets fetch_new_tweets returns for `url`, given the feed the
      fetch produced (None when both fetch attempts raised) and the state
      file as it was. */
  function FetchedTweets(url: string, fetched: Option<Feed>, f: StateFile): seq<Tweet> {
    if |url| == 0 || fetched.None? || fetched.value.entries == [] then []
    else match LastLink(f, url)
      case None => []
      case Some(last) => NewTweets(fetched.value.entries, last, fetched.value.title)
  }

  /** The state file after fetch_new_tweets: only first contact with a feed
      whose newest entry has a link writes, seeding that link. */
  function FileAfterFetch(url: string, fetched: Option<Feed>, f: StateFile, outcome: WriteOutcome): StateFile {
    if |url| == 0 || fetched.None? || fetched.value.entries == [] then f
    else if LastLink(f, url).None? && fetched.value.entries[0].link != "" then
      FileAfterSave(f, url, fetched.value.entries[0].link, outcome)
    else f
  }

  /** An empty url, a failed fetch or a feed without entries returns nothing
      and leaves the state file alone. */
  lemma FetchEarlyExits(url: string, fetched: Option<Feed>, f: StateFile, outcome: WriteOutcome)
    requires |url| == 0 || fetched.None? || fetched.value.entries == []
    ensures FetchedTweets(url, fetched, f) == []
    ensures FileAfterFetch(url, fetched, f, outcome) == f
  {
  }

  /** First contact delivers nothing and checkpoints the newest link. */
  lemma FirstContact(url: string, feed: Feed, f: StateFile)
    requires url != "" && feed.entries != [] && LastLink(f, url) == None
    ensures FetchedTweets(url, Some(feed), f) == []
    ensures feed.entries[0].link != "" ==>
      LastLink(FileAfterFetch(url, Some(feed), f, Written), url) == Some(feed.entries[0].link)
    ensures feed.entries[0].link == "" ==> FileAfterFetch(url, Some(feed), f, Written) == f
  {
  }

  /** Once a checkpoint exists, fetching never writes the state file. */
  lemma CheckpointedFetchDoesNotWrite(url: string, fetched: Option<Feed>, f: StateFile, outcome: WriteOutcome)
    requires LastLink(f, url).Some?
    ensures FileAfterFetch(url, fetched, f, outcome) == f
  {
  }

  /** Fetching a feed for the first time and then again, unchanged, yields
      nothing new either time. */
  lemma FirstContactThenQuiet(url: string, feed: Feed, f: StateFile)
    requires url != "" && feed.entries != [] && feed.entries[0].link != "" && LastLink(f, url) == None
    ensures FetchedTweets(url, Some(feed), FileAfterFetch(url, Some(feed), f, Written)) == []
  {
    var f' := FileAfterFetch(url, Some(feed), f, Written);
    assert LastLink(f', url) == Some(feed.entries[0].link);
    ScanUpToDate(feed.entries, feed.entries[0].link);
  }

  /** fetch_new_tweets(url) (rss_fetcher.py:49-136), from the point where
      the feed has been fetched and parsed. */
  method FetchNewTweets(store: StateStore, url: string, fetched: Option<Feed>, saveOutcome: WriteOutcome)
    returns (tweets: seq<Tweet>)
    modifies store
    ensures tweets == FetchedTweets(url, fetched, old(store.file))
    ensures store.file == FileAfterFetch(url, fetched, old(store.file), saveOutcome)
  {
    if |url| == 0 {
      return [];
    }
    if fetched.None? || fetched.value.entries == [] {
      return [];
    }
    var feed := fetched.value;
    var lastLink := store.LoadLastLink(url);
    if lastLink.None? {
      var firstLink := feed.entries[0].link;
      if |firstLink| > 0 {
        store.SaveLastLink(url, firstLink, saveOutcome);
      }
      return [];
    }
    tweets := SelectNewTweets(feed.entries, lastLink.value, feed.title);
  }
}
