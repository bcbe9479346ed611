/**
 * The item normaliser: turns the items of a fetched feed into post drafts
 * (`rssff_default_fetch` with its helpers and the `rssff_fetch_post` filter
 * `rssff_default_image`).
 */
module Normalizer {
  import opened Wrappers
  import opened Content
  import opened Registry

  datatype Author = Author(email: Option<string>, link: Option<string>, name: Option<string>)

  /** What the engine reads from one SimplePie item. */
  datatype RawItem = RawItem(
    id: string,
    title: string,
    /** `get_date('Y-m-d H:i:s')`, already formatted. */
    date: string,
    content: string,
    /** The `src` of the script inside the item's `comments` tag, when there is one. */
    scriptSrc: Option<string>,
    author: Author,
    /** The `get_link()` of the item's enclosure: None when the enclosure has no URL (PHP `null`). */
    enclosureLink: Option<string>)

  /** `fetch_feed`: an error, or the parsed items in feed order. */
  datatype FeedResponse = FeedError(message: string) | Feed(items: seq<RawItem>)

  /** An md5 digest in hex: always 32 characters. */
  type Digest = s: string | |s| == 32 witness "00000000000000000000000000000000"

  /**
   * The host functions the engine calls and does not define: `fetch_feed`,
   * `md5`, `esc_html`, the image download and sideload behind `save_image`
   * (an attachment id, or the message of the exception it throws), and `time()`.
   */
  datatype Host = Host(
    fetchFeed: string -> FeedResponse,
    md5: string -> Digest,
    escHtml: string -> string,
    saveImage: string -> Result<PostId, string>,
    now: int)

  /** The 28-character prefix of a doubled allvoices image URL. */
  const AllvoicesPrefix := "http://www.allvoices.comhttp"

  /** `rsff_default_author_name`: the author's e-mail, cast to a string. */
  function DefaultAuthorName(item: RawItem): (name: string)
    ensures item.author.email.Some? ==> name == item.author.email.value
    ensures item.author.email.None? ==> name == ""
  {
    match item.author.email
    case Some(e) => e
    case None => ""
  }

  function ScriptTag(src: string): string
  {
    "<script id='ppixel' type='text/javascript' src='" + src + "'></script>"
  }

  /** `rssff_default_item_content`: the item content, followed by a script tag when the item names a script. */
  function DefaultItemContent(item: RawItem): (body: string)
    ensures |item.content| <= |body| && body[..|item.content|] == item.content
    ensures item.scriptSrc.None? ==> body == item.content
    ensures item.scriptSrc.Some? ==> body[|item.content|..] == ScriptTag(item.scriptSrc.value)
  {
    match item.scriptSrc
    case None => item.content
    case Some(src) => item.content + ScriptTag(src)
  }

  /** The allvoices fix of `rssff_default_image`: a doubled host prefix loses its first 24 characters. */
  function FixImageLink(link: string): (fixed: string)
    ensures |link| >= 28 && link[..28] == AllvoicesPrefix ==>
      |fixed| == |link| - 24 && fixed == link[24..] && fixed[..4] == "http"
    ensures !(|link| >= 28 && link[..28] == AllvoicesPrefix) ==> fixed == link
  {
    if |link| >= 28 && link[..28] == AllvoicesPrefix then
      assert link[24..][..4] == link[24..28];
      link[24..]
    else
      link
  }

  /**
   * `rssff_default_image`: records the (fixed) enclosure link as `_rssff_image`;
   * a missing link is recorded as null (`substr` of null never matches the
   * prefix). Everything else is kept.
   */
  function DefaultImage(d: Draft, item: RawItem): (r: Draft)
    ensures r.fields == d.fields
    ensures ImageKey in r.meta
    ensures item.enclosureLink.Some? ==> r.meta[ImageKey] == Some(FixImageLink(item.enclosureLink.value))
    ensures item.enclosureLink.None? ==> r.meta[ImageKey] == None
    ensures r.meta.Keys == d.meta.Keys + {ImageKey}
    ensures forall k :: k in d.meta && k != ImageKey ==> r.meta[k] == d.meta[k]
  {
    var image := match item.enclosureLink
      case Some(link) => Some(FixImageLink(link))
      case None => None;
    d.(meta := d.meta[ImageKey := image])
  }

  /** The body of the `foreach` in `rssff_default_fetch`: one draft for one item. */
  function Normalize(item: RawItem, uri: string, s: Settings, host: Host): (d: Draft)
    ensures d.fields.title == host.escHtml(item.title) && d.fields.date == item.date
    ensures d.fields.content == DefaultItemContent(item)
    ensures d.fields.category == s.postCategory && d.fields.author == s.postAuthor && d.fields.status == s.postStatus
    ensures KeyOf(d) == host.md5(item.id) && Keyed(d)
  {
    var author := DefaultAuthorName(item);
    var fields := PostFields(host.escHtml(item.title), item.date, DefaultItemContent(item),
                             s.postCategory, s.postAuthor, s.postStatus);
    var meta := map["rssff_author" := Some(author), "author_name" := Some(author),
                    IdKey := Some(host.md5(item.id)), SourceKey := Some(uri)];
    DefaultImage(Draft(fields, meta), item)
  }

  /**
   * The `post_meta` of a normalised draft: the author twice, the stable id,
   * the source feed and the image; only the image can be null.
   */
  lemma NormalizeMeta(item: RawItem, uri: string, s: Settings, host: Host)
    ensures var d := Normalize(item, uri, s, host);
      d.meta.Keys == {"rssff_author", "author_name", IdKey, SourceKey, ImageKey} &&
      d.meta["rssff_author"] == d.meta["author_name"] == Some(DefaultAuthorName(item)) &&
      d.meta[IdKey] == Some(host.md5(item.id)) &&
      d.meta[SourceKey] == Some(uri) &&
      (item.enclosureLink.Some? ==> d.meta[ImageKey] == Some(FixImageLink(item.enclosureLink.value))) &&
      (item.enclosureLink.None? ==> d.meta[ImageKey] == None)
  {
  }

  /** One draft per item, in feed order. */
  function NormalizeAll(items: seq<RawItem>, uri: string, s: Settings, host: Host): (ds: seq<Draft>)
    ensures |ds| == |items|
  {
    if items == [] then []
    else [Normalize(items[0], uri, s, host)] + NormalizeAll(items[1..], uri, s, host)
  }

  /** The draft at position `j` comes from the item at position `j`. */
  lemma {:induction false} NormalizeAllAt(items: seq<RawItem>, uri: string, s: Settings, host: Host, j: nat)
    requires j < |items|
    ensures NormalizeAll(items, uri, s, host)[j] == Normalize(items[j], uri, s, host)
  {
    if j > 0 {
      NormalizeAllAt(items[1..], uri, s, host, j - 1);
    }
  }

  /** Normalising one more item appends one more draft. */
  lemma {:induction false} NormalizeAllSnoc(items: seq<RawItem>, item: RawItem, uri: string, s: Settings, host: Host)
    ensures NormalizeAll(items + [item], uri, s, host) == NormalizeAll(items, uri, s, host) + [Normalize(item, uri, s, host)]
  {
    if items != [] {
      assert (items + [item])[1..] == items[1..] + [item];
      NormalizeAllSnoc(items[1..], item, uri, s, host);
    }
  }

  /** The drafts a fetch of `uri` yields: none when the feed cannot be fetched. */
  function FetchedDrafts(uri: string, s: Settings, host: Host): seq<Draft>
  {
    match host.fetchFeed(uri)
    case FeedError(_) => []
    case Feed(items) => NormalizeAll(items, uri, s, host)
  }

  /** Every fetched draft has a usable stable id. */
  lemma FetchedDraftsKeyed(uri: string, s: Settings, host: Host)
    ensures AllKeyed(FetchedDrafts(uri, s, host))
  {
    match host.fetchFeed(uri)
    case FeedError(_) =>
    case Feed(items) =>
      forall j | 0 <= j < |items|
        ensures Keyed(NormalizeAll(items, uri, s, host)[j])
      {
        NormalizeAllAt(items, uri, s, host, j);
      }
  }

  /** Normalising does not look at the identity cache of the settings. */
  lemma {:induction false} NormalizeAllIgnoresCache(items: seq<RawItem>, uri: string, s: Settings,
                                                    cache: Option<map<string, PostId>>, host: Host)
    ensures NormalizeAll(items, uri, s.(managedPosts := cache), host) == NormalizeAll(items, uri, s, host)
  {
    if items != [] {
      NormalizeAllIgnoresCache(items[1..], uri, s, cache, host);
    }
  }

  /**
   * `rssff_default_fetch`: appends one draft per feed item, in feed order,
   * after the incoming list; on a fetch error or an empty feed the incoming
   * list is returned as it is.
   */
  method DefaultFetch(incoming: seq<Draft>, uri: string, s: Settings, host: Host) returns (r: seq<Draft>)
    ensures r == incoming + FetchedDrafts(uri, s, host)
    ensures host.fetchFeed(uri).FeedError? ==> r == incoming
    ensures host.fetchFeed(uri).Feed? ==> |r| == |incoming| + |host.fetchFeed(uri).items|
  {
    r := incoming;
    var response := host.fetchFeed(uri);
    var maxItems := if response.Feed? then |response.items| else 0;
    if maxItems != 0 {
      var items := response.items;
      var drafts := [];
      var i := 0;
      while i < |items|
        invariant 0 <= i <= |items|
        invariant drafts == NormalizeAll(items[..i], uri, s, host)
      {
        assert items[..i + 1] == items[..i] + [items[i]];
        NormalizeAllSnoc(items[..i], items[i], uri, s, host);
        drafts := drafts + [Normalize(items[i], uri, s, host)];
        i := i + 1;
      }
      assert items[..i] == items;
      r := r + drafts;
    }
  }

  /**
   * Dedup key stability: two feed items with the same upstream id give drafts
   * with the same lookup key, whatever their other fields, feed or settings.
   */
  lemma StableIdIgnoresContent(a: RawItem, b: RawItem, uriA: string, uriB: string, sA: Settings, sB: Settings, host: Host)
    requires a.id == b.id
    ensures KeyOf(Normalize(a, uriA, sA, host)) == KeyOf(Normalize(b, uriB, sB, host))
  {
  }
}
