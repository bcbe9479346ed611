/**
 * The WordPress content store as the engine sees it: post records keyed by
 * a store-assigned id, a meta map per post, and a featured-image (thumbnail)
 * attachment id per post. Only the calls the engine makes are modelled:
 * `wp_insert_post`, `get_posts` by meta value, `has_post_thumbnail`,
 * `add_post_meta` (unique) and `update_post_meta`.
 */
module Content {
  import opened Wrappers

  /** A record id assigned by the store; 0 is never a record and stands for PHP's `false`. */
  type PostId = nat

  /** The non-meta fields `wp_insert_post` receives. */
  datatype PostFields = PostFields(
    title: string,
    date: string,
    content: string,
    category: seq<int>,
    author: int,
    status: string)

  /** A meta value: a string, or None for PHP's `null`. */
  type MetaValue = Option<string>

  /** A `post_meta` array, or the meta entries of one record. */
  type Meta = map<string, MetaValue>

  /** The `$post_data` array: the fields plus its `post_meta` array. */
  datatype Draft = Draft(fields: PostFields, meta: Meta)

  /** Meta key holding the stable id (md5 of the feed item's id). */
  const IdKey := "_rssff_id"
  /** Meta key holding the feed URI a draft came from. */
  const SourceKey := "_rssff_source"
  /** Meta key holding the image URL taken from the item's enclosure. */
  const ImageKey := "_rssff_image"

  /**
   * The key a draft is looked up under: `$post_data['post_meta']['_rssff_id']`,
   * which PHP reads as null (array key "") when the entry is missing or null.
   */
  function KeyOf(d: Draft): string
  {
    if IdKey in d.meta && d.meta[IdKey].Some? then d.meta[IdKey].value else ""
  }

  /** The draft has a usable stable id: its `_rssff_id` entry is there, not null and not empty. */
  predicate Keyed(d: Draft)
  {
    KeyOf(d) != ""
  }

  /** Every draft of the list has a usable stable id. */
  predicate AllKeyed(drafts: seq<Draft>)
  {
    forall j :: 0 <= j < |drafts| ==> Keyed(drafts[j])
  }

  /** PHP falsiness of a string: the empty string and "0". */
  predicate Falsy(s: string)
  {
    s == "" || s == "0"
  }

  /** `wp_insert_post` refuses a post whose title, content and excerpt are all falsy; the engine never sets an excerpt. */
  predicate EmptyPost(fields: PostFields)
  {
    Falsy(fields.title) && Falsy(fields.content)
  }

  /** The stable id stored on record `id`, if any. */
  function StableIdIn(meta: map<PostId, Meta>, id: PostId): Option<string>
  {
    if IdKey in MetaOf(meta, id) && MetaOf(meta, id)[IdKey].Some? then MetaOf(meta, id)[IdKey] else None
  }

  /** Dedup invariant: no two records carry the same stable id. */
  ghost predicate UniqueIn(posts: map<PostId, PostFields>, meta: map<PostId, Meta>)
  {
    forall a, b :: a in posts && b in posts && StableIdIn(meta, a).Some? && StableIdIn(meta, a) == StableIdIn(meta, b) ==> a == b
  }

  /**
   * Record `id` is a result of `get_posts` with `meta_key` `_rssff_id` and
   * `meta_value` `key`. An empty value drops the value clause from the
   * query, so for the empty key every record with an `_rssff_id` entry matches.
   */
  predicate MatchesKey(meta: map<PostId, Meta>, id: PostId, key: string)
  {
    if key == "" then IdKey in MetaOf(meta, id) else StableIdIn(meta, id) == Some(key)
  }

  /** Some record matches the stable-id query for `key`. */
  ghost predicate HasMatchIn(posts: map<PostId, PostFields>, meta: map<PostId, Meta>, key: string)
  {
    exists p :: p in posts && MatchesKey(meta, p, key)
  }

  /** Some record carries stable id `key`. */
  ghost predicate HasStableIdIn(posts: map<PostId, PostFields>, meta: map<PostId, Meta>, key: string)
  {
    exists p :: p in posts && StableIdIn(meta, p) == Some(key)
  }

  function MetaOf(meta: map<PostId, Meta>, id: PostId): Meta
  {
    if id in meta then meta[id] else map[]
  }

  class Store {
    var posts: map<PostId, PostFields>
    var meta: map<PostId, Meta>
    var thumbnails: map<PostId, PostId>
    /** The id the next successful insert receives (ids are auto-incremented). */
    var nextId: PostId
    /** Whether the database currently takes writes; when false `wp_insert_post` returns 0. */
    var accepting: bool

    ghost predicate Valid()
      reads this
    {
      0 < nextId && 0 !in posts &&
      (forall id :: id in posts ==> id < nextId) &&
      meta.Keys <= posts.Keys && thumbnails.Keys <= posts.Keys
    }

    constructor (accepting: bool)
      ensures Valid()
      ensures posts == map[] && meta == map[] && thumbnails == map[]
      ensures this.accepting == accepting
    {
      posts, meta, thumbnails := map[], map[], map[];
      nextId := 1;
      this.accepting := accepting;
    }

    /**
     * `wp_insert_post`: a fresh non-zero id and a record with the given
     * fields, or 0 when the database takes no writes or the post is empty.
     */
    method Insert(fields: PostFields) returns (id: PostId)
      requires Valid()
      modifies this
      ensures Valid()
      ensures accepting == old(accepting) && meta == old(meta) && thumbnails == old(thumbnails)
      ensures old(accepting) && !EmptyPost(fields) ==> id != 0 && id !in old(posts) && posts == old(posts)[id := fields]
      ensures !(old(accepting) && !EmptyPost(fields)) ==> id == 0 && posts == old(posts)
    {
      if accepting && !EmptyPost(fields) {
        id := nextId;
        posts := posts[id := fields];
        nextId := nextId + 1;
      } else {
        id := 0;
      }
    }

    /** `get_posts` by `_rssff_id` meta value: some matching record, in no particular order. */
    method QueryStableId(key: string) returns (r: Option<PostId>)
      ensures r.Some? ==> r.value in posts && MatchesKey(meta, r.value, key)
      ensures r.None? <==> !HasMatchIn(posts, meta, key)
      ensures key != "" ==> (r.Some? ==> StableIdIn(meta, r.value) == Some(key))
      ensures key != "" ==> (r.None? <==> !HasStableIdIn(posts, meta, key))
    {
      if p :| p in posts && MatchesKey(meta, p, key) {
        r := Some(p);
      } else {
        r := None;
      }
    }

    /** `has_post_thumbnail`: false for an id with no record. */
    function HasThumbnail(id: PostId): (has: bool)
      reads this
      ensures id !in posts ==> !has
      ensures id in posts ==> (has <==> id in thumbnails)
    {
      id in posts && id in thumbnails
    }

    /** `update_post_meta($id, '_thumbnail_id', $attachment)`. */
    method SetThumbnail(id: PostId, attachment: PostId)
      requires Valid()
      modifies this
      ensures Valid()
      ensures posts == old(posts) && meta == old(meta) && nextId == old(nextId) && accepting == old(accepting)
      ensures thumbnails == if id in posts then old(thumbnails)[id := attachment] else old(thumbnails)
    {
      if id in posts {
        thumbnails := thumbnails[id := attachment];
      }
    }

    /** `add_post_meta($id, $key, $value, true)`: fails when the key is already set. */
    method AddMeta(id: PostId, key: string, value: MetaValue) returns (added: bool)
      requires Valid()
      modifies this
      ensures Valid()
      ensures posts == old(posts) && thumbnails == old(thumbnails) && nextId == old(nextId) && accepting == old(accepting)
      ensures added == (id in posts && key !in MetaOf(old(meta), id))
      ensures meta == if added then old(meta)[id := MetaOf(old(meta), id)[key := value]] else old(meta)
    {
      added := id in posts && key !in MetaOf(meta, id);
      if added {
        meta := meta[id := MetaOf(meta, id)[key := value]];
      }
    }

    /** `update_post_meta($id, $key, $value)`. */
    method UpdateMeta(id: PostId, key: string, value: MetaValue)
      requires Valid()
      modifies this
      ensures Valid()
      ensures posts == old(posts) && thumbnails == old(thumbnails) && nextId == old(nextId) && accepting == old(accepting)
      ensures meta == if id in posts then old(meta)[id := MetaOf(old(meta), id)[key := value]] else old(meta)
    {
      if id in posts {
        meta := meta[id := MetaOf(meta, id)[key := value]];
      }
    }
  }
}
