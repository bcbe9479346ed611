# wp-rss feed synchronisation engine, in Dafny

This project models the engine of the WordPress plugin `wp-rss.php`. The
plugin keeps a list of syndication feeds in one settings record, turns each
feed item into a post draft, and upserts the drafts into the WordPress
content store. It recognises items it has already imported by a stable id,
the md5 of the item's upstream id, kept in the `_rssff_id` post meta entry.

The modules follow the parts of the engine:

- `Wrappers`: `Option` and `Result`.
- `Assoc`: how PHP builds an associative array by assignment in a loop. A
  later assignment to the same key replaces an earlier one.
- `Content`: the WordPress content store, as the engine uses it. It holds
  post records, a meta map per post and a thumbnail per post. It covers
  `wp_insert_post`, `get_posts` by meta value, `has_post_thumbnail`,
  `add_post_meta` and `update_post_meta`.
- `Registry`: the `$settings` record and its defaults, plus `array_splice`
  as `remove` uses it. Also the options table (`get_option`,
  `update_option`, `delete_option`).
- `Normalizer`: the default fetch filter `rssff_default_fetch` and its
  helpers, which turn feed items into drafts. Feed items arrive through a
  `Host` value. `Host` holds the functions the plugin calls but does not
  define: `fetch_feed`, `md5`, `esc_html`, the image download behind
  `save_image`, and `time()`.
- `Engine`: class `RSSFeed`. This covers the settings life cycle, feed
  list editing, the two-tier identity lookup, the upsert, and the fail-fast
  drivers `fetch_and_save` and `fetch_and_save_all`.
- `Command`: the key check of the `configure` subcommand.

The model follows the code as written, including these places where the
plugin behaves in a way a reader might not expect:

- `remove` returns whether something was removed, not the removed URI. An
  index past the end removes nothing, leaves the list unchanged and still
  saves. A negative index counts from the end, as `array_splice` does.
- `saveConfiguration` ignores its argument and stores the instance
  settings. As a result:
  - `saveAndExit` bumps `_times_run` and `_last_run` on a copy, and the
    bumped values are never stored;
  - `configure` returns the overridden settings but never stores them.
- `post` does not put a newly inserted record id into `_managed_posts`.
  Only the lookup in `find_managed_post` fills that cache, in memory.
- An exception from the image download escapes `post` before any meta
  entry is written. It ends `fetch_and_save` and `fetch_and_save_all` as
  well. It is not swallowed.
- `clear_settings` only deletes the stored option. The instance settings
  and the identity cache stay as they are.
- `getConfiguration` returns nothing (PHP `false`) when no option is
  stored. In that case it stores the defaults, but does not return them.
- The `enclosures` setting is never consulted. The image filter always
  runs.

Record id 0 stands for PHP's `false`: it is what `find_managed_post` returns
on a miss and what `wp_insert_post` returns on failure. `wp_insert_post`
fails when the database takes no writes (the store's `accepting` flag) and
when the post is empty: title and content are both falsy in PHP (`""` or
`"0"`), and the plugin never sets an excerpt.

`get_posts` with `meta_key` `_rssff_id` and an empty `meta_value` drops the
value clause, so the lookup under the empty key matches any record that has
an `_rssff_id` entry at all (`Content.MatchesKey`). A draft whose
`_rssff_id` is missing, null or empty is looked up under that empty key: it
resolves to some imported record, its meta entries are written onto that
record, and `_managed_posts` maps the empty key to it. The dedup guarantees
below are therefore stated for drafts with a usable stable id
(`Content.Keyed`). Every fetched draft has one, since its stable id is an
md5 digest of 32 hex characters.

One call of `post` is described as a relation between two snapshots of the
state it touches (`Engine.Snapshot`: the identity cache, the records, their
meta entries, their thumbnails, and whether the store takes writes):

- `LookedUp`: the lookup result, the cache update, and the insert that
  happens only when the lookup resolves nothing and the store takes the post;
- `Written`: the image download and its exception, then the meta entries;
- `Upserted` is the two together, and `PostStep` says that some lookup
  result and target make it hold.

The drivers return ghost logs of the drafts they posted, with outcomes, and
a `Chain` of snapshots: the first is the state before the run, the last the
state after it, and each neighbouring pair is a `PostStep` for the
corresponding log entry. `FailFast` says that a run attempted a prefix of
its to-do list in order and that every attempt but the last succeeded; the
run succeeds exactly when all entries succeeded.

The dedup invariant `ConsistentIn` (`RSSFeed.Consistent` on the current
state) says two things:

- every cached stable id names a record that carries it;
- no two records carry the same stable id.

Lemmas about a chain give what a run keeps and how it deduplicates:

- `RecordsKept`: no record is deleted or has its fields rewritten;
- `CacheKept`: no entry of `_managed_posts` is dropped or changed;
- `StableIdsKept`: a record that carries a stable id keeps it;
- `Landed`: every successful post of a draft with a stable id leaves a
  record carrying that stable id;
- `NewRecordsFrom`: every record the run added holds the fields of a draft
  of the run whose stable id no record carried when it was posted;
- `ChainNoInsert`: a run whose drafts' stable ids are all stored already
  adds no record.

Meta values may be null (`None`): an enclosure without a link gives a null
`_rssff_image`, and the store keeps a null value as null.

## Model

| member | source | states |
|---|---|---|
| Assoc.LastWins | wp-rss.php:169-171 | every assigned key is in the array, and a key's value is the one its last assignment gave |
| Assoc.LastWinsSnoc | wp-rss.php:170 | one more assignment updates the array at that key and nothing else |
| Assoc.LastWinsPrefix | wp-rss.php:169-171 | assigning the pairs of a list one at a time: the next pair updates the array at its key |
| Assoc.LastWinsKeys | wp-rss.php:169-171 | every key of the array was assigned by some pair |
| Content.Store.Insert | wp-rss.php:228 | when the store takes writes and the post is not empty (title or content not falsy): a fresh non-zero id whose record holds the given fields; otherwise 0 and no change; meta and thumbnails unchanged |
| Content.Store.QueryStableId | wp-rss.php:326-337 | some record matching the query, and none exactly when no record matches; under a non-empty key the matches are exactly the records carrying that stable id, under the empty key every record with an `_rssff_id` entry |
| Content.Store.SetThumbnail | wp-rss.php:239 | sets the record's thumbnail; an id with no record changes nothing |
| Content.Store.HasThumbnail | wp-rss.php:237 | false for an id with no record; for a record, true exactly when it has a thumbnail |
| Content.Store.AddMeta | wp-rss.php:248 | adds the entry exactly when the record exists and lacks the key; reports whether it did |
| Content.Store.UpdateMeta | wp-rss.php:249 | sets the entry on an existing record; nothing else changes |
| Registry.SettingKeys | wp-rss.php:680 | the keys `isset` holds for: none for `false`; for a settings record, exactly its eight keys plus `_managed_posts` when that is present |
| Registry.Defaults | wp-rss.php:37-48 | the default feed, category 0, author 1, draft status, enclosures on, run counter and last run 0, an empty identity cache, option name `rssff_options` |
| Registry.SpliceStart | wp-rss.php:185 | where `array_splice` starts: a negative offset counts from the end and is clamped at 0; an offset past the end is clamped to the length |
| Registry.SpliceOne | wp-rss.php:185 | exactly the entry at the start position goes and later entries shift down by one; from the end nothing goes; no entry is lost or made up |
| Registry.OptionTable.GetOption | wp-rss.php:300 | the stored value exactly when the name is stored, and nothing (`false`) otherwise |
| Registry.OptionTable.UpdateOption | wp-rss.php:305 | stores the value under the name; true when the stored value changed |
| Registry.OptionTable.DeleteOption | wp-rss.php:91 | removes the name; true when there was something to remove |
| Normalizer.DefaultAuthorName | wp-rss.php:405-414 | the author's e-mail cast to a string (empty when there is none) |
| Normalizer.DefaultItemContent | wp-rss.php:436-446 | the item content, followed by the script tag exactly when the item names a script source |
| Normalizer.FixImageLink | wp-rss.php:425 | a link with the 28-character doubled allvoices prefix loses its first 24 characters and then starts with `http`; any other link is unchanged |
| Normalizer.DefaultImage | wp-rss.php:419-430 | `_rssff_image` is the fixed enclosure link, or null when the enclosure has no link; every other field and meta entry is kept |
| Normalizer.Normalize | wp-rss.php:468-485 | title is `esc_html` of the item title, date and content come from the item, category, author and status are copied from the settings, and the lookup key is `md5` of the item id, never empty |
| Normalizer.NormalizeMeta | wp-rss.php:479-485 | the draft's meta is exactly `rssff_author` = `author_name` = the author name, `_rssff_id` = md5 of the item id, `_rssff_source` = the feed URI, and `_rssff_image`, which alone can be null |
| Normalizer.NormalizeAll | wp-rss.php:466-488 | one draft per item |
| Normalizer.NormalizeAllAt | wp-rss.php:466-488 | the draft at each position comes from the item at the same position (feed order is kept) |
| Normalizer.NormalizeAllSnoc | wp-rss.php:487 | normalising one more item appends its draft at the end |
| Normalizer.DefaultFetch | wp-rss.php:451-492 | the incoming list followed by one draft per feed item, in feed order; a fetch error leaves the incoming list unchanged |
| Normalizer.FetchedDraftsKeyed | wp-rss.php:451-492 | every draft of a fetched feed has a usable (non-null, non-empty) `_rssff_id` |
| Normalizer.NormalizeAllIgnoresCache | wp-rss.php:466-488 | the drafts of a feed do not depend on the identity cache in the settings |
| Normalizer.StableIdIgnoresContent | wp-rss.php:482 | two items with the same upstream id get the same lookup key, whatever their other fields, feed or settings |
| Engine.FailFastStops | wp-rss.php:267-270 | `i` successes followed by a failure at entry `i` make a fail-fast run ending in that failure |
| Engine.FailFastCompletes | wp-rss.php:267-272 | success on every entry, in order, makes a successful fail-fast run |
| Engine.Indices | wp-rss.php:282 | `array_keys` of a list: the indices 0 to n - 1 in order |
| Engine.CodesStep | wp-rss.php:169-171 | the codes of one more draft: the previous codes updated at that draft's stable id |
| Engine.MetaAfterPost | wp-rss.php:245-252 | on an existing target, every draft entry is set and every other entry of the target is kept; other records are untouched; a target with no record changes nothing |
| Engine.MetaAfterPostStep | wp-rss.php:247-250 | setting one more entry extends the entries written so far |
| Engine.ResolvesToKey | wp-rss.php:326-337 | under a non-empty key the lookup resolves to the cached id, else to a record carrying the stable id, else to 0 |
| Engine.UpsertStableIdsExact | wp-rss.php:220-256 | an upsert under a non-empty key leaves the stable id of every existing record exactly as it was; a resolved record carries the key, and an unresolved key is carried by no record |
| Engine.UpsertKeepsConsistency | wp-rss.php:220-256 | a lookup under a non-empty key followed by insert-when-unresolved and the meta write keeps the cache sound and stable ids unique |
| Engine.UpsertKeepsStableIds | wp-rss.php:220-256 | an upsert under a non-empty key leaves every record that had a stable id with the same stable id |
| Engine.LandedKept | wp-rss.php:264-288 | a successful post whose record carries its stable id stays found while records and stable ids are kept |
| Engine.KeptTrans | wp-rss.php:264-288 | keeping records and cache entries composes over two steps |
| Engine.StableIdsTrans | wp-rss.php:264-288 | keeping stable ids composes over two steps that keep records |
| Engine.LandedSnoc | wp-rss.php:267-270 | a run of landed posts followed by one more landed post is landed |
| Engine.WrittenFrom | wp-rss.php:237-252 | the write step of `post` reads the same from the state before the lookup as from the state after it, when meta, thumbnails and the need for the image agree |
| Engine.PostStepKeeps | wp-rss.php:220-256 | one post keeps every record, every cache entry, whether the store takes writes, and the store's own invariants |
| Engine.PostStepDedups | wp-rss.php:220-256 | one post of a draft with a stable id, from a consistent store: the store stays consistent and keeps every stored stable id; a new record holds the draft and appears only when no record carried its stable id; a store that carried it gets no new record; a successful post leaves a record carrying it |
| Engine.ChainSnoc | wp-rss.php:267-270 | a run followed by one more post is a run |
| Engine.ChainAppend | wp-rss.php:282-285 | a run followed by a run from its last state is a run |
| Engine.ChainPrefix | wp-rss.php:267-270 | a run without its last post is a run |
| Engine.ChainKeeps | wp-rss.php:264-288 | a run keeps every record, every cache entry, whether the store takes writes, and the store's own invariants |
| Engine.ChainConsistent | wp-rss.php:264-288 | a run of drafts with stable ids from a consistent store keeps it consistent and keeps every stored stable id, and every successful post has landed |
| Engine.ChainNewRecords | wp-rss.php:264-288 | every record a run from a consistent store adds holds a draft of the run whose stable id no record carried when it was posted |
| Engine.ChainNoInsert | wp-rss.php:264-288 | a run from a consistent store of drafts whose stable ids are all stored already adds no record |
| Engine.LogAppend | wp-rss.php:282-285 | two logs of drafts with stable ids (carried by a state) are such a log together |
| Engine.FeedsRan | wp-rss.php:282-285 | feeds that all succeeded and one more feed run: every feed ran fail-fast over its own drafts |
| Engine.FeedsComplete | wp-rss.php:282-287 | when every feed succeeded, the whole run succeeded over every feed index |
| Engine.FeedsStep | wp-rss.php:282-285 | one more feed run extends the progress of `fetch_and_save_all`; a failed feed ends it as a fail-fast run ending in that failure |
| Engine.FlattenSnoc | wp-rss.php:282-285 | the posts of one more feed come after the posts of the earlier feeds |
| Engine.FetchedIgnoresCache | wp-rss.php:201-212 | the drafts `fetch` yields do not depend on the identity cache |
| Engine.RSSFeed.constructor | wp-rss.php:50-55 | the instance settings are the stored settings |
| Engine.RSSFeed.GetConfiguration | wp-rss.php:295-309 | the stored settings when there are any, table unchanged; otherwise nothing, with the defaults now stored; afterwards an option is always stored |
| Engine.RSSFeed.SaveConfiguration | wp-rss.php:120-125 | stores the instance settings whatever the argument |
| Engine.RSSFeed.SaveAndExit | wp-rss.php:106-111 | stores the instance settings; the stored run counter is the instance's, not the bumped one |
| Engine.RSSFeed.ClearSettings | wp-rss.php:88-99 | deletes the stored option and reports whether there was one |
| Engine.RSSFeed.GetFeeds | wp-rss.php:152-156 | the configured feed list, in order; `add` appends to it and `remove` splices it (their rows) |
| Engine.RSSFeed.Add | wp-rss.php:133-145 | the feed list is the old list with the URI appended; returns the new length (old length + 1); the new settings are stored |
| Engine.RSSFeed.Remove | wp-rss.php:182-195 | within range, exactly the entry at the index goes, later ones shift down, and the result is true; past the end, nothing changes and the result is false; the settings are stored either way |
| Engine.RSSFeed.Fetch | wp-rss.php:201-212 | the drafts of the feed at the index; none for an index outside the list |
| Engine.RSSFeed.GetCodes | wp-rss.php:164-174 | stable id to title over the fetched drafts; a later draft with the same id wins |
| Engine.RSSFeed.FindManagedPost | wp-rss.php:316-344 | a cache hit returns the cached id with no other change; on a miss, a record carrying the key if any, which is then cached, otherwise 0; a missing cache becomes empty |
| Engine.RSSFeed.Post | wp-rss.php:220-256 | the call is an `Upserted` step from the old state to the new one: the lookup per `find_managed_post`, insert exactly when it resolves nothing and the store takes the post, fields of an existing record untouched; the image downloaded only when the record has no thumbnail and `_rssff_image` is set and not null; the post throws exactly when that download fails, and then before any meta write; otherwise every draft entry is set on the record and the result is true iff the id is non-zero; the other settings unchanged |
| Engine.RSSFeed.FindOrInsert | wp-rss.php:222-234 | the lookup step: the record the lookup resolves, or a fresh one inserted exactly when it resolves nothing and the store takes the post; meta and thumbnails untouched |
| Engine.RSSFeed.WriteDraft | wp-rss.php:237-255 | the write step: the image when needed, an exception from its download before any meta write, otherwise every meta entry of the draft; records unchanged |
| Engine.RSSFeed.AttachImage | wp-rss.php:237-240 | with no thumbnail and an image set: the download's attachment becomes the thumbnail, or its exception message is returned with nothing changed; otherwise nothing happens |
| Engine.RSSFeed.WriteMeta | wp-rss.php:245-252 | the meta table becomes `MetaAfterPost` of the old one; posts, thumbnails and write acceptance unchanged |
| Engine.RSSFeed.FetchAndSave | wp-rss.php:264-273 | the fetched drafts (all with stable ids) are posted as a fail-fast run whose chain of states runs from the old state to the new one; no record lost or changed, no cache entry dropped; from a consistent store the invariant and stored stable ids are kept, every successful post has landed, every new record comes from a posted draft whose stable id was not stored when it was posted, and when every fetched stable id was stored already no record is added |
| Engine.RSSFeed.PostInOrder | wp-rss.php:267-272 | the drafts are posted in order up to and including the first that does not succeed, and the chain of states runs from the old state to the new one through one post step per logged draft |
| Engine.RSSFeed.PostOne | wp-rss.php:268 | one post step from the old state to the new one |
| Engine.RSSFeed.FetchAndSaveFeed | wp-rss.php:283 | one feed's run: fail-fast over the feed's drafts, as fetched under settings that differ at most in the identity cache, with a chain from the old state to the new one |
| Engine.RSSFeed.FeedsInOrder | wp-rss.php:282-287 | the feeds run in order as a fail-fast run, each feed fail-fast over its drafts, all posts one chain from the old state to the new one |
| Engine.RSSFeed.FetchAndSaveAll | wp-rss.php:279-288 | the feed indices are run in order as a fail-fast run, each feed's posts fail-fast over its fetched drafts and all posts one chain from the old state to the new one; no record lost or changed, no cache entry dropped; from a consistent store the invariant and stable ids are kept, every successful post has landed, every new record comes from a posted draft whose stable id was not stored when it was posted, and when every stable id of every feed was stored already no record is added |
| Command.CheckOptions | wp-rss.php:678-694 | success exactly when every override names a key the settings have; then the overrides, last value winning; otherwise the message naming the first unknown key |
| Command.Configure | wp-rss.php:665-699 | the outcome is `Shown` exactly when a `show` argument is given, with the loaded settings; an unknown key is rejected with the message naming the first one, and nothing is saved; otherwise the overrides are returned and the instance settings, not the overrides, are stored |

## Left out

- `save_image` (wp-rss.php:353-401): file download, image type sniffing and
  media sideload. It is `Host.saveImage`, which yields an attachment id or
  the message of the exception it throws.
- WordPress and SimplePie internals. `fetch_feed`, the item accessors,
  `md5`, `esc_html` and `time()` are fields of `Host`. The options table
  and the content store keep only what the engine observes.
- Content.Store.QueryStableId: the order of `get_posts` results is not
  modelled, so it returns some matching record; post statuses such as
  trash are not modelled.
- Content.Store.Insert: a database error is the store-wide `accepting`
  flag; an error that hits one insert and not the next is not modelled.
- Meta and thumbnail writes to an id with no record are dropped.
  WordPress would write orphan meta rows.
- How WordPress stores a null meta value: the model keeps it as null. No
  lookup tells the two apart, since the empty key matches on the meta key
  alone.
- `sanitizeOption`'s `json_decode`: overrides are kept as the raw text
  given, so the typed record is not rebuilt from them.
- Engine.RSSFeed.constructor: requires a stored option. On a first run
  the source sets the instance settings to `false`, which the typed
  settings record cannot hold.
- Settings are a typed record. A stored option of any other shape (extra
  keys, null values) is not modelled.
- Logging through `do_action` and the constructor and destructor log
  lines: side-channel output only.
- The WP-CLI commands other than `configure` (`feed-list`, `feed-delete`,
  `feed-add`, `feed-fetch`, `reset-database`, `get-codes`,
  `remove-posts`). They forward to the engine or print.
  - `_fetch` treats index 0 as "fetch all".
  - `_remove_posts` deletes records through `wp_delete_post`, which this
    model does not include.
- The value `configure --show` prints (`json_encode` of every setting).
- A missing enclosure or author object: `get_enclosure()` or
  `get_author()` returns null there and the plugin calls a method on it, a
  PHP error. The model assumes both objects are present. An enclosure
  without a link is modelled: `_rssff_image` is then null and no image is
  downloaded.
- Concurrent runs against the same store: the model is sequential.
