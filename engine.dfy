/**
 * The synchronisation engine: class `RSSFeed`, which holds the settings
 * record, resolves stable ids to records, upserts drafts into the content
 * store and drives whole feeds, stopping at the first failure.
 */
module Engine {
  import opened Wrappers
  import opened Assoc
  import opened Content
  import opened Registry
  import opened Normalizer

  /** What `post` produces: `!!$post_id`, or the exception `save_image` let escape. */
  datatype Outcome = Done(ok: bool) | Thrown(message: string)

  /**
   * A fail-fast run over `todo`: `log` records the attempted entries with
   * their outcomes, in order. Every attempt but the last succeeded; the run
   * succeeds exactly when every entry was attempted and succeeded, and
   * otherwise ends with the outcome of the attempt that failed.
   */
  ghost predicate FailFast<T>(todo: seq<T>, log: seq<(T, Outcome)>, outcome: Outcome)
  {
    |log| <= |todo| &&
    (forall j :: 0 <= j < |log| ==> log[j].0 == todo[j]) &&
    (forall j :: 0 <= j < |log| - 1 ==> log[j].1 == Done(true)) &&
    (outcome == Done(true) ==> |log| == |todo| && forall j :: 0 <= j < |log| ==> log[j].1 == Done(true)) &&
    (outcome != Done(true) ==> |log| > 0 && log[|log| - 1].1 == outcome)
  }

  /** A run that failed at entry `i` after `i` successes is a fail-fast run. */
  lemma FailFastStops<T>(todo: seq<T>, log: seq<(T, Outcome)>, i: nat, outcome: Outcome)
    requires i < |todo| && |log| == i + 1 && outcome != Done(true)
    requires forall j :: 0 <= j < i ==> log[j] == (todo[j], Done(true))
    requires log[i] == (todo[i], outcome)
    ensures FailFast(todo, log, outcome)
  {
  }

  /** A run in which every entry was attempted and succeeded is a fail-fast run. */
  lemma FailFastCompletes<T>(todo: seq<T>, log: seq<(T, Outcome)>)
    requires |log| == |todo|
    requires forall j :: 0 <= j < |log| ==> log[j] == (todo[j], Done(true))
    ensures FailFast(todo, log, Done(true))
  {
  }

  /** The feed indices `0 .. n - 1`, in order. */
  function Indices(n: nat): (r: seq<int>)
    ensures |r| == n && forall j :: 0 <= j < n ==> r[j] == j
  {
    if n == 0 then [] else Indices(n - 1) + [n - 1]
  }

  /** `isset($feeds[$index]) ? $feeds[$index] : false`. */
  function FeedUri(feeds: seq<string>, index: int): Option<string>
  {
    if 0 <= index < |feeds| then Some(feeds[index]) else None
  }

  /** The drafts `fetch($index)` yields under settings `s`. */
  function Fetched(s: Settings, index: int, host: Host): seq<Draft>
  {
    match FeedUri(s.feeds, index)
    case None => []
    case Some(uri) => FetchedDrafts(uri, s, host)
  }

  /** The assignments `get_codes` makes: stable id to title, draft by draft. */
  function CodePairs(drafts: seq<Draft>): seq<(string, string)>
  {
    seq(|drafts|, j requires 0 <= j < |drafts| => (KeyOf(drafts[j]), drafts[j].fields.title))
  }

  lemma CodesStep(drafts: seq<Draft>, i: nat)
    requires i < |drafts|
    ensures LastWins(CodePairs(drafts[..i + 1])) == LastWins(CodePairs(drafts[..i]))[KeyOf(drafts[i]) := drafts[i].fields.title]
  {
    assert CodePairs(drafts[..i + 1]) == CodePairs(drafts[..i]) + [(KeyOf(drafts[i]), drafts[i].fields.title)];
    LastWinsSnoc(CodePairs(drafts[..i]), (KeyOf(drafts[i]), drafts[i].fields.title));
  }

  /**
   * The meta table after `post` wrote the draft's meta entries to record
   * `target`: the draft's entries win, every other entry is kept; other
   * records, and a target without a record, are untouched.
   */
  function MetaAfterPost(meta: map<PostId, Meta>, posts: map<PostId, PostFields>,
                         target: PostId, entries: Meta): (r: map<PostId, Meta>)
    ensures r.Keys <= meta.Keys + {target}
    ensures forall id :: id != target ==> MetaOf(r, id) == MetaOf(meta, id)
    ensures target !in posts ==> r == meta
    ensures target in posts ==>
      MetaOf(r, target).Keys == MetaOf(meta, target).Keys + entries.Keys &&
      (forall k :: k in entries ==> MetaOf(r, target)[k] == entries[k]) &&
      (forall k :: k in MetaOf(meta, target) && k !in entries ==> MetaOf(r, target)[k] == MetaOf(meta, target)[k])
  {
    if target in posts && entries != map[] then meta[target := MetaOf(meta, target) + entries] else meta
  }

  /** Setting one more meta entry on the target extends what has been written so far. */
  lemma MetaAfterPostStep(meta: map<PostId, Meta>, posts: map<PostId, PostFields>, target: PostId,
                          done: Meta, k: string, v: MetaValue)
    ensures var before := MetaAfterPost(meta, posts, target, done);
      (if target in posts then before[target := MetaOf(before, target)[k := v]] else before)
      == MetaAfterPost(meta, posts, target, done[k := v])
  {
    if target in posts {
      assert k in done[k := v];
      if done == map[] {
        assert MetaAfterPost(meta, posts, target, done) == meta;
        assert done[k := v] == map[k := v];
        assert MetaOf(meta, target)[k := v] == MetaOf(meta, target) + map[k := v];
      } else {
        assert (MetaOf(meta, target) + done)[k := v] == MetaOf(meta, target) + done[k := v];
      }
    }
  }

  /** Every cached stable id names a record that carries that stable id. */
  ghost predicate CacheSoundIn(cache: Option<map<string, PostId>>, posts: map<PostId, PostFields>, meta: map<PostId, Meta>)
  {
    cache.Some? ==> forall k :: k in cache.value ==> cache.value[k] in posts && StableIdIn(meta, cache.value[k]) == Some(k)
  }

  /**
   * What `find_managed_post($key)` may return: the cached id on a cache hit,
   * otherwise some record the stable-id query for `key` matches, otherwise
   * 0 (`false`).
   */
  ghost predicate ResolvesTo(cache: Option<map<string, PostId>>, posts: map<PostId, PostFields>,
                             meta: map<PostId, Meta>, key: string, id: PostId)
  {
    if cache.Some? && key in cache.value then id == cache.value[key]
    else if HasMatchIn(posts, meta, key) then id in posts && MatchesKey(meta, id, key)
    else id == 0
  }

  /** Under a non-empty key the stable-id query matches exactly the records carrying the key. */
  lemma ResolvesToKey(cache: Option<map<string, PostId>>, posts: map<PostId, PostFields>,
                      meta: map<PostId, Meta>, key: string, id: PostId)
    requires key != "" && ResolvesTo(cache, posts, meta, key, id)
    ensures if cache.Some? && key in cache.value then id == cache.value[key]
      else if HasStableIdIn(posts, meta, key) then id in posts && StableIdIn(meta, id) == Some(key)
      else id == 0
  {
    if !(cache.Some? && key in cache.value) && HasStableIdIn(posts, meta, key) {
      var p :| p in posts && StableIdIn(meta, p) == Some(key);
      assert MatchesKey(meta, p, key);
    }
  }

  /** The `_managed_posts` entry after a lookup of `key` that returned `id`. */
  function CacheAfterLookup(cache: Option<map<string, PostId>>, key: string, id: PostId): Option<map<string, PostId>>
  {
    if cache.Some? && key in cache.value then cache
    else
      var base := if cache.Some? then cache.value else map[];
      if id != 0 then Some(base[key := id]) else Some(base)
  }

  /**
   * One upsert under a non-empty key keeps the cache sound and stable ids
   * unique: a resolved id is reused and keeps its stable id; an insert
   * happens only when no record carries the key, and the new record is the
   * only one that then can.
   */
  lemma UpsertKeepsConsistency(
    cache: Option<map<string, PostId>>, posts: map<PostId, PostFields>, meta: map<PostId, Meta>,
    posts': map<PostId, PostFields>, meta': map<PostId, Meta>,
    key: string, resolved: PostId, target: PostId, draftMeta: Meta)
    requires CacheSoundIn(cache, posts, meta) && UniqueIn(posts, meta)
    requires 0 !in posts && meta.Keys <= posts.Keys
    requires key != "" && ResolvesTo(cache, posts, meta, key, resolved)
    requires IdKey in draftMeta ==> draftMeta[IdKey] == Some(key)
    requires resolved != 0 ==> target == resolved && posts' == posts
    requires resolved == 0 ==> (target == 0 && posts' == posts) || (target != 0 && target !in posts && posts'.Keys == posts.Keys + {target})
    requires meta' == meta || meta' == MetaAfterPost(meta, posts', target, draftMeta)
    ensures CacheSoundIn(CacheAfterLookup(cache, key, resolved), posts', meta')
    ensures UniqueIn(posts', meta')
  {
    UpsertStableIdsExact(cache, posts, meta, posts', meta', key, resolved, target, draftMeta);
    var cache' := CacheAfterLookup(cache, key, resolved);
    if cache'.Some? {
      forall k | k in cache'.value
        ensures cache'.value[k] in posts' && StableIdIn(meta', cache'.value[k]) == Some(k)
      {
        if !(cache.Some? && k in cache.value) {
          assert k == key && cache'.value[k] == resolved;
        }
      }
    }
    if resolved == 0 && target != 0 {
      assert StableIdIn(meta', target) == None || StableIdIn(meta', target) == Some(key);
    }
  }

  /**
   * An upsert under a non-empty key leaves the stable id of every existing
   * record exactly as it was, and inserts only when no record carries the key.
   */
  lemma UpsertStableIdsExact(
    cache: Option<map<string, PostId>>, posts: map<PostId, PostFields>, meta: map<PostId, Meta>,
    posts': map<PostId, PostFields>, meta': map<PostId, Meta>,
    key: string, resolved: PostId, target: PostId, draftMeta: Meta)
    requires CacheSoundIn(cache, posts, meta)
    requires 0 !in posts
    requires key != "" && ResolvesTo(cache, posts, meta, key, resolved)
    requires IdKey in draftMeta ==> draftMeta[IdKey] == Some(key)
    requires resolved != 0 ==> target == resolved
    requires resolved == 0 ==> target !in posts
    requires meta' == meta || meta' == MetaAfterPost(meta, posts', target, draftMeta)
    ensures forall id :: id in posts ==> StableIdIn(meta', id) == StableIdIn(meta, id)
    ensures resolved != 0 ==> resolved in posts && StableIdIn(meta, resolved) == Some(key)
    ensures resolved == 0 ==> !HasStableIdIn(posts, meta, key)
  {
    ResolvesToKey(cache, posts, meta, key, resolved);
  }

  /** Records are never deleted or rewritten: every record of `posts` is in `posts'` with the same fields. */
  ghost predicate RecordsKept(posts: map<PostId, PostFields>, posts': map<PostId, PostFields>)
  {
    forall id :: id in posts ==> id in posts' && posts'[id] == posts[id]
  }

  /** Every stable id a record of `posts` carries in `meta` it still carries in `meta'`. */
  ghost predicate StableIdsKept(posts: map<PostId, PostFields>, meta: map<PostId, Meta>, meta': map<PostId, Meta>)
  {
    forall id :: id in posts && StableIdIn(meta, id).Some? ==> StableIdIn(meta', id) == StableIdIn(meta, id)
  }

  /** The identity cache only grows: once set it stays set, and no cached entry is dropped or changed. */
  ghost predicate CacheKept(cache: Option<map<string, PostId>>, cache': Option<map<string, PostId>>)
  {
    cache.Some? ==> cache'.Some? && forall k :: k in cache.value ==> k in cache'.value && cache'.value[k] == cache.value[k]
  }

  /** Every successful post in `log` of a draft with a stable id left a record carrying that stable id. */
  ghost predicate Landed(log: seq<(Draft, Outcome)>, posts: map<PostId, PostFields>, meta: map<PostId, Meta>)
  {
    forall j :: 0 <= j < |log| && log[j].1 == Done(true) && Keyed(log[j].0) ==>
      HasStableIdIn(posts, meta, KeyOf(log[j].0))
  }

  /**
   * One upsert under a non-empty key keeps the stable id of every record
   * that had one: the resolved record carries the key already, and the
   * draft's `_rssff_id` entry writes the same key again.
   */
  lemma UpsertKeepsStableIds(
    cache: Option<map<string, PostId>>, posts: map<PostId, PostFields>, meta: map<PostId, Meta>,
    posts': map<PostId, PostFields>, meta': map<PostId, Meta>,
    key: string, resolved: PostId, target: PostId, draftMeta: Meta)
    requires CacheSoundIn(cache, posts, meta)
    requires 0 !in posts
    requires key != "" && ResolvesTo(cache, posts, meta, key, resolved)
    requires IdKey in draftMeta ==> draftMeta[IdKey] == Some(key)
    requires resolved != 0 ==> target == resolved
    requires resolved == 0 ==> target !in posts
    requires meta' == meta || meta' == MetaAfterPost(meta, posts', target, draftMeta)
    ensures StableIdsKept(posts, meta, meta')
  {
    UpsertStableIdsExact(cache, posts, meta, posts', meta', key, resolved, target, draftMeta);
  }

  /** What has landed stays landed while records and their stable ids are kept. */
  lemma LandedKept(log: seq<(Draft, Outcome)>, posts: map<PostId, PostFields>, meta: map<PostId, Meta>,
                   posts': map<PostId, PostFields>, meta': map<PostId, Meta>)
    requires Landed(log, posts, meta)
    requires RecordsKept(posts, posts') && StableIdsKept(posts, meta, meta')
    ensures Landed(log, posts', meta')
  {
  }

  /** Keeping records and cache entries composes over two steps. */
  lemma KeptTrans(posts: map<PostId, PostFields>, cache: Option<map<string, PostId>>,
                  posts': map<PostId, PostFields>, cache': Option<map<string, PostId>>,
                  posts'': map<PostId, PostFields>, cache'': Option<map<string, PostId>>)
    requires RecordsKept(posts, posts') && RecordsKept(posts', posts'')
    requires CacheKept(cache, cache') && CacheKept(cache', cache'')
    ensures RecordsKept(posts, posts'') && CacheKept(cache, cache'')
  {
  }

  /** Keeping stable ids composes over two steps that keep records. */
  lemma StableIdsTrans(posts: map<PostId, PostFields>, meta: map<PostId, Meta>,
                       posts': map<PostId, PostFields>, meta': map<PostId, Meta>, meta'': map<PostId, Meta>)
    requires RecordsKept(posts, posts')
    requires StableIdsKept(posts, meta, meta') && StableIdsKept(posts', meta', meta'')
    ensures StableIdsKept(posts, meta, meta'')
  {
  }

  /** A log that landed, followed by one more post that landed, landed. */
  lemma LandedSnoc(log: seq<(Draft, Outcome)>, d: Draft, outcome: Outcome,
                   posts: map<PostId, PostFields>, meta: map<PostId, Meta>)
    requires Landed(log, posts, meta)
    requires outcome == Done(true) && Keyed(d) ==> HasStableIdIn(posts, meta, KeyOf(d))
    ensures Landed(log + [(d, outcome)], posts, meta)
  {
  }

  /** `isset($post_data['post_meta']['_rssff_image'])`: the draft names an image, and not as null. */
  predicate ImageIsSet(d: Draft)
  {
    ImageKey in d.meta && d.meta[ImageKey].Some?
  }

  /** The part of the engine's and the store's state that `post` reads or changes. */
  datatype Snapshot = Snapshot(
    cache: Option<map<string, PostId>>,
    posts: map<PostId, PostFields>,
    meta: map<PostId, Meta>,
    thumbnails: map<PostId, PostId>,
    accepting: bool)

  /** The store's own invariants: no record 0, and meta entries and thumbnails only for records. */
  ghost predicate WellFormed(st: Snapshot)
  {
    0 !in st.posts && st.meta.Keys <= st.posts.Keys && st.thumbnails.Keys <= st.posts.Keys
  }

  /** The dedup invariant: the identity cache agrees with the store, and no two records share a stable id. */
  ghost predicate ConsistentIn(st: Snapshot)
  {
    CacheSoundIn(st.cache, st.posts, st.meta) && UniqueIn(st.posts, st.meta)
  }

  /** `post` downloads the draft's image for `target`: the record has no thumbnail and the draft names an image. */
  ghost predicate NeedsImage(st: Snapshot, target: PostId, d: Draft)
  {
    !(target in st.posts && target in st.thumbnails) && ImageIsSet(d)
  }

  /**
   * The lookup step of `post` for draft `d`, from state `b` to state `a`:
   * the lookup returned `resolved`, and `target` is the record the draft
   * then goes to. A record is inserted only when the lookup resolves
   * nothing, and only when the store takes the post; an existing record's
   * fields are left alone.
   */
  ghost predicate LookedUp(b: Snapshot, d: Draft, resolved: PostId, target: PostId, a: Snapshot)
  {
    ResolvesTo(b.cache, b.posts, b.meta, KeyOf(d), resolved) &&
    a.cache == CacheAfterLookup(b.cache, KeyOf(d), resolved) &&
    a.accepting == b.accepting &&
    (resolved != 0 ==> target == resolved && a.posts == b.posts) &&
    (resolved == 0 && b.accepting && !EmptyPost(d.fields) ==>
       target != 0 && target !in b.posts && a.posts == b.posts[target := d.fields]) &&
    (resolved == 0 && !(b.accepting && !EmptyPost(d.fields)) ==> target == 0 && a.posts == b.posts)
  }

  /**
   * The write step of `post` for draft `d` to record `target`, ending in
   * state `a`; `b` is the state before the lookup. When the record has no
   * thumbnail and the draft names an image, the image is downloaded, and a
   * failed download is thrown before any meta entry is written; otherwise
   * every meta entry of the draft is set on the target, and the outcome is
   * whether there is a target.
   */
  ghost predicate Written(host: Host, b: Snapshot, d: Draft, target: PostId, outcome: Outcome, a: Snapshot)
  {
    (outcome.Thrown? <==> NeedsImage(b, target, d) && host.saveImage(d.meta[ImageKey].value).Failure?) &&
    (outcome.Thrown? ==>
       outcome.message == host.saveImage(d.meta[ImageKey].value).error &&
       a.thumbnails == b.thumbnails && a.meta == b.meta) &&
    (outcome.Done? ==>
       outcome.ok == (target != 0) &&
       a.thumbnails == (if NeedsImage(b, target, d) && target in a.posts
                        then b.thumbnails[target := host.saveImage(d.meta[ImageKey].value).value]
                        else b.thumbnails) &&
       a.meta == MetaAfterPost(b.meta, a.posts, target, d.meta))
  }

  /** The write step judged from a later state with the same meta, thumbnails and need for the image. */
  lemma WrittenFrom(host: Host, b: Snapshot, m: Snapshot, d: Draft, target: PostId, outcome: Outcome, a: Snapshot)
    requires m.meta == b.meta && m.thumbnails == b.thumbnails && NeedsImage(m, target, d) == NeedsImage(b, target, d)
    requires Written(host, m, d, target, outcome, a)
    ensures Written(host, b, d, target, outcome, a)
  {
  }

  /** One call of `post` for draft `d`, from state `b` to state `a`: the lookup step, then the write step. */
  ghost predicate Upserted(host: Host, b: Snapshot, d: Draft, resolved: PostId, target: PostId, outcome: Outcome, a: Snapshot)
  {
    LookedUp(b, d, resolved, target, a) && Written(host, b, d, target, outcome, a)
  }

  /** `post` of `d` can take state `b` to state `a` with `outcome`. */
  ghost predicate PostStep(host: Host, b: Snapshot, d: Draft, outcome: Outcome, a: Snapshot)
  {
    exists resolved: PostId, target: PostId :: Upserted(host, b, d, resolved, target, outcome, a)
  }

  /** A post keeps every record and cache entry, whether the store takes writes, and the store's invariants. */
  lemma PostStepKeeps(host: Host, b: Snapshot, d: Draft, outcome: Outcome, a: Snapshot)
    requires PostStep(host, b, d, outcome, a)
    ensures RecordsKept(b.posts, a.posts) && CacheKept(b.cache, a.cache) && a.accepting == b.accepting
    ensures WellFormed(b) ==> WellFormed(a)
  {
    var resolved, target :| Upserted(host, b, d, resolved, target, outcome, a);
  }

  /**
   * A post of a draft with a stable id, from a consistent store, keeps it
   * consistent and keeps every stored stable id; a new record holds the
   * draft and appears only when no record carried the draft's stable id;
   * a successful post leaves a record carrying it.
   */
  lemma PostStepDedups(host: Host, b: Snapshot, d: Draft, outcome: Outcome, a: Snapshot)
    requires PostStep(host, b, d, outcome, a)
    requires WellFormed(b) && ConsistentIn(b) && Keyed(d)
    ensures ConsistentIn(a) && StableIdsKept(b.posts, b.meta, a.meta)
    ensures forall id :: id in a.posts && id !in b.posts ==> a.posts[id] == d.fields && !HasStableIdIn(b.posts, b.meta, KeyOf(d))
    ensures HasStableIdIn(b.posts, b.meta, KeyOf(d)) ==> a.posts == b.posts
    ensures outcome == Done(true) ==> HasStableIdIn(a.posts, a.meta, KeyOf(d))
  {
    var resolved, target :| Upserted(host, b, d, resolved, target, outcome, a);
    var key := KeyOf(d);
    UpsertKeepsConsistency(b.cache, b.posts, b.meta, a.posts, a.meta, key, resolved, target, d.meta);
    UpsertKeepsStableIds(b.cache, b.posts, b.meta, a.posts, a.meta, key, resolved, target, d.meta);
    if outcome == Done(true) {
      assert target in a.posts && StableIdIn(a.meta, target) == Some(key);
    }
  }

  /** Every draft of the log has a usable stable id. */
  ghost predicate LogKeyed(log: seq<(Draft, Outcome)>)
  {
    forall j :: 0 <= j < |log| ==> Keyed(log[j].0)
  }

  /** Every draft's stable id in the log is carried by some record of the state. */
  ghost predicate LogCarried(st: Snapshot, log: seq<(Draft, Outcome)>)
  {
    forall j :: 0 <= j < |log| ==> HasStableIdIn(st.posts, st.meta, KeyOf(log[j].0))
  }

  /** Two logs whose drafts all have stable ids, carried by the same state when `carried`, together. */
  lemma LogAppend(st: Snapshot, carried: bool, log: seq<(Draft, Outcome)>, log': seq<(Draft, Outcome)>)
    requires LogKeyed(log) && LogKeyed(log')
    requires carried ==> LogCarried(st, log) && LogCarried(st, log')
    ensures LogKeyed(log + log')
    ensures carried ==> LogCarried(st, log + log')
  {
    forall j | |log| <= j < |log + log'|
      ensures (log + log')[j] == log'[j - |log|]
    {
    }
  }

  /**
   * `states` is a run of the posts in `log`: `states[j]` is the state before
   * the `j`-th post and `states[j + 1]` the state after it.
   */
  ghost predicate Chain(host: Host, states: seq<Snapshot>, log: seq<(Draft, Outcome)>)
  {
    |states| == |log| + 1 &&
    forall j :: 0 <= j < |log| ==> PostStep(host, states[j], log[j].0, log[j].1, states[j + 1])
  }

  /** A run followed by one more post is a run. */
  lemma ChainSnoc(host: Host, states: seq<Snapshot>, log: seq<(Draft, Outcome)>, d: Draft, outcome: Outcome, st: Snapshot)
    requires Chain(host, states, log) && PostStep(host, states[|log|], d, outcome, st)
    ensures Chain(host, states + [st], log + [(d, outcome)])
  {
  }

  /** A run followed by a run from its last state is a run. */
  lemma ChainAppend(host: Host, states: seq<Snapshot>, log: seq<(Draft, Outcome)>,
                    states': seq<Snapshot>, log': seq<(Draft, Outcome)>)
    requires Chain(host, states, log) && Chain(host, states', log') && states'[0] == states[|log|]
    ensures Chain(host, states + states'[1..], log + log')
  {
    var all, allLog := states + states'[1..], log + log';
    forall j | 0 <= j < |allLog|
      ensures PostStep(host, all[j], allLog[j].0, allLog[j].1, all[j + 1])
    {
      if j >= |log| {
        assert allLog[j] == log'[j - |log|] && all[j] == states'[j - |log|] && all[j + 1] == states'[j - |log| + 1];
      }
    }
  }

  /** A run without its last post is a run. */
  lemma ChainPrefix(host: Host, states: seq<Snapshot>, log: seq<(Draft, Outcome)>)
    requires Chain(host, states, log) && |log| > 0
    ensures Chain(host, states[..|log|], log[..|log| - 1])
  {
  }

  /** A run keeps every record and cache entry, and whether the store takes writes. */
  lemma {:induction false} ChainKeeps(host: Host, states: seq<Snapshot>, log: seq<(Draft, Outcome)>)
    requires Chain(host, states, log)
    ensures RecordsKept(states[0].posts, states[|log|].posts) && CacheKept(states[0].cache, states[|log|].cache)
    ensures states[|log|].accepting == states[0].accepting
    ensures WellFormed(states[0]) ==> WellFormed(states[|log|])
    decreases |log|
  {
    if |log| > 0 {
      var n := |log| - 1;
      ChainPrefix(host, states, log);
      ChainKeeps(host, states[..n + 1], log[..n]);
      PostStepKeeps(host, states[n], log[n].0, log[n].1, states[n + 1]);
      KeptTrans(states[0].posts, states[0].cache, states[n].posts, states[n].cache, states[n + 1].posts, states[n + 1].cache);
    }
  }

  /**
   * A run of drafts with stable ids from a consistent store keeps it
   * consistent and keeps every stored stable id, and every successful post
   * of the run has a record carrying its stable id at the end.
   */
  lemma {:induction false} ChainConsistent(host: Host, states: seq<Snapshot>, log: seq<(Draft, Outcome)>)
    requires Chain(host, states, log) && WellFormed(states[0]) && ConsistentIn(states[0])
    requires LogKeyed(log)
    ensures WellFormed(states[|log|]) && ConsistentIn(states[|log|])
    ensures StableIdsKept(states[0].posts, states[0].meta, states[|log|].meta)
    ensures Landed(log, states[|log|].posts, states[|log|].meta)
    decreases |log|
  {
    ChainKeeps(host, states, log);
    if |log| > 0 {
      var n := |log| - 1;
      var (b, a) := (states[n], states[n + 1]);
      ChainPrefix(host, states, log);
      ChainConsistent(host, states[..n + 1], log[..n]);
      ChainKeeps(host, states[..n + 1], log[..n]);
      PostStepKeeps(host, b, log[n].0, log[n].1, a);
      PostStepDedups(host, b, log[n].0, log[n].1, a);
      StableIdsTrans(states[0].posts, states[0].meta, b.posts, b.meta, a.meta);
      LandedKept(log[..n], b.posts, b.meta, a.posts, a.meta);
      LandedSnoc(log[..n], log[n].0, log[n].1, a.posts, a.meta);
      assert log[..n] + [(log[n].0, log[n].1)] == log;
    }
  }

  /**
   * Where the new records of a run come from: every record at the end of a
   * run from a consistent store that was not there at the start holds the
   * fields of a draft of the run whose stable id no record carried when it
   * was posted.
   */
  ghost predicate NewRecordsFrom(states: seq<Snapshot>, log: seq<(Draft, Outcome)>)
    requires |states| == |log| + 1
  {
    forall id :: id in states[|log|].posts && id !in states[0].posts ==>
      exists j :: 0 <= j < |log| && states[|log|].posts[id] == log[j].0.fields &&
        !HasStableIdIn(states[j].posts, states[j].meta, KeyOf(log[j].0))
  }

  /** A run of drafts with stable ids from a consistent store inserts only drafts whose stable id was not yet stored. */
  lemma {:induction false} ChainNewRecords(host: Host, states: seq<Snapshot>, log: seq<(Draft, Outcome)>)
    requires Chain(host, states, log) && WellFormed(states[0]) && ConsistentIn(states[0])
    requires LogKeyed(log)
    ensures NewRecordsFrom(states, log)
    decreases |log|
  {
    if |log| > 0 {
      var n := |log| - 1;
      var (b, a) := (states[n], states[n + 1]);
      ChainPrefix(host, states, log);
      ChainNewRecords(host, states[..n + 1], log[..n]);
      ChainConsistent(host, states[..n + 1], log[..n]);
      PostStepKeeps(host, b, log[n].0, log[n].1, a);
      PostStepDedups(host, b, log[n].0, log[n].1, a);
      forall id | id in a.posts && id !in states[0].posts
        ensures exists j :: (0 <= j < |log| && a.posts[id] == log[j].0.fields &&
          !HasStableIdIn(states[j].posts, states[j].meta, KeyOf(log[j].0)))
      {
        if id in b.posts {
          var j :| 0 <= j < n && states[..n + 1][n].posts[id] == log[..n][j].0.fields &&
            !HasStableIdIn(states[..n + 1][j].posts, states[..n + 1][j].meta, KeyOf(log[..n][j].0));
          assert states[..n + 1][j] == states[j] && log[..n][j] == log[j];
        }
      }
    }
  }

  /** Every draft's stable id is carried by some record of the state. */
  ghost predicate Carried(st: Snapshot, drafts: seq<Draft>)
  {
    forall j :: 0 <= j < |drafts| ==> HasStableIdIn(st.posts, st.meta, KeyOf(drafts[j]))
  }

  /** Every stable id of every feed of `s` is carried by some record of the state. */
  ghost predicate FeedsCarried(st: Snapshot, s: Settings, host: Host)
  {
    forall k :: 0 <= k < |s.feeds| ==> Carried(st, Fetched(s, k, host))
  }

  /** A run, from a consistent store, of drafts whose stable ids are all stored already inserts nothing. */
  lemma {:induction false} ChainNoInsert(host: Host, states: seq<Snapshot>, log: seq<(Draft, Outcome)>)
    requires Chain(host, states, log) && WellFormed(states[0]) && ConsistentIn(states[0])
    requires LogKeyed(log)
    requires LogCarried(states[0], log)
    ensures states[|log|].posts == states[0].posts
    decreases |log|
  {
    if |log| > 0 {
      var n := |log| - 1;
      var (b, a) := (states[n], states[n + 1]);
      ChainPrefix(host, states, log);
      ChainNoInsert(host, states[..n + 1], log[..n]);
      ChainConsistent(host, states[..n + 1], log[..n]);
      var key := KeyOf(log[n].0);
      var p :| p in states[0].posts && StableIdIn(states[0].meta, p) == Some(key);
      assert p in b.posts && StableIdIn(b.meta, p) == Some(key);
      PostStepDedups(host, b, log[n].0, log[n].1, a);
    }
  }

  /** What `getConfiguration` returns for an options table: the stored settings, or None (`false`). */
  function Loaded(options: map<string, Settings>): Option<Settings>
  {
    if OptionName in options then Some(options[OptionName]) else None
  }

  /** The options table after `getConfiguration`: the defaults are stored when nothing was. */
  function AfterLoad(options: map<string, Settings>): map<string, Settings>
  {
    if OptionName in options then options else options[OptionName := Defaults()]
  }

  /** The drafts `fetch` yields do not depend on the identity cache. */
  lemma FetchedIgnoresCache(s: Settings, cache: Option<map<string, PostId>>, index: int, host: Host)
    ensures Fetched(s.(managedPosts := cache), index, host) == Fetched(s, index, host)
  {
    match FeedUri(s.feeds, index)
    case None =>
    case Some(uri) =>
      match host.fetchFeed(uri)
      case FeedError(_) =>
      case Feed(items) => NormalizeAllIgnoresCache(items, uri, s, cache, host);
  }

  /**
   * Feeds `0 .. |runs| - 1` under settings `s` were each run to success,
   * `logs[k]` holding the posts of feed `k`.
   */
  ghost predicate FeedsSucceeded(s: Settings, host: Host, runs: seq<(int, Outcome)>, logs: seq<seq<(Draft, Outcome)>>)
  {
    |logs| == |runs| &&
    forall k :: 0 <= k < |runs| ==> runs[k] == (k, Done(true)) && FailFast(Fetched(s, k, host), logs[k], Done(true))
  }

  /** Feeds that succeeded, then one more feed run with `outcome`: every feed ran fail-fast over its drafts. */
  lemma FeedsRan(s: Settings, host: Host, runs: seq<(int, Outcome)>, logs: seq<seq<(Draft, Outcome)>>,
                 outcome: Outcome, log: seq<(Draft, Outcome)>)
    requires FeedsSucceeded(s, host, runs, logs)
    requires FailFast(Fetched(s, |runs|, host), log, outcome)
    ensures outcome == Done(true) ==> FeedsSucceeded(s, host, runs + [(|runs|, outcome)], logs + [log])
    ensures var (runs', logs') := (runs + [(|runs|, outcome)], logs + [log]);
      |logs'| == |runs'| && forall k :: 0 <= k < |runs'| ==> FailFast(Fetched(s, k, host), logs'[k], runs'[k].1)
  {
    var (runs', logs') := (runs + [(|runs|, outcome)], logs + [log]);
    forall k | 0 <= k < |runs'|
      ensures FailFast(Fetched(s, k, host), logs'[k], runs'[k].1)
      ensures outcome == Done(true) ==> runs'[k] == (k, Done(true)) && FailFast(Fetched(s, k, host), logs'[k], Done(true))
    {
      if k < |runs| {
        assert runs'[k] == runs[k] && logs'[k] == logs[k];
      }
    }
  }

  /**
   * Where `fetch_and_save_all` stands after the feeds of `runs`, which all
   * succeeded: `logs` holds each feed's posts, `log` all of them in order,
   * and `states` the run of `log` from `before`.
   */
  ghost predicate FeedsProgress(host: Host, s: Settings, before: Snapshot, carried: bool, runs: seq<(int, Outcome)>,
                                logs: seq<seq<(Draft, Outcome)>>, log: seq<(Draft, Outcome)>, states: seq<Snapshot>)
  {
    FeedsSucceeded(s, host, runs, logs) && log == Flatten(logs) &&
    LogKeyed(log) && (carried ==> LogCarried(before, log)) &&
    Chain(host, states, log) && states[0] == before
  }

  /**
   * A finished `fetch_and_save_all` over the feeds of `s` from `before`: the
   * feeds ran fail-fast in order, each feed's posts ran fail-fast over its
   * drafts, and `states` is the run of all posts.
   */
  ghost predicate FeedsRun(host: Host, s: Settings, before: Snapshot, carried: bool, outcome: Outcome, runs: seq<(int, Outcome)>,
                           logs: seq<seq<(Draft, Outcome)>>, log: seq<(Draft, Outcome)>, states: seq<Snapshot>)
  {
    FailFast(Indices(|s.feeds|), runs, outcome) &&
    |logs| == |runs| && (forall k :: 0 <= k < |runs| ==> FailFast(Fetched(s, k, host), logs[k], runs[k].1)) &&
    log == Flatten(logs) && LogKeyed(log) && (carried ==> LogCarried(before, log)) &&
    Chain(host, states, log) && states[0] == before
  }

  /** Feeds that all succeeded, and no feed left: the whole run succeeded. */
  lemma FeedsComplete(host: Host, s: Settings, before: Snapshot, carried: bool, runs: seq<(int, Outcome)>,
                      logs: seq<seq<(Draft, Outcome)>>, log: seq<(Draft, Outcome)>, states: seq<Snapshot>)
    requires FeedsProgress(host, s, before, carried, runs, logs, log, states) && |runs| == |s.feeds|
    ensures FeedsRun(host, s, before, carried, Done(true), runs, logs, log, states)
  {
    FailFastCompletes(Indices(|s.feeds|), runs);
  }

  /** One more feed run, from where the previous feeds left the store. */
  lemma FeedsStep(host: Host, s: Settings, before: Snapshot, carried: bool, runs: seq<(int, Outcome)>,
                  logs: seq<seq<(Draft, Outcome)>>, log: seq<(Draft, Outcome)>, states: seq<Snapshot>,
                  outcome: Outcome, more: seq<(Draft, Outcome)>, moreStates: seq<Snapshot>)
    requires FeedsProgress(host, s, before, carried, runs, logs, log, states) && |runs| < |s.feeds|
    requires FailFast(Fetched(s, |runs|, host), more, outcome)
    requires LogKeyed(more) && (carried ==> LogCarried(before, more))
    requires Chain(host, moreStates, more) && moreStates[0] == states[|log|]
    ensures var (runs', logs', log', states') := (runs + [(|runs|, outcome)], logs + [more], log + more, states + moreStates[1..]);
      (outcome == Done(true) ==> FeedsProgress(host, s, before, carried, runs', logs', log', states')) &&
      (outcome != Done(true) ==> FeedsRun(host, s, before, carried, outcome, runs', logs', log', states')) &&
      states'[|log'|] == moreStates[|more|]
  {
    var runs' := runs + [(|runs|, outcome)];
    if outcome != Done(true) {
      FailFastStops(Indices(|s.feeds|), runs', |runs|, outcome);
    }
    FeedsRan(s, host, runs, logs, outcome, more);
    ChainAppend(host, states, log, moreStates, more);
    FlattenSnoc(logs, more);
    LogAppend(before, carried, log, more);
  }

  /** The lists of `xss`, one after the other. */
  function Flatten<T>(xss: seq<seq<T>>): seq<T>
  {
    if xss == [] then [] else Flatten(xss[..|xss| - 1]) + xss[|xss| - 1]
  }

  lemma FlattenSnoc<T>(xss: seq<seq<T>>, xs: seq<T>)
    ensures Flatten(xss + [xs]) == Flatten(xss) + xs
  {
    assert (xss + [xs])[..|xss|] == xss;
  }

  class RSSFeed {
    var settings: Settings
    /** The options table the settings are persisted in. */
    const options: OptionTable
    /** The content store posts are written to. */
    const db: Store
    const host: Host

    /** The identity cache and the store, as `post` sees them. */
    ghost function State(): Snapshot
      reads this, db
    {
      Snapshot(settings.managedPosts, db.posts, db.meta, db.thumbnails, db.accepting)
    }

    /** The identity cache agrees with the store, and no two records share a stable id. */
    ghost predicate Consistent()
      reads this, db
    {
      ConsistentIn(State())
    }

    /** `__construct`: loads the stored settings. */
    constructor (options: OptionTable, db: Store, host: Host)
      requires OptionName in options.options
      modifies options
      ensures this.options == options && this.db == db && this.host == host
      ensures settings == old(options.options[OptionName])
      ensures options.options == old(options.options)
    {
      this.options := options;
      this.db := db;
      this.host := host;
      new;
      var loaded := GetConfiguration();
      settings := loaded.value;
    }

    /**
     * `getConfiguration`: the stored settings, or None (`false`) when there are
     * none; in that case the defaults are stored, but not returned.
     */
    method GetConfiguration() returns (r: Option<Settings>)
      modifies options
      ensures r == Loaded(old(options.options)) && options.options == AfterLoad(old(options.options))
      ensures r.Some? <==> OptionName in old(options.options)
      ensures OptionName in options.options
    {
      r := options.GetOption(OptionName);
      if r.None? {
        // add_option creates the option empty; update_option then stores the defaults
        var stored := options.UpdateOption(OptionName, Defaults());
      }
    }

    /** `saveConfiguration`: stores the instance settings; its argument is not used. */
    method SaveConfiguration(ignored: Option<Settings>) returns (changed: bool)
      modifies options
      ensures options.options == old(options.options)[settings.optionName := settings]
      ensures changed == (settings.optionName !in old(options.options) || old(options.options)[settings.optionName] != settings)
    {
      changed := options.UpdateOption(settings.optionName, settings);
    }

    /**
     * `saveAndExit`: bumps the run counter and the last-run time on a copy,
     * then saves; since the save stores the instance settings, the bumped
     * counters are never stored.
     */
    method SaveAndExit() returns (changed: bool)
      modifies options
      ensures options.options == old(options.options)[settings.optionName := settings]
      ensures options.options[settings.optionName].timesRun == settings.timesRun
      ensures changed == (settings.optionName !in old(options.options) || old(options.options)[settings.optionName] != settings)
    {
      var copy := settings.(timesRun := settings.timesRun + 1, lastRun := host.now);
      changed := SaveConfiguration(Some(copy));
    }

    /** `clear_settings`: deletes the stored option; the instance settings stay as they are. */
    method ClearSettings() returns (deleted: bool)
      modifies options
      ensures options.options == old(options.options) - {settings.optionName}
      ensures deleted == (settings.optionName in old(options.options))
    {
      deleted := options.DeleteOption(settings.optionName);
    }

    /** `add`: appends a feed URI, saves, and returns the new number of feeds. */
    method Add(uri: string) returns (count: nat)
      modifies this`settings, options
      ensures settings == old(settings).(feeds := old(settings.feeds) + [uri])
      ensures count == |old(settings.feeds)| + 1 == |settings.feeds|
      ensures options.options == old(options.options)[settings.optionName := settings]
    {
      settings := settings.(feeds := settings.feeds + [uri]);
      count := |settings.feeds|;
      var saved := SaveAndExit();
    }

    /** `get_feeds`: the configured feed list, in order. */
    function GetFeeds(): (feeds: seq<string>)
      reads this
      ensures feeds == settings.feeds
    {
      settings.feeds
    }

    /**
     * `remove`: splices out the feed at `index` (a negative index counts from
     * the end), saves, and tells whether anything was removed.
     */
    method Remove(index: int) returns (removed: bool)
      modifies this`settings, options
      ensures settings == old(settings).(feeds := SpliceOne(old(settings.feeds), index).0)
      ensures removed <==> SpliceStart(|old(settings.feeds)|, index) < |old(settings.feeds)|
      ensures 0 <= index < |old(settings.feeds)| ==>
        removed && settings.feeds == old(settings.feeds)[..index] + old(settings.feeds)[index + 1..]
      ensures index >= |old(settings.feeds)| ==> !removed && settings.feeds == old(settings.feeds)
      ensures options.options == old(options.options)[settings.optionName := settings]
    {
      var feeds := GetFeeds();
      var (rest, cut) := SpliceOne(settings.feeds, index);
      settings := settings.(feeds := rest);
      var saved := SaveAndExit();
      removed := cut != [];
      if 0 <= index < |feeds| {
        assert settings.feeds == feeds[..index] + feeds[index + 1..];
      }
    }

    /** `fetch`: the drafts of the feed at `index`, through the default fetch filter. */
    method Fetch(index: int) returns (drafts: seq<Draft>)
      ensures drafts == Fetched(settings, index, host)
      ensures !(0 <= index < |settings.feeds|) ==> drafts == []
    {
      var feeds := GetFeeds();
      match FeedUri(feeds, index)
      case None =>
        // fetch_feed(false) reports an error, so the filter returns its input
        drafts := [];
      case Some(uri) =>
        drafts := DefaultFetch([], uri, settings, host);
    }

    /** `get_codes`: stable id to title over the fetched drafts; a later draft with the same id wins. */
    method GetCodes(index: int) returns (codes: map<string, string>)
      ensures codes == LastWins(CodePairs(Fetched(settings, index, host)))
    {
      var drafts := Fetch(index);
      codes := map[];
      var i := 0;
      while i < |drafts|
        invariant 0 <= i <= |drafts|
        invariant codes == LastWins(CodePairs(drafts[..i]))
      {
        CodesStep(drafts, i);
        codes := codes[KeyOf(drafts[i]) := drafts[i].fields.title];
        i := i + 1;
      }
      assert drafts[..i] == drafts;
    }

    /**
     * `find_managed_post`: the cached record id on a cache hit, without
     * consulting the store; otherwise some record carrying the stable id,
     * which is then cached; otherwise 0 (`false`). A missing cache is
     * initialised to empty.
     */
    method FindManagedPost(key: string) returns (id: PostId)
      requires db.Valid()
      modifies this`settings
      ensures ResolvesTo(old(settings.managedPosts), db.posts, db.meta, key, id)
      ensures settings == old(settings).(managedPosts := CacheAfterLookup(old(settings.managedPosts), key, id))
      ensures old(settings.managedPosts).Some? && key in old(settings.managedPosts).value ==>
        settings == old(settings)
      ensures id != 0 ==> settings.managedPosts.Some? && key in settings.managedPosts.value && settings.managedPosts.value[key] == id
    {
      var copy := settings;
      if copy.managedPosts.None? {
        settings := settings.(managedPosts := Some(map[]));
      }
      if copy.managedPosts.Some? && key in copy.managedPosts.value {
        return settings.managedPosts.value[key];
      }
      var found := db.QueryStableId(key);
      if found.Some? {
        settings := settings.(managedPosts := Some(settings.managedPosts.value[key := found.value]));
        return found.value;
      }
      return 0;
    }

    /**
     * `post`: upserts one draft, as `Upserted` describes. `resolved` is what
     * the lookup returned, `target` the record written to.
     */
    method Post(d: Draft) returns (outcome: Outcome, ghost resolved: PostId, ghost target: PostId)
      requires db.Valid()
      modifies this`settings, db
      ensures db.Valid()
      ensures settings == old(settings).(managedPosts := settings.managedPosts)
      ensures Upserted(host, old(State()), d, resolved, target, outcome, State())
    {
      ghost var before := State();
      var found, postId := FindOrInsert(d);
      resolved, target := found, postId;
      ghost var mid := State();
      assert NeedsImage(mid, postId, d) == NeedsImage(before, postId, d);
      outcome := WriteDraft(postId, d);
      WrittenFrom(host, before, mid, d, postId, outcome, State());
    }

    /**
     * The lookup step of `post`: the record `find_managed_post` resolves, or
     * a newly inserted one when it resolves nothing.
     */
    method FindOrInsert(d: Draft) returns (resolved: PostId, target: PostId)
      requires db.Valid()
      modifies this`settings, db
      ensures db.Valid() && db.meta == old(db.meta) && db.thumbnails == old(db.thumbnails)
      ensures settings == old(settings).(managedPosts := settings.managedPosts)
      ensures LookedUp(old(State()), d, resolved, target, State())
    {
      resolved := FindManagedPost(KeyOf(d));
      target := resolved;
      if resolved == 0 {
        target := db.Insert(d.fields);
      }
    }

    /** The write step of `post`: the image, then the meta entries. */
    method WriteDraft(target: PostId, d: Draft) returns (outcome: Outcome)
      requires db.Valid()
      modifies db
      ensures db.Valid() && db.posts == old(db.posts) && db.accepting == old(db.accepting)
      ensures Written(host, old(State()), d, target, outcome, State())
    {
      var thrown := AttachImage(target, d);
      if thrown.Some? {
        outcome := Thrown(thrown.value);
      } else {
        WriteMeta(target, d.meta);
        outcome := Done(target != 0);
      }
    }

    /**
     * The image step of `post`: when the record has no thumbnail and the
     * draft names an image, the image is downloaded and attached; a failed
     * download is the exception's message and changes nothing.
     */
    method AttachImage(target: PostId, d: Draft) returns (thrown: Option<string>)
      requires db.Valid()
      modifies db
      ensures db.Valid() && db.posts == old(db.posts) && db.meta == old(db.meta)
      ensures db.accepting == old(db.accepting)
      ensures old(db.HasThumbnail(target)) || !ImageIsSet(d) ==> thrown.None? && db.thumbnails == old(db.thumbnails)
      ensures !old(db.HasThumbnail(target)) && ImageIsSet(d) ==>
        match host.saveImage(d.meta[ImageKey].value)
        case Failure(message) => thrown == Some(message) && db.thumbnails == old(db.thumbnails)
        case Success(attachment) =>
          thrown.None? &&
          db.thumbnails == if target in db.posts then old(db.thumbnails)[target := attachment] else old(db.thumbnails)
    {
      thrown := None;
      if !db.HasThumbnail(target) && ImageIsSet(d) {
        var saved := host.saveImage(d.meta[ImageKey].value);
        if saved.Failure? {
          return Some(saved.error);
        }
        db.SetThumbnail(target, saved.value);
      }
    }

    /**
     * The `foreach` over the draft's meta entries in `post`: each entry is
     * added as a unique key, or updated when the key is already there.
     */
    method WriteMeta(target: PostId, entries: Meta)
      requires db.Valid()
      modifies db
      ensures db.Valid() && db.posts == old(db.posts) && db.thumbnails == old(db.thumbnails)
      ensures db.accepting == old(db.accepting)
      ensures db.meta == MetaAfterPost(old(db.meta), db.posts, target, entries)
    {
      var keys := entries.Keys;
      ghost var done: Meta := map[];
      while keys != {}
        invariant keys <= entries.Keys
        invariant done.Keys == entries.Keys - keys
        invariant forall k :: k in done ==> done[k] == entries[k]
        invariant db.Valid() && db.posts == old(db.posts) && db.thumbnails == old(db.thumbnails)
        invariant db.accepting == old(db.accepting)
        invariant db.meta == MetaAfterPost(old(db.meta), db.posts, target, done)
        decreases |keys|
      {
        var k :| k in keys;
        ghost var before := db.meta;
        var added := db.AddMeta(target, k, entries[k]);
        if !added {
          db.UpdateMeta(target, k, entries[k]);
        }
        assert db.meta == if target in db.posts then before[target := MetaOf(before, target)[k := entries[k]]] else before;
        MetaAfterPostStep(old(db.meta), db.posts, target, done, k, entries[k]);
        done := done[k := entries[k]];
        keys := keys - {k};
      }
      assert done == entries;
    }

    /**
     * `fetch_and_save`: posts the fetched drafts in order and stops at the
     * first one that does not succeed; drafts already posted stay posted.
     * `log` holds the posts made, with their outcomes, and `states` the
     * state before and after each of them.
     */
    method FetchAndSave(index: int) returns (outcome: Outcome, ghost drafts: seq<Draft>,
                                             ghost log: seq<(Draft, Outcome)>, ghost states: seq<Snapshot>)
      requires db.Valid()
      modifies this`settings, db
      ensures db.Valid()
      ensures settings == old(settings).(managedPosts := settings.managedPosts)
      ensures drafts == Fetched(old(settings), index, host) && AllKeyed(drafts)
      ensures FailFast(drafts, log, outcome)
      ensures Chain(host, states, log) && states[0] == old(State()) && states[|log|] == State()
      ensures RecordsKept(old(db.posts), db.posts) && CacheKept(old(settings.managedPosts), settings.managedPosts)
      ensures db.accepting == old(db.accepting)
      ensures old(Consistent()) ==>
        Consistent() && StableIdsKept(old(db.posts), old(db.meta), db.meta) && Landed(log, db.posts, db.meta)
      ensures old(Consistent()) ==> NewRecordsFrom(states, log)
      ensures old(Consistent()) && Carried(old(State()), drafts) ==> db.posts == old(db.posts)
    {
      ghost var before := State();
      var fetchedDrafts := Fetch(index);
      drafts := fetchedDrafts;
      if uri :| FeedUri(settings.feeds, index) == Some(uri) {
        FetchedDraftsKeyed(uri, settings, host);
      }
      outcome, log, states := PostInOrder(fetchedDrafts);
      ChainKeeps(host, states, log);
      if ConsistentIn(before) {
        ChainConsistent(host, states, log);
        ChainNewRecords(host, states, log);
        if Carried(before, drafts) {
          ChainNoInsert(host, states, log);
        }
      }
    }

    /** The call the `foreach` of `fetch_and_save` makes for one draft, seen from the loop. */
    method PostOne(d: Draft) returns (outcome: Outcome)
      requires db.Valid()
      modifies this`settings, db
      ensures db.Valid()
      ensures settings == old(settings).(managedPosts := settings.managedPosts)
      ensures PostStep(host, old(State()), d, outcome, State())
    {
      ghost var resolved, target;
      outcome, resolved, target := Post(d);
    }

    /** The `foreach` of `fetch_and_save`: posts `drafts` in order, stopping at the first that does not succeed. */
    method PostInOrder(drafts: seq<Draft>) returns (outcome: Outcome, ghost log: seq<(Draft, Outcome)>, ghost states: seq<Snapshot>)
      requires db.Valid()
      modifies this`settings, db
      ensures db.Valid()
      ensures settings == old(settings).(managedPosts := settings.managedPosts)
      ensures FailFast(drafts, log, outcome)
      ensures Chain(host, states, log) && states[0] == old(State()) && states[|log|] == State()
    {
      log, states := [], [State()];
      var i := 0;
      while i < |drafts|
        invariant 0 <= i <= |drafts| && |log| == i
        invariant db.Valid()
        invariant settings == old(settings).(managedPosts := settings.managedPosts)
        invariant forall j :: 0 <= j < i ==> log[j] == (drafts[j], Done(true))
        invariant Chain(host, states, log) && states[0] == old(State()) && states[i] == State()
      {
        var result := PostOne(drafts[i]);
        ChainSnoc(host, states, log, drafts[i], result, State());
        if result != Done(true) {
          FailFastStops(drafts, log + [(drafts[i], result)], i, result);
          return result, log + [(drafts[i], result)], states + [State()];
        }
        log, states := log + [(drafts[i], result)], states + [State()];
        i := i + 1;
      }
      FailFastCompletes(drafts, log);
      outcome := Done(true);
    }

    /**
     * The call `fetch_and_save_all` makes for feed `index`, seen from the
     * outer loop: the feed is fetched as under `settings0`, whose identity
     * cache alone may differ from the current one; `carried` says every
     * stable id of the feed is carried by a record of `start`.
     */
    method FetchAndSaveFeed(index: int, ghost settings0: Settings, ghost start: Snapshot, ghost carried: bool)
      returns (outcome: Outcome, ghost log: seq<(Draft, Outcome)>, ghost states: seq<Snapshot>)
      requires db.Valid()
      requires settings == settings0.(managedPosts := settings.managedPosts)
      requires carried ==> Carried(start, Fetched(settings0, index, host))
      modifies this`settings, db
      ensures db.Valid()
      ensures settings == old(settings).(managedPosts := settings.managedPosts)
      ensures FailFast(Fetched(settings0, index, host), log, outcome)
      ensures LogKeyed(log)
      ensures carried ==> LogCarried(start, log)
      ensures Chain(host, states, log) && states[0] == old(State()) && states[|log|] == State()
    {
      ghost var drafts;
      FetchedIgnoresCache(settings0, settings.managedPosts, index, host);
      outcome, drafts, log, states := FetchAndSave(index);
    }

    /**
     * `fetch_and_save_all`: runs `fetch_and_save` over the feed indices in
     * order and stops at the first feed that does not succeed. `runs` holds
     * the feeds attempted with their outcomes, `logs` the posts of each,
     * and `states` the state before and after every post of `log`, the posts
     * of all feeds in order.
     */
    method FetchAndSaveAll() returns (outcome: Outcome, ghost runs: seq<(int, Outcome)>,
                                      ghost logs: seq<seq<(Draft, Outcome)>>,
                                      ghost log: seq<(Draft, Outcome)>, ghost states: seq<Snapshot>)
      requires db.Valid()
      modifies this`settings, db
      ensures db.Valid()
      ensures settings == old(settings).(managedPosts := settings.managedPosts)
      ensures FailFast(Indices(|old(settings.feeds)|), runs, outcome)
      ensures |logs| == |runs| && forall k :: 0 <= k < |runs| ==> FailFast(Fetched(old(settings), k, host), logs[k], runs[k].1)
      ensures log == Flatten(logs)
      ensures Chain(host, states, log) && states[0] == old(State()) && states[|log|] == State()
      ensures RecordsKept(old(db.posts), db.posts) && CacheKept(old(settings.managedPosts), settings.managedPosts)
      ensures db.accepting == old(db.accepting)
      ensures old(Consistent()) ==>
        Consistent() && StableIdsKept(old(db.posts), old(db.meta), db.meta) && Landed(log, db.posts, db.meta)
      ensures old(Consistent()) ==> NewRecordsFrom(states, log)
      ensures old(Consistent()) && FeedsCarried(old(State()), old(settings), host) ==> db.posts == old(db.posts)
    {
      ghost var before := State();
      ghost var carried := FeedsCarried(before, settings, host);
      outcome, runs, logs, log, states := FeedsInOrder(carried);
      ChainKeeps(host, states, log);
      if ConsistentIn(before) {
        ChainConsistent(host, states, log);
        ChainNewRecords(host, states, log);
        if carried {
          ChainNoInsert(host, states, log);
        }
      }
    }

    /**
     * The `foreach` of `fetch_and_save_all`; `carried` says every stable id
     * of every feed is carried by a record at the start.
     */
    method FeedsInOrder(ghost carried: bool) returns (outcome: Outcome, ghost runs: seq<(int, Outcome)>,
                                                      ghost logs: seq<seq<(Draft, Outcome)>>,
                                                      ghost log: seq<(Draft, Outcome)>, ghost states: seq<Snapshot>)
      requires db.Valid()
      requires carried ==> FeedsCarried(State(), settings, host)
      modifies this`settings, db
      ensures db.Valid()
      ensures settings == old(settings).(managedPosts := settings.managedPosts)
      ensures FeedsRun(host, old(settings), old(State()), carried, outcome, runs, logs, log, states) && states[|log|] == State()
    {
      ghost var settings0, before := settings, State();
      var feeds := GetFeeds();
      runs, logs, log, states := [], [], [], [State()];
      var i := 0;
      while i < |feeds|
        invariant 0 <= i <= |feeds| && |runs| == i
        invariant db.Valid()
        invariant settings == settings0.(managedPosts := settings.managedPosts)
        invariant FeedsProgress(host, settings0, before, carried, runs, logs, log, states) && states[|log|] == State()
      {
        var result;
        ghost var more, moreStates;
        result, more, moreStates := FetchAndSaveFeed(i, settings0, before, carried);
        FeedsStep(host, settings0, before, carried, runs, logs, log, states, result, more, moreStates);
        runs, logs, log, states := runs + [(i, result)], logs + [more], log + more, states + moreStates[1..];
        if result != Done(true) {
          return result, runs, logs, log, states;
        }
        i := i + 1;
      }
      FeedsComplete(host, settings0, before, carried, runs, logs, log, states);
      outcome := Done(true);
    }
  }
}
