/**
 * The feed registry: the `$settings` record of class `RSSFeed`, its defaults,
 * PHP's `array_splice` as `remove` uses it, and the WordPress options table
 * the record is persisted in.
 */
module Registry {
  import opened Wrappers
  import opened Content

  /** The `$settings` array with the keys the plugin defines. */
  datatype Settings = Settings(
    feeds: seq<string>,
    postCategory: seq<int>,
    postAuthor: int,
    postStatus: string,
    enclosures: bool,
    timesRun: int,
    /** `_managed_posts`: stable id to record id; None when the key is not set. */
    managedPosts: Option<map<string, PostId>>,
    lastRun: int,
    optionName: string)

  /** The option the settings are stored under. */
  const OptionName := "rssff_options"

  const DefaultFeed := "http://allvoices.com/hub/118/feed.xml"

  /**
   * `$default_settings`: the allvoices hub feed, category 0, author 1, draft
   * status, enclosures on, counters at zero, an empty identity cache, and
   * the option name the settings are stored under.
   */
  function Defaults(): (d: Settings)
    ensures d.feeds == [DefaultFeed] && d.postCategory == [0] && d.postAuthor == 1 && d.postStatus == "draft"
    ensures d.enclosures && d.timesRun == 0 && d.lastRun == 0
    ensures d.managedPosts == Some(map[]) && d.optionName == OptionName
  {
    Settings([DefaultFeed], [0], 1, "draft", true, 0, Some(map[]), 0, OptionName)
  }

  /**
   * The keys for which `isset($settings[$key])` holds. A falsy settings value
   * (None) has none; every key of the record is set except `_managed_posts`
   * when it is absent.
   */
  function SettingKeys(s: Option<Settings>): (keys: set<string>)
    ensures s.None? ==> keys == {}
    ensures s.Some? ==> ("_managed_posts" in keys <==> s.value.managedPosts.Some?)
    ensures s.Some? ==> {"feeds", "post_category", "post_author", "post_status", "enclosures", "_times_run", "_last_run", "_option_name"} <= keys
    ensures keys <= {"feeds", "post_category", "post_author", "post_status", "enclosures", "_times_run", "_last_run", "_option_name", "_managed_posts"}
  {
    match s
    case None => {}
    case Some(v) =>
      {"feeds", "post_category", "post_author", "post_status", "enclosures", "_times_run", "_last_run", "_option_name"}
      + (if v.managedPosts.Some? then {"_managed_posts"} else {})
  }

  /**
   * Where `array_splice($a, $offset, ...)` starts on an array of `n` entries:
   * a negative offset counts from the end, clamped to 0; an offset past the
   * end is clamped to `n`.
   */
  function SpliceStart(n: nat, offset: int): (start: nat)
    ensures start <= n
    ensures 0 <= offset <= n ==> start == offset
    ensures 0 <= n + offset && offset < 0 ==> start == n + offset
    ensures offset > n ==> start == n
    ensures n + offset < 0 ==> start == 0
  {
    if offset < 0 then (if n + offset < 0 then 0 else n + offset)
    else if offset > n then n
    else offset
  }

  /**
   * `array_splice($s, $offset, 1)`: the list that remains and the removed
   * part. Exactly the entry at the start position goes, later entries shift
   * down by one; from the end of the list nothing is removed.
   */
  function SpliceOne<T>(s: seq<T>, offset: int): (r: (seq<T>, seq<T>))
    ensures var start := SpliceStart(|s|, offset);
      if start < |s| then
        r.1 == [s[start]] && |r.0| == |s| - 1 &&
        (forall j :: 0 <= j < start ==> r.0[j] == s[j]) &&
        (forall j :: start <= j < |r.0| ==> r.0[j] == s[j + 1])
      else
        r.0 == s && r.1 == []
    ensures multiset(r.0) + multiset(r.1) == multiset(s)
  {
    var start := SpliceStart(|s|, offset);
    if start < |s| then
      assert s == s[..start] + [s[start]] + s[start + 1..];
      (s[..start] + s[start + 1..], [s[start]])
    else
      (s, [])
  }

  /**
   * The WordPress options table, restricted to values of the settings shape:
   * `get_option`, `update_option` and `delete_option`.
   */
  class OptionTable {
    var options: map<string, Settings>

    constructor (initial: map<string, Settings>)
      ensures options == initial
    {
      options := initial;
    }

    /** `get_option`: None plays the `false` returned for a missing option. */
    function GetOption(name: string): (r: Option<Settings>)
      reads this
      ensures r.Some? <==> name in options
      ensures r.Some? ==> r.value == options[name]
    {
      if name in options then Some(options[name]) else None
    }

    /** `update_option`: stores the value; true when the stored value changed. */
    method UpdateOption(name: string, value: Settings) returns (changed: bool)
      modifies this
      ensures options == old(options)[name := value]
      ensures changed == (name !in old(options) || old(options)[name] != value)
    {
      changed := name !in options || options[name] != value;
      options := options[name := value];
    }

    /** `delete_option`: true when there was an option to delete. */
    method DeleteOption(name: string) returns (deleted: bool)
      modifies this
      ensures options == old(options) - {name}
      ensures deleted == (name in old(options))
    {
      deleted := name in options;
      options := options - {name};
    }
  }
}
