/**
 * The `configure` subcommand of the WP-CLI command class: it shows the
 * stored settings, or checks every override against the keys the settings
 * already have before accepting any of them.
 */
module Command {
  import opened Wrappers
  import opened Assoc
  import opened Registry
  import opened Engine

  /** The start of the exception message for an unknown setting. */
  const NoParameter := "There is no parameter by the name "

  /** `array_key_exists($key, $assoc_args)`. */
  predicate HasArg(args: seq<(string, string)>, key: string)
  {
    exists j :: 0 <= j < |args| && args[j].0 == key
  }

  /**
   * The key check of `_configure`: every override must name a key that is
   * set in the loaded settings. The first override that does not aborts the
   * command with an exception naming it; otherwise the accepted overrides
   * are returned, a later value for the same key replacing an earlier one.
   * Values are kept as the raw text they were given in.
   */
  method CheckOptions(present: set<string>, args: seq<(string, string)>) returns (r: Result<map<string, string>, string>)
    ensures r.Success? <==> forall j :: 0 <= j < |args| ==> args[j].0 in present
    ensures r.Success? ==> r.value == LastWins(args) && r.value.Keys <= present
    ensures r.Failure? ==>
      (exists i :: 0 <= i < |args| && args[i].0 !in present &&
         (forall j :: 0 <= j < i ==> args[j].0 in present) && r.error == NoParameter + args[i].0)
  {
    var overrides := map[];
    var i := 0;
    while i < |args|
      invariant 0 <= i <= |args|
      invariant forall j :: 0 <= j < i ==> args[j].0 in present
      invariant overrides == LastWins(args[..i]) && overrides.Keys <= present
    {
      var (parameter, value) := args[i];
      if parameter !in present {
        return Failure(NoParameter + parameter);
      }
      LastWinsPrefix(args, i);
      overrides := overrides[parameter := value];
      i := i + 1;
    }
    assert args[..i] == args;
    return Success(overrides);
  }

  /** What `_configure` returns: the loaded settings, the settings with the accepted overrides, or the exception. */
  datatype ConfigureOutcome =
    | Shown(loaded: Option<Settings>)
    | Configured(loaded: Option<Settings>, overrides: map<string, string>)
    | Rejected(message: string)

  /**
   * `_configure`: loads the settings, then either shows them (a `show`
   * argument), or checks the overrides and saves. The save stores the
   * instance settings, not the overridden copy, so an accepted override is
   * returned but never stored; a rejected one saves nothing.
   */
  method Configure(rss: RSSFeed, args: seq<(string, string)>) returns (r: ConfigureOutcome)
    modifies rss.options
    ensures r.Shown? <==> HasArg(args, "show")
    ensures HasArg(args, "show") ==>
      r == Shown(Loaded(old(rss.options.options))) && rss.options.options == AfterLoad(old(rss.options.options))
    ensures !HasArg(args, "show") ==>
      (r.Rejected? <==> exists j :: 0 <= j < |args| && args[j].0 !in SettingKeys(Loaded(old(rss.options.options))))
    ensures r.Rejected? ==>
      rss.options.options == AfterLoad(old(rss.options.options)) &&
      exists i :: 0 <= i < |args| && args[i].0 !in SettingKeys(Loaded(old(rss.options.options))) &&
        (forall j :: 0 <= j < i ==> args[j].0 in SettingKeys(Loaded(old(rss.options.options)))) &&
        r.message == NoParameter + args[i].0
    ensures r.Configured? ==>
      r.loaded == Loaded(old(rss.options.options)) && r.overrides == LastWins(args) &&
      rss.options.options == AfterLoad(old(rss.options.options))[rss.settings.optionName := rss.settings]
  {
    var loaded := rss.GetConfiguration();
    if HasArg(args, "show") {
      return Shown(loaded);
    }
    var checked := CheckOptions(SettingKeys(loaded), args);
    match checked
    case Failure(message) =>
      return Rejected(message);
    case Success(overrides) =>
      var saved := rss.SaveConfiguration(loaded);
      return Configured(loaded, overrides);
  }
}
