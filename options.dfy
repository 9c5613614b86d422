/** `Router.OpenStyle`, `Router.RouterOptions` and the two pieces of data
    logic that act on them without touching the screen hierarchy: filling the
    route table and merging parameters. */
module Options {
  import opened Wrappers
  import opened Descriptor

  /** How a resolved screen is surfaced. */
  datatype OpenStyle = AsRoot | Modal | CustomPresentation | CustomTransition | Show

  /** `UIModalPresentationStyle`; `Unstyled` is its `.none`. */
  datatype PresentationStyle =
    | FullScreen | PageSheet | FormSheet | CurrentContext | Custom
    | OverFullScreen | OverCurrentContext | Popover | Unstyled | Automatic

  /** `UIModalTransitionStyle`. */
  datatype TransitionStyle = CoverVertical | FlipHorizontal | CrossDissolve | PartialCurl

  /** An opaque reference to a Swift closure (a route callback or an open
      completion); the router only stores and forwards it. */
  datatype Callback = Callback(handle: nat)

  /** An opaque transition or presentation configuration object. */
  datatype Configuration = Configuration(handle: nat)

  /** A parameter value (`Any`): passed through, never inspected. */
  datatype Value = Value(handle: nat)

  type Params = map<string, Value>

  datatype RouterOptions = RouterOptions(
    presentationStyle: PresentationStyle,
    transitionStyle: TransitionStyle,
    defaultsParams: Params,
    shouldPresentedAlongWithNavigationController: bool,
    callback: Option<Callback>,
    openCompletion: Option<Callback>,
    controllerDescription: ViewControllerDescription,
    openStyle: OpenStyle,
    presentationConfiguration: Option<Configuration>,
    presentTransitionConfiguration: Option<Configuration>,
    dismissTransitionConfiguration: Option<Configuration>)

  /** `RouterOptions()`: a pushed screen, wrapped in a navigation controller,
      with no parameters and no screen named yet. */
  function DefaultOptions(): (o: RouterOptions)
    ensures o.openStyle == Show && o.shouldPresentedAlongWithNavigationController
    ensures o.defaultsParams == map[]
    ensures o.controllerDescription == ViewControllerDescription("", None, None, None)
    ensures o.callback == None && o.openCompletion == None
    ensures o.presentationStyle == Unstyled && o.transitionStyle == CoverVertical
    ensures o.presentationConfiguration == None && o.presentTransitionConfiguration == None
    ensures o.dismissTransitionConfiguration == None
  {
    RouterOptions(Unstyled, CoverVertical, map[], true, None, None,
                  ViewControllerDescription("", None, None, None), Show, None, None, None)
  }

  /** The options a default entry leaves unnamed: no package, no name. */
  lemma DefaultOptionsNameNothing()
    ensures PackageName(DefaultOptions().controllerDescription) == None
    ensures Name(DefaultOptions().controllerDescription) == None
  {
  }

  /** The entry `map(url:toCallback:withOptions:)` stores: the given options
      (or the defaults) with the callback set and nothing else changed; in
      particular a `fullName` already in the options is kept. */
  function CallbackEntry(options: Option<RouterOptions>, callback: Callback): (o: RouterOptions)
    ensures o.callback == Some(callback)
    ensures options.Some? ==> o.(callback := options.value.callback) == options.value
    ensures options.None? ==> o.(callback := None) == DefaultOptions()
  {
    var base := if options.Some? then options.value else DefaultOptions();
    base.(callback := Some(callback))
  }

  /** The entry `map(url:toViewController:withOptions:)` stores: the given
      options (or the defaults) with `fullName` set and nothing else changed;
      in particular a callback already in the options is kept. */
  function ViewControllerEntry(options: Option<RouterOptions>, controller: string): (o: RouterOptions)
    ensures o.controllerDescription.fullName == controller
    ensures var base := if options.Some? then options.value else DefaultOptions();
      && o.(controllerDescription := base.controllerDescription) == base
      && o.controllerDescription.(fullName := base.controllerDescription.fullName) == base.controllerDescription
  {
    var base := if options.Some? then options.value else DefaultOptions();
    base.(controllerDescription := base.controllerDescription.(fullName := controller))
  }

  /** One write to the route table: an empty url is ignored, any other url
      is bound to the entry whatever it was bound to before. */
  function Register(table: map<string, RouterOptions>, url: string, entry: RouterOptions)
    : (t: map<string, RouterOptions>)
    ensures url == "" ==> t == table
    ensures url != "" ==> url in t && t[url] == entry && t.Keys == table.Keys + {url}
    ensures forall k :: k != url && k in table ==> k in t && t[k] == table[k]
    ensures forall k :: k in t ==> k in table || k == url
  {
    if url == "" then table else table[url := entry]
  }

  /** Registering a url twice keeps only the second entry. */
  lemma RegisterLastWins(table: map<string, RouterOptions>, url: string, first: RouterOptions, second: RouterOptions)
    ensures Register(Register(table, url, first), url, second) == Register(table, url, second)
  {
  }

  /** `queryParams(of:)`: a stub that parses nothing. */
  function QueryParams(url: string): (q: Params)
    ensures q.Keys == {}
  {
    map[]
  }

  /** The three parameter sources merged with `merge { (_, new) in new }`:
      defaults, then query parameters, then the caller's extra parameters;
      a later source wins on a shared key. */
  function MergeParams(defaults: Params, query: Params, extra: Option<Params>): (r: Params)
    ensures extra.None? ==> r.Keys == defaults.Keys + query.Keys
    ensures extra.Some? ==> r.Keys == defaults.Keys + query.Keys + extra.value.Keys
    ensures forall k :: extra.Some? && k in extra.value ==> r[k] == extra.value[k]
    ensures forall k :: k in query && (extra.None? || k !in extra.value) ==> r[k] == query[k]
    ensures forall k :: k in defaults && k !in query && (extra.None? || k !in extra.value) ==> r[k] == defaults[k]
  {
    var merged := defaults + query;
    if extra.Some? then merged + extra.value else merged
  }

  /** Since the query stage is empty, what `open` passes on is the defaults
      overridden by the extra parameters. */
  lemma MergeIgnoresQuery(defaults: Params, url: string, extra: Option<Params>)
    ensures var r := MergeParams(defaults, QueryParams(url), extra);
      && (extra.None? ==> r == defaults)
      && (extra.Some? ==> r.Keys == defaults.Keys + extra.value.Keys)
      && (forall k :: extra.Some? && k in extra.value ==> r[k] == extra.value[k])
      && (forall k :: k in defaults && (extra.None? || k !in extra.value) ==> r[k] == defaults[k])
  {
  }
}
