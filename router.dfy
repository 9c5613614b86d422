/** The `Router` class: its route table, the navigation controller it
    drives, `map` and `open`. */
module LunaRouter {
  import opened Wrappers
  import opened Options
  import opened Resolver
  import opened Hierarchy
  import opened Presentation

  /** The navigation controller handed to the router: the part of it the
      router changes is its stack. */
  class NavigationController {
    var viewControllers: seq<ViewController>

    /** `setViewControllers(_:animated:)`. */
    method SetViewControllers(stack: seq<ViewController>)
      modifies this
      ensures viewControllers == stack
    {
      viewControllers := stack;
    }
  }

  /** What one call of `open(url:animated:extraParams:)` comes to. `Crashed`
      stands for the source's runtime crash. */
  datatype OpenOutcome =
    | Ignored
    | Crashed(failure: ResolutionFailure)
    | Performed(action: Action)

  /** The resolved screen as `open` configures it: parameters first, then
      the entry's presentation and transition styles. */
  function Configured(origin: Construction, params: Params, options: RouterOptions): (vc: ViewController)
    ensures vc.Created? && vc.origin == origin && vc.params == params
    ensures vc.presentationStyle == options.presentationStyle && vc.transitionStyle == options.transitionStyle
    ensures vc.transitioningDelegate == None
  {
    var built := NewController(origin);
    Styled(built.(params := built.params + params), options.presentationStyle, options.transitionStyle)
  }

  /** The whole of `open` on a route table, whether a navigation controller
      is attached, and the front screen. */
  function OpenSpec(table: map<string, RouterOptions>, attached: bool, url: string,
                    extraParams: Option<Params>, rt: Runtime, anchor: Option<Screen>): (o: OpenOutcome)
    ensures o.Crashed? ==> url in table && attached && ViewControllerFrom(table[url], rt) == Failure(o.failure)
    ensures o.Performed? <==> url in table && attached && ViewControllerFrom(table[url], rt).Success?
  {
    if url !in table || !attached then Ignored
    else
      var options := table[url];
      var params := MergeParams(options.defaultsParams, QueryParams(url), extraParams);
      match ViewControllerFrom(options, rt)
      case Failure(failure) => Crashed(failure)
      case Success(origin) => Performed(Dispatch(options, Configured(origin, params, options), anchor))
  }

  /** `open` does nothing for an unknown url or with no navigation controller. */
  lemma OpenIgnored(table: map<string, RouterOptions>, attached: bool, url: string,
                    extraParams: Option<Params>, rt: Runtime, anchor: Option<Screen>)
    ensures OpenSpec(table, attached, url, extraParams, rt, anchor) == Ignored
        <==> url !in table || !attached
  {
  }

  /** A route registered with `map(url:toCallback:)` and default options
      never reaches its callback: `open` resolves the empty class name and
      fails there, which in the source is a crash. */
  lemma CallbackRouteNeverCalledBack(table: map<string, RouterOptions>, url: string, callback: Callback,
                                     extraParams: Option<Params>, rt: Runtime, anchor: Option<Screen>)
    requires url != ""
    requires ValidRuntime(rt)
    ensures OpenSpec(Register(table, url, CallbackEntry(None, callback)), true, url, extraParams, rt, anchor)
         == Crashed(UnresolvedClass(""))
  {
  }

  /** `.AsRoot` leaves exactly one screen on the stack: the resolved one,
      carrying the merged parameters. */
  lemma OpenAsRoot(table: map<string, RouterOptions>, url: string,
                   extraParams: Option<Params>, rt: Runtime, anchor: Option<Screen>)
    requires url in table && table[url].openStyle == AsRoot
    requires ViewControllerFrom(table[url], rt).Success?
    ensures var outcome := OpenSpec(table, true, url, extraParams, rt, anchor);
      && outcome.Performed? && outcome.action.ReplaceStack?
      && |outcome.action.stack| == 1
      && outcome.action.stack[0].origin == ViewControllerFrom(table[url], rt).value
      && outcome.action.stack[0].params == MergeParams(table[url].defaultsParams, map[], extraParams)
  {
  }

  /** Whenever `open` surfaces something, it is the resolved screen carrying
      the defaults overridden by the extra parameters. */
  lemma OpenDeliversMergedParams(table: map<string, RouterOptions>, url: string,
                                 extraParams: Option<Params>, rt: Runtime, anchor: Option<Screen>)
    requires url in table
    ensures var outcome := OpenSpec(table, true, url, extraParams, rt, anchor);
      outcome.Performed? && outcome.action != NoActiveScreen ==>
        && Delivered(outcome.action).Some?
        && Delivered(outcome.action).value.Created?
        && Delivered(outcome.action).value.params == MergeParams(table[url].defaultsParams, map[], extraParams)
        && Delivered(outcome.action).value.presentationStyle == table[url].presentationStyle
  {
  }

  /** The open completion is handed to UIKit only by a presentation over a
      front screen, that is for `.Modal` and the `Custom*` styles. */
  lemma OpenCompletionOnlyWhenPresenting(table: map<string, RouterOptions>, url: string,
                                         extraParams: Option<Params>, rt: Runtime, anchor: Option<Screen>)
    requires url in table
    ensures var outcome := OpenSpec(table, true, url, extraParams, rt, anchor);
      var style := table[url].openStyle;
      && (outcome.Performed? && outcome.action.PresentOver? ==>
            style in {Modal, CustomPresentation, CustomTransition}
            && outcome.action.completion == table[url].openCompletion)
      && (outcome.Performed? && (style == AsRoot || style == Show) ==> !outcome.action.PresentOver?)
  {
  }

  class Router {
    const identifier: string
    var navigationController: NavigationController?
    var routerTable: map<string, RouterOptions>

    /** `init(_:navigationController:)`. */
    constructor (identifier: string, navigationController: NavigationController)
      ensures this.identifier == identifier && this.navigationController == navigationController
      ensures routerTable == map[]
    {
      this.identifier := identifier;
      this.navigationController := navigationController;
      routerTable := map[];
    }

    /** `init()`, as used for `shared`: no navigation controller yet. */
    constructor Detached()
      ensures identifier == "" && navigationController == null && routerTable == map[]
    {
      identifier := "";
      navigationController := null;
      routerTable := map[];
    }

    /** `map(url:toCallback:withOptions:)`. */
    method MapCallback(url: string, callback: Callback, options: Option<RouterOptions>)
      modifies this
      ensures routerTable == Register(old(routerTable), url, CallbackEntry(options, callback))
      ensures navigationController == old(navigationController)
    {
      if url != "" {
        var entry := if options.Some? then options.value else DefaultOptions();
        entry := entry.(callback := Some(callback));
        routerTable := routerTable[url := entry];
      }
    }

    /** `map(url:toViewController:withOptions:)`. */
    method MapViewController(url: string, controller: string, options: Option<RouterOptions>)
      modifies this
      ensures routerTable == Register(old(routerTable), url, ViewControllerEntry(options, controller))
      ensures navigationController == old(navigationController)
    {
      if url != "" {
        var entry := if options.Some? then options.value else DefaultOptions();
        entry := entry.(controllerDescription := entry.controllerDescription.(fullName := controller));
        routerTable := routerTable[url := entry];
      }
    }

    /** `open(url:animated:extraParams:)`. The front screen is looked up in
        the given windows; only `.AsRoot` changes the router's own
        navigation controller. */
    method Open(url: string, extraParams: Option<Params>, rt: Runtime,
                delegateWindow: Option<Window>, windows: seq<Window>) returns (outcome: OpenOutcome)
      modifies navigationController
      ensures outcome == OpenSpec(routerTable, navigationController != null, url, extraParams, rt,
                                  ActiveScreen(delegateWindow, windows))
      ensures navigationController != null ==>
        navigationController.viewControllers ==
          if outcome.Performed? && outcome.action.ReplaceStack? then outcome.action.stack
          else old(navigationController.viewControllers)
    {
      if url !in routerTable {
        return Ignored;
      }
      var options := routerTable[url];
      if navigationController == null {
        return Ignored;
      }
      var queryParams := options.defaultsParams;
      queryParams := queryParams + QueryParams(url);
      if extraParams.Some? {
        queryParams := queryParams + extraParams.value;
      }
      var resolved := ViewControllerFrom(options, rt);
      if resolved.Failure? {
        return Crashed(resolved.error);
      }
      var viewController := NewController(resolved.value);
      viewController := Initialize(viewController, queryParams);
      viewController := Styled(viewController, options.presentationStyle, options.transitionStyle);
      assert viewController == Configured(resolved.value, queryParams, options);
      match options.openStyle {
        case AsRoot =>
          navigationController.SetViewControllers([viewController]);
          outcome := Performed(ReplaceStack([viewController]));
        case CustomPresentation | CustomTransition =>
          if options.shouldPresentedAlongWithNavigationController {
            viewController := AlongWithNavigationController(viewController);
          }
          viewController := WithDelegate(viewController, Some(DelegateFor(options)));
          var anchor := CurrentViewController(delegateWindow, windows);
          outcome := if anchor.Some? then Performed(PresentOver(anchor.value, viewController, options.openCompletion))
                     else Performed(NoActiveScreen);
        case Modal =>
          if options.shouldPresentedAlongWithNavigationController {
            viewController := AlongWithNavigationController(viewController);
          }
          var anchor := CurrentViewController(delegateWindow, windows);
          outcome := if anchor.Some? then Performed(PresentOver(anchor.value, viewController, options.openCompletion))
                     else Performed(NoActiveScreen);
        case Show =>
          if options.shouldPresentedAlongWithNavigationController {
            viewController := AlongWithNavigationController(viewController);
          }
          var anchor := CurrentViewController(delegateWindow, windows);
          outcome := if anchor.Some? then Performed(ShowFrom(anchor.value, viewController))
                     else Performed(NoActiveScreen);
      }
    }
  }
}
