/** The screens the router builds and the `switch` on `OpenStyle` that
    decides how `open` surfaces them. */
module Presentation {
  import opened Wrappers
  import opened Options
  import opened Resolver
  import opened Hierarchy

  /** The custom transition delegate attached for the `Custom*` styles,
      carrying the three configurations of the route. */
  datatype TransitioningDelegate = TransitioningDelegate(
    presentTransition: Option<Configuration>,
    dismissTransition: Option<Configuration>,
    presentation: Option<Configuration>)

  /** A screen the router built: either the resolved screen itself or a
      navigation controller made to wrap it. */
  datatype ViewController =
    | Created(origin: Construction, params: Params,
              presentationStyle: PresentationStyle, transitionStyle: TransitionStyle,
              transitioningDelegate: Option<TransitioningDelegate>)
    | NavigationWrapper(viewControllers: seq<ViewController>,
                        presentationStyle: PresentationStyle, transitionStyle: TransitionStyle,
                        transitioningDelegate: Option<TransitioningDelegate>)

  /** What one `open` does to the screen hierarchy. */
  datatype Action =
    | ReplaceStack(stack: seq<ViewController>)        // navigationController.setViewControllers
    | PresentOver(anchor: Screen, target: ViewController, completion: Option<Callback>)
    | ShowFrom(anchor: Screen, target: ViewController) // show(_:sender:), no completion
    | NoActiveScreen                                   // the optional chain on a nil front screen

  /** A freshly built screen before the router configures it. */
  function NewController(origin: Construction): (vc: ViewController)
    ensures vc.Created? && vc.origin == origin && vc.params == map[]
    ensures vc.transitioningDelegate == None
  {
    Created(origin, map[], FullScreen, CoverVertical, None)
  }

  /** `initialize(viewController:params:)`: every merged parameter is set on
      the screen, one key at a time, in no particular order. */
  method Initialize(vc: ViewController, params: Params) returns (r: ViewController)
    requires vc.Created?
    ensures r == vc.(params := vc.params + params)
  {
    r := vc;
    var remaining := params.Keys;
    while remaining != {}
      invariant remaining <= params.Keys
      invariant r.Created?
      invariant r == vc.(params := r.params)
      invariant r.params.Keys == vc.params.Keys + (params.Keys - remaining)
      invariant forall k :: k in params && k !in remaining ==> r.params[k] == params[k]
      invariant forall k :: k in vc.params && k !in params ==> r.params[k] == vc.params[k]
      invariant forall k :: k in remaining ==> k in r.params ==> r.params[k] == vc.params[k]
      decreases remaining
    {
      var key :| key in remaining;
      r := r.(params := r.params[key := params[key]]);
      remaining := remaining - {key};
    }
    assert r.params == vc.params + params;
  }

  /** The screen with its modal presentation and transition styles set. */
  function Styled(vc: ViewController, presentation: PresentationStyle, transition: TransitionStyle): (r: ViewController)
    ensures r.presentationStyle == presentation && r.transitionStyle == transition
    ensures r.transitioningDelegate == vc.transitioningDelegate
    ensures r.Created? == vc.Created?
    ensures vc.Created? ==> r.origin == vc.origin && r.params == vc.params
    ensures vc.NavigationWrapper? ==> r.viewControllers == vc.viewControllers
  {
    match vc
    case Created(origin, params, _, _, delegate) => Created(origin, params, presentation, transition, delegate)
    case NavigationWrapper(stack, _, _, delegate) => NavigationWrapper(stack, presentation, transition, delegate)
  }

  /** The screen with its transitioning delegate set. */
  function WithDelegate(vc: ViewController, delegate: Option<TransitioningDelegate>): (r: ViewController)
    ensures r.transitioningDelegate == delegate
    ensures r.presentationStyle == vc.presentationStyle && r.transitionStyle == vc.transitionStyle
    ensures r.Created? == vc.Created?
    ensures vc.Created? ==> r.origin == vc.origin && r.params == vc.params
    ensures vc.NavigationWrapper? ==> r.viewControllers == vc.viewControllers
  {
    match vc
    case Created(origin, params, presentation, transition, _) => Created(origin, params, presentation, transition, delegate)
    case NavigationWrapper(stack, presentation, transition, _) => NavigationWrapper(stack, presentation, transition, delegate)
  }

  /** `alongWithNavigationController`: a new navigation controller holding
      just `vc`, taking over its presentation and transition styles. */
  function AlongWithNavigationController(vc: ViewController): (w: ViewController)
    ensures w.NavigationWrapper? && w.viewControllers == [vc]
    ensures w.presentationStyle == vc.presentationStyle && w.transitionStyle == vc.transitionStyle
    ensures w.transitioningDelegate == None
  {
    NavigationWrapper([vc], vc.presentationStyle, vc.transitionStyle, None)
  }

  /** The delegate built for the `Custom*` styles carries the route's three
      configurations, each in its own role. */
  function DelegateFor(options: RouterOptions): (d: TransitioningDelegate)
    ensures d.presentTransition == options.presentTransitionConfiguration
    ensures d.dismissTransition == options.dismissTransitionConfiguration
    ensures d.presentation == options.presentationConfiguration
  {
    TransitioningDelegate(options.presentTransitionConfiguration,
                          options.dismissTransitionConfiguration,
                          options.presentationConfiguration)
  }

  function Wrapped(vc: ViewController, along: bool): ViewController
  {
    if along then AlongWithNavigationController(vc) else vc
  }

  /** The `switch options.openStyle` of `open`, given the configured screen
      and the front screen found by `currentViewController`. The source's
      `default` arm receives only `.Show`. */
  function Dispatch(options: RouterOptions, vc: ViewController, anchor: Option<Screen>): (a: Action)
    ensures a.ReplaceStack? <==> options.openStyle == AsRoot
    ensures a == NoActiveScreen <==> options.openStyle != AsRoot && anchor.None?
    ensures a.PresentOver? ==> a.completion == options.openCompletion && Some(a.anchor) == anchor
    ensures a.ShowFrom? ==> options.openStyle == Show && Some(a.anchor) == anchor
  {
    var along := options.shouldPresentedAlongWithNavigationController;
    match options.openStyle
    case AsRoot =>
      ReplaceStack([vc])
    case CustomPresentation | CustomTransition =>
      var target := WithDelegate(Wrapped(vc, along), Some(DelegateFor(options)));
      if anchor.Some? then PresentOver(anchor.value, target, options.openCompletion) else NoActiveScreen
    case Modal =>
      var target := Wrapped(vc, along);
      if anchor.Some? then PresentOver(anchor.value, target, options.openCompletion) else NoActiveScreen
    case Show =>
      var target := Wrapped(vc, along);
      if anchor.Some? then ShowFrom(anchor.value, target) else NoActiveScreen
  }

  /** `.AsRoot` replaces the whole stack with exactly the new screen,
      unwrapped, whatever the wrap flag and the front screen. */
  lemma DispatchAsRoot(options: RouterOptions, vc: ViewController, anchor: Option<Screen>)
    requires options.openStyle == AsRoot
    ensures Dispatch(options, vc, anchor) == ReplaceStack([vc])
  {
  }

  /** Every other style surfaces the screen over the front screen, wrapped in
      a fresh one-screen navigation controller exactly when the flag is set;
      only the `Custom*` styles attach a transition delegate; and the open
      completion is handed over exactly by the presenting styles. With no
      front screen nothing happens. */
  lemma DispatchOverFrontScreen(options: RouterOptions, vc: ViewController, anchor: Option<Screen>)
    requires options.openStyle != AsRoot
    requires vc.transitioningDelegate == None
    ensures var a := Dispatch(options, vc, anchor);
      var style := options.openStyle;
      var custom := style == CustomPresentation || style == CustomTransition;
      && (anchor.None? ==> a == NoActiveScreen)
      && (anchor.Some? ==>
            && (a.PresentOver? <==> style != Show)
            && (a.ShowFrom? <==> style == Show)
            && a.anchor == anchor.value
            && WithDelegate(a.target, None) == Wrapped(vc, options.shouldPresentedAlongWithNavigationController)
            && (a.target.transitioningDelegate.Some? <==> custom)
            && (custom ==> a.target.transitioningDelegate == Some(DelegateFor(options)))
            && (a.PresentOver? ==> a.completion == options.openCompletion))
  {
  }

  /** The screen the router built, looked for inside an action. */
  function Delivered(a: Action): Option<ViewController>
  {
    match a
    case ReplaceStack(stack) => if |stack| == 1 then Some(stack[0]) else None
    case PresentOver(_, target, _) => Some(Unwrapped(target))
    case ShowFrom(_, target) => Some(Unwrapped(target))
    case NoActiveScreen => None
  }

  function Unwrapped(vc: ViewController): ViewController
  {
    if vc.NavigationWrapper? && |vc.viewControllers| == 1 then vc.viewControllers[0] else vc
  }

  /** Whatever the style, an action that surfaces something surfaces the
      configured screen itself, wrapped or not, with its parameters intact. */
  lemma DispatchDelivers(options: RouterOptions, vc: ViewController, anchor: Option<Screen>)
    requires vc.Created?
    ensures var a := Dispatch(options, vc, anchor);
      a != NoActiveScreen ==>
        && Delivered(a).Some? && Delivered(a).value.Created?
        && Delivered(a).value.origin == vc.origin
        && Delivered(a).value.params == vc.params
        && Delivered(a).value.presentationStyle == vc.presentationStyle
        && Delivered(a).value.transitionStyle == vc.transitionStyle
  {
  }
}
