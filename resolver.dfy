/** `viewController(from:)` and `viewController(name:storyboard:bundle:fromNib:)`:
    which of the three ways of building a screen the router picks. The
    Objective-C runtime and UIKit loading are given as data (`Runtime`);
    whenever the source would crash (a force-unwrapped class lookup, a missing
    storyboard scene) the result is a `Failure`. */
module Resolver {
  import opened Wrappers
  import opened Names
  import opened Descriptor
  import opened Options

  datatype BundleRef = BundleRef(path: string)

  /** What the runtime can resolve: bundle paths that load, class names that
      `NSClassFromString` maps to a `UIViewController` subclass, and the
      (storyboard, identifier) scenes that instantiate. */
  datatype Runtime = Runtime(
    bundles: map<string, BundleRef>,
    classes: set<string>,
    scenes: set<(string, string)>)

  /** What holds of every runtime: `NSClassFromString("")` finds no class. */
  predicate ValidRuntime(rt: Runtime) {
    "" !in rt.classes
  }

  /** The construction the router asks UIKit for. */
  datatype Construction =
    | FromStoryboard(storyboard: string, identifier: string, bundle: Option<BundleRef>)
    | FromNib(className: string, nibName: string, bundle: Option<BundleRef>)
    | ByInit(className: string)

  datatype ResolutionFailure =
    | MissingScene(storyboard: string, identifier: string)
    | UnresolvedClass(name: string)

  /** `Bundle(path:)`: an unknown path yields no bundle, which is not an error. */
  function LoadBundle(path: Option<string>, rt: Runtime): (b: Option<BundleRef>)
    ensures b.Some? <==> path.Some? && path.value in rt.bundles
    ensures b.Some? ==> b.value == rt.bundles[path.value]
  {
    if path.Some? && path.value in rt.bundles then Some(rt.bundles[path.value]) else None
  }

  /** `viewController(name:storyboard:bundle:fromNib:)`. */
  function ViewControllerNamed(name: string, storyboard: Option<string>, bundle: Option<BundleRef>,
                               fromNib: bool, rt: Runtime): (r: Result<Construction, ResolutionFailure>)
    ensures storyboard.Some? ==> (r.Success? <==> (storyboard.value, name) in rt.scenes)
    ensures storyboard.None? ==> (r.Success? <==> name in rt.classes)
    ensures r.Success? ==> (r.value.FromStoryboard? <==> storyboard.Some?)
    ensures r.Success? && r.value.FromNib? ==> fromNib && r.value.nibName == LastComponent(name)
    ensures r.Success? && r.value.ByInit? ==> !fromNib && storyboard.None?
  {
    if storyboard.Some? then
      if (storyboard.value, name) in rt.scenes
      then Success(FromStoryboard(storyboard.value, name, bundle))
      else Failure(MissingScene(storyboard.value, name))
    else if name !in rt.classes then
      // the source force-unwraps the class lookup here and crashes
      Failure(UnresolvedClass(name))
    else if fromNib then
      Success(FromNib(name, LastComponent(name), bundle))
    else
      Success(ByInit(name))
  }

  /** `viewController(from:)`: the nib counts only when it is present and
      non-empty. */
  function ViewControllerFrom(options: RouterOptions, rt: Runtime): (r: Result<Construction, ResolutionFailure>)
    ensures var d := options.controllerDescription;
      && (d.storyboard.Some? ==> (r.Success? <==> (d.storyboard.value, d.fullName) in rt.scenes))
      && (d.storyboard.None? ==> (r.Success? <==> d.fullName in rt.classes))
      && (r.Success? ==> (r.value.FromNib? <==> d.storyboard.None? && d.nib.Some? && d.nib.value != ""))
      && (r.Success? && !r.value.FromStoryboard? ==> r.value.className == d.fullName)
  {
    var d := options.controllerDescription;
    var bundle := LoadBundle(d.bundle, rt);
    var fromNib := d.nib.Some? && d.nib.value != "";
    ViewControllerNamed(d.fullName, d.storyboard, bundle, fromNib, rt)
  }

  /** The resolution choice: a storyboard wins and is asked for the full
      name; otherwise a non-empty nib selects nib loading named by the last
      dot piece; otherwise (no nib, or an empty one) plain construction. The
      class lookup fails exactly when the name is not a known class. */
  lemma ResolutionChoice(options: RouterOptions, rt: Runtime)
    ensures var d := options.controllerDescription;
      var r := ViewControllerFrom(options, rt);
      var bundle := LoadBundle(d.bundle, rt);
      && (d.storyboard.Some? ==>
            r == (if (d.storyboard.value, d.fullName) in rt.scenes
                  then Success(FromStoryboard(d.storyboard.value, d.fullName, bundle))
                  else Failure(MissingScene(d.storyboard.value, d.fullName))))
      && (d.storyboard.None? && d.fullName !in rt.classes ==> r == Failure(UnresolvedClass(d.fullName)))
      && (d.storyboard.None? && d.fullName in rt.classes && d.nib.Some? && d.nib.value != "" ==>
            r == Success(FromNib(d.fullName, NibName(d.fullName), bundle)))
      && (d.storyboard.None? && d.fullName in rt.classes && (d.nib.None? || d.nib.value == "") ==>
            r == Success(ByInit(d.fullName)))
  {
  }

  /** Only whether the nib is non-empty matters, not what it says: two
      descriptions that differ only in their non-empty nib strings resolve
      to the same construction. */
  lemma NibTextIgnored(options: RouterOptions, nib1: string, nib2: string, rt: Runtime)
    requires nib1 != "" && nib2 != ""
    ensures var d := options.controllerDescription;
      ViewControllerFrom(options.(controllerDescription := d.(nib := Some(nib1))), rt)
      == ViewControllerFrom(options.(controllerDescription := d.(nib := Some(nib2))), rt)
  {
  }

  /** A description with an empty name and no storyboard, such as the one a
      callback route keeps from the default options, always fails at the
      class lookup: no class is named by the empty string. */
  lemma UnnamedDescriptionFails(options: RouterOptions, rt: Runtime)
    requires options.controllerDescription.fullName == "" && options.controllerDescription.storyboard.None?
    requires ValidRuntime(rt)
    ensures ViewControllerFrom(options, rt) == Failure(UnresolvedClass(""))
  {
  }
}
