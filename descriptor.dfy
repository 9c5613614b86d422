/** `Router.ViewControllerDescription`: how a route names the screen it opens.
    `fullName` is a dotted name, conventionally "AppName.ScreenName"; the
    package and the bare name are read-only views over it. */
module Descriptor {
  import opened Wrappers
  import opened Names

  datatype ViewControllerDescription = ViewControllerDescription(
    fullName: string,
    storyboard: Option<string>,
    nib: Option<string>,
    bundle: Option<string>)

  /** `packageName`: the first non-empty dot-separated piece, absent only
      when the name has no character other than dots. */
  function PackageName(d: ViewControllerDescription): (p: Option<string>)
    ensures p.None? <==> AllDots(d.fullName)
    ensures p.Some? ==> p.value != "" && DotFree(p.value)
  {
    var names := Split(d.fullName);
    SplitEmptyIff(d.fullName);
    if |names| == 0 then None else Some(names[0])
  }

  /** `name`: the second non-empty dot-separated piece, if there is one. */
  function Name(d: ViewControllerDescription): (n: Option<string>)
    ensures n.Some? ==> n.value != "" && DotFree(n.value)
    ensures n.Some? ==> PackageName(d).Some?
  {
    var names := Split(d.fullName);
    if |names| >= 2 then Some(names[1]) else None
  }

  /** The nib a nib-backed screen is loaded from: the LAST piece of
      `components(separatedBy: ".")`, empty pieces counted. */
  function NibName(fullName: string): (w: string)
    ensures DotFree(w)
    ensures |w| <= |fullName| && fullName[|fullName| - |w|..] == w
    ensures |w| < |fullName| ==> fullName[|fullName| - |w| - 1] == Dot
  {
    LastComponent(fullName)
  }

  /** For any way of writing `fullName` as dot-free pieces joined by dots
      (leading, doubled and trailing dots give empty pieces): `packageName`
      is the first non-empty piece and is absent exactly when there is none,
      and `name` is present exactly when there are at least two non-empty
      pieces, and is then the second. */
  lemma NamesFromPieces(d: ViewControllerDescription, pieces: seq<string>)
    requires |pieces| >= 1
    requires forall i :: 0 <= i < |pieces| ==> DotFree(pieces[i])
    requires Join(pieces) == d.fullName
    ensures var kept := NonEmpty(pieces);
      && PackageName(d) == (if kept == [] then None else Some(kept[0]))
      && (Name(d).Some? <==> |kept| >= 2)
      && (Name(d).Some? ==> Name(d).value == kept[1])
  {
    SplitJoin(pieces);
  }

  /** On the conventional "Package.Screen" form the three views agree with
      the two pieces. */
  lemma TwoPieceName(package: string, screen: string, storyboard: Option<string>,
                     nib: Option<string>, bundle: Option<string>)
    requires package != "" && DotFree(package)
    requires screen != "" && DotFree(screen)
    ensures var d := ViewControllerDescription(package + [Dot] + screen, storyboard, nib, bundle);
      && PackageName(d) == Some(package)
      && Name(d) == Some(screen)
      && NibName(d.fullName) == screen
  {
    var parts := [package, screen];
    assert Join(parts) == package + [Dot] + screen;
    ComponentsJoin(parts);
    assert NonEmpty(parts[1..][1..]) == [];
    assert NonEmpty(parts[1..]) == [screen];
    assert Split(package + [Dot] + screen) == parts;
  }

  /** With three pieces `name` is the middle one while the nib is named by
      the last one: the two views are not the same. */
  lemma NameIsNotNibName()
    ensures var d := ViewControllerDescription("App.Home.Detail", None, Some("Detail"), None);
      && Name(d) == Some("Home")
      && NibName(d.fullName) == "Detail"
  {
    var parts := ["App", "Home", "Detail"];
    assert Join(parts) == "App.Home.Detail";
    ComponentsJoin(parts);
    assert NonEmpty(parts[1..][1..][1..]) == [];
  }
}
