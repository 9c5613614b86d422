/** `mainWindow` and `currentViewController`: finding the screen that is in
    front. The window list and the app delegate's window, which the source
    reads from global UIKit state, are passed in. */
module Hierarchy {
  import opened Wrappers

  /** A live screen. A navigation controller exposes its visible screen, a
      tab bar controller its selected branch; any screen may be presenting
      another one. The tree shape rules out cycles. */
  datatype Screen = Screen(id: nat, kind: ScreenKind, presented: Option<Screen>)

  datatype ScreenKind =
    | NavigationKind(visible: Option<Screen>)
    | TabBarKind(selected: Option<Screen>)
    | ContentKind

  /** `UIWindowLevelNormal`. */
  const NormalLevel: int := 0

  datatype Window = Window(level: int, rootViewController: Option<Screen>)

  /** Height of the screen tree, a measure for the descent. */
  function Depth(s: Screen): nat
  {
    var k := match s.kind
      case NavigationKind(v) => if v.Some? then Depth(v.value) else 0
      case TabBarKind(t) => if t.Some? then Depth(t.value) else 0
      case ContentKind => 0;
    var p := if s.presented.Some? then Depth(s.presented.value) else 0;
    1 + (if k < p then p else k)
  }

  /** One step of the descent: a navigation controller's visible screen, a
      tab bar controller's selected branch, and only for other screens the
      screen they present. */
  function Successor(s: Screen): (next: Option<Screen>)
    ensures next.Some? ==> Depth(next.value) < Depth(s)
  {
    match s.kind
    case NavigationKind(v) => v
    case TabBarKind(t) => t
    case ContentKind => s.presented
  }

  /** Where the descent from `s` stops: a screen with no successor. */
  function Frontmost(s: Screen): (f: Screen)
    ensures Successor(f) == None
    decreases Depth(s)
  {
    match Successor(s)
    case None => s
    case Some(next) => Frontmost(next)
  }

  /** Number of steps the descent from `s` takes. */
  function Steps(s: Screen): nat
    decreases Depth(s)
  {
    match Successor(s)
    case None => 0
    case Some(next) => 1 + Steps(next)
  }

  /** The screen `k` successor steps below `s`, if the chain is that long. */
  function Walk(s: Screen, k: nat): Option<Screen>
    decreases k
  {
    if k == 0 then Some(s)
    else match Successor(s)
      case None => None
      case Some(next) => Walk(next, k - 1)
  }

  /** The front screen is reached from `s` by successor steps and has no
      successor itself. */
  lemma {:induction false} FrontmostIsReachedAndFinal(s: Screen)
    ensures Walk(s, Steps(s)) == Some(Frontmost(s))
    ensures Successor(Frontmost(s)) == None
    decreases Depth(s)
  {
    match Successor(s)
    case None =>
    case Some(next) => FrontmostIsReachedAndFinal(next);
  }

  /** Conversely, any screen reached from `s` that has no successor is the
      front screen, reached after exactly `Steps(s)` steps. */
  lemma {:induction false} OnlyFrontmostIsFinal(s: Screen, k: nat, t: Screen)
    requires Walk(s, k) == Some(t) && Successor(t) == None
    ensures t == Frontmost(s) && k == Steps(s)
    decreases k
  {
    if k > 0 {
      OnlyFrontmostIsFinal(Successor(s).value, k - 1, t);
    }
  }

  /** Containers take precedence over presentation: a navigation or tab
      bar controller is followed into its child whether or not it presents a
      screen, and one without a child is itself the front screen even when it
      presents one. */
  lemma ContainersIgnorePresented(s: Screen)
    requires !s.kind.ContentKind?
    ensures Successor(s) == Successor(s.(presented := None))
    ensures Successor(s) == None ==> Frontmost(s) == s
    ensures Successor(s).Some? ==> Frontmost(s) == Frontmost(Successor(s).value)
  {
  }

  /** The index of the first window at the normal level. */
  function FirstNormalWindow(windows: seq<Window>): (i: Option<nat>)
    ensures i.None? <==> forall j :: 0 <= j < |windows| ==> windows[j].level != NormalLevel
    ensures i.Some? ==> i.value < |windows| && windows[i.value].level == NormalLevel
    ensures i.Some? ==> forall j :: 0 <= j < i.value ==> windows[j].level != NormalLevel
  {
    if windows == [] then None
    else if windows[0].level == NormalLevel then Some(0)
    else
      var rest := FirstNormalWindow(windows[1..]);
      if rest.Some? then Some(rest.value + 1) else None
  }

  /** The window `mainWindow` picks: the app delegate's, else the only
      window, else the first one at the normal level, else none. */
  function MainWindowOf(delegateWindow: Option<Window>, windows: seq<Window>): (w: Option<Window>)
    ensures w.Some? ==> w == delegateWindow || w.value in windows
    ensures w.None? ==> delegateWindow.None? && |windows| != 1
  {
    if delegateWindow.Some? then delegateWindow
    else if |windows| == 1 then Some(windows[0])
    else match FirstNormalWindow(windows)
      case None => None
      case Some(i) => Some(windows[i])
  }

  /** What `mainWindow` promises, stated without the search. */
  lemma MainWindowChoice(delegateWindow: Option<Window>, windows: seq<Window>)
    ensures var w := MainWindowOf(delegateWindow, windows);
      && (delegateWindow.Some? ==> w == delegateWindow)
      && (delegateWindow.None? && |windows| == 1 ==> w == Some(windows[0]))
      && (delegateWindow.None? && |windows| != 1 ==>
            (w.None? <==> forall j :: 0 <= j < |windows| ==> windows[j].level != NormalLevel))
      && (delegateWindow.None? && |windows| != 1 && w.Some? ==>
            exists i :: 0 <= i < |windows| && w.value == windows[i] && windows[i].level == NormalLevel
              && forall j :: 0 <= j < i ==> windows[j].level != NormalLevel)
  {
  }

  /** The screen `currentViewController` returns. */
  function ActiveScreen(delegateWindow: Option<Window>, windows: seq<Window>): (r: Option<Screen>)
    ensures r.Some? ==> Successor(r.value) == None
    ensures r.Some? ==> MainWindowOf(delegateWindow, windows).Some?
  {
    match MainWindowOf(delegateWindow, windows)
    case None => None
    case Some(w) =>
      match w.rootViewController
      case None => None
      case Some(root) => Some(Frontmost(root))
  }

  /** `currentViewController` finds nothing exactly when there is no root
      screen; otherwise it finds a screen reached from the root by successor
      steps that has no successor, and that screen is unique. */
  lemma ActiveScreenChoice(delegateWindow: Option<Window>, windows: seq<Window>)
    ensures var w := MainWindowOf(delegateWindow, windows);
      var r := ActiveScreen(delegateWindow, windows);
      && (r.None? <==> w.None? || w.value.rootViewController.None?)
      && (r.Some? ==> var root := w.value.rootViewController.value;
            && Walk(root, Steps(root)) == r
            && Successor(r.value) == None
            && forall k: nat, t :: Walk(root, k) == Some(t) && Successor(t) == None ==> Some(t) == r)
  {
    var w := MainWindowOf(delegateWindow, windows);
    if w.Some? && w.value.rootViewController.Some? {
      var root := w.value.rootViewController.value;
      FrontmostIsReachedAndFinal(root);
      forall k: nat, t | Walk(root, k) == Some(t) && Successor(t) == None
        ensures Some(t) == ActiveScreen(delegateWindow, windows)
      {
        OnlyFrontmostIsFinal(root, k, t);
      }
    }
  }

  /** `mainWindow`. */
  method MainWindow(delegateWindow: Option<Window>, windows: seq<Window>) returns (w: Option<Window>)
    ensures w == MainWindowOf(delegateWindow, windows)
  {
    if delegateWindow.Some? {
      return delegateWindow;
    }
    if |windows| == 1 {
      return Some(windows[0]);
    }
    for i := 0 to |windows|
      invariant forall j :: 0 <= j < i ==> windows[j].level != NormalLevel
    {
      if windows[i].level == NormalLevel {
        return Some(windows[i]);
      }
    }
    return None;
  }

  /** `currentViewController`: descend from the main window's root until a
      screen has no successor. */
  method CurrentViewController(delegateWindow: Option<Window>, windows: seq<Window>) returns (r: Option<Screen>)
    ensures r == ActiveScreen(delegateWindow, windows)
  {
    var window := MainWindow(delegateWindow, windows);
    if window.None? || window.value.rootViewController.None? {
      return None;
    }
    var root := window.value.rootViewController.value;
    var current := root;
    while true
      invariant Frontmost(current) == Frontmost(root)
      decreases Depth(current)
    {
      var next: Option<Screen> := None;
      match current.kind {
        case NavigationKind(visible) =>
          next := visible;
        case TabBarKind(selected) =>
          next := selected;
        case ContentKind =>
          if current.presented.Some? {
            next := current.presented;
          }
      }
      assert next == Successor(current);
      if next.Some? {
        current := next.value;
      } else {
        break;
      }
    }
    return Some(current);
  }
}
