# LunaRouter, modelled in Dafny

LunaRouter is a small screen router for iOS applications. Callers `map` a
string url either to a callback or to a view controller described by its
dotted class name ("AppName.ScreenName"), optionally with a storyboard, a nib,
a bundle, default parameters and an `OpenStyle`. Later `open(url:extraParams:)`
looks the url up, merges parameters, builds the view controller, finds the
screen currently in front, and surfaces the new screen: it replaces the
navigation stack (`AsRoot`), presents it modally (`Modal`), presents it with a
custom transition delegate (`CustomPresentation`, `CustomTransition`), or
shows it (`Show`, the default), optionally wrapped in a fresh navigation
controller.

The model has one module per part of `Sources/LunaRouter/LunaRouter.swift`:

- `Wrappers` — `Option` and `Result`.
- `Names` — Swift's `split(separator: ".")` (drops empty pieces) and
  `components(separatedBy: ".")` (keeps them), with the round trip between
  cutting at dots and joining with dots.
- `Descriptor` — `ViewControllerDescription` and its `packageName` / `name`
  views, and the nib name the router actually uses.
- `Options` — `OpenStyle`, `RouterOptions` and its defaults, the route table
  write that both `map` overloads perform, and the parameter merge.
- `Resolver` — the choice between storyboard, nib and plain construction.
  The Objective-C runtime and UIKit loading are data (`Runtime`); the source's
  crash on an unknown class (the force-unwrapped `NSClassFromString`) and on a
  missing storyboard scene is a `Failure`.
- `Hierarchy` — `mainWindow` and `currentViewController`. Screens form a tree
  (`Screen`): a navigation controller exposes its visible screen, a tab bar
  controller its selected branch, and any screen may present another. The
  windows and the app delegate's window, global state in the source, are
  parameters.
- `Presentation` — the screens the router builds (`ViewController`),
  `initialize`, `alongWithNavigationController`, and the `switch` on
  `OpenStyle` as a function from options, screen and front screen to an
  `Action`.
- `LunaRouter` — the `Router` class with its `routerTable` and
  `navigationController` fields, the two `map` methods and `open`, specified
  by `OpenSpec`; only `AsRoot` changes the navigation controller's stack.

Facts of the code the model keeps:

- `open` never calls a route's `callback`. A route mapped with
  `map(url:toCallback:)` and default options has an empty `fullName`, so
  `open` reaches the class lookup of the empty name, which fails
  (`CallbackRouteNeverCalledBack`); in the source this is a crash.
- `openCompletion` is handed only to `present` (`Modal`, `Custom*`), never to
  `AsRoot` or `Show`.
- The nib loaded is named by the last dot piece of `fullName`
  (`components(separatedBy:).last`), while `name` is the second non-empty
  piece; for "App.Home.Detail" they differ. The text of `nib` itself is never
  used: only whether it is non-empty.
- `map` does not make callback routes and screen routes exclusive: each
  overload sets its own field and keeps whatever else the given options hold.
- `mainWindow` returns the only window whatever its level, and returns nil
  when there are several windows and none is at the normal level.
- `Show` calls `show(_:sender:)` on the front screen; whether that pushes is
  UIKit's decision and not modelled.

## Model

| member | source | states |
|---|---|---|
| `Names.Components` | Sources/LunaRouter/LunaRouter.swift:162 | `components(separatedBy: ".")` yields at least one piece and no piece contains a dot |
| `Names.JoinComponents` | Sources/LunaRouter/LunaRouter.swift:162 | joining the pieces with dots gives back the original name |
| `Names.ComponentsJoin` | Sources/LunaRouter/LunaRouter.swift:162 | cutting a dot-join of dot-free pieces gives back exactly those pieces |
| `Names.JoinLast` | Sources/LunaRouter/LunaRouter.swift:162 | a joined name is the join of all but the last piece, a dot, then the last piece |
| `Names.LastComponent` | Sources/LunaRouter/LunaRouter.swift:162 | the last piece is dot-free, ends the name, and is preceded by a dot when shorter than the name |
| `Names.NonEmpty` | Sources/LunaRouter/LunaRouter.swift:12 | dropping empty pieces keeps exactly the non-empty pieces of the input, each of them and only them |
| `Names.NonEmptySingle` | Sources/LunaRouter/LunaRouter.swift:12 | a single piece is kept exactly when it is not empty |
| `Names.NonEmptyAppend` | Sources/LunaRouter/LunaRouter.swift:12 | filtering a concatenation is the concatenation of the filtered parts, so order is kept |
| `Names.Split` | Sources/LunaRouter/LunaRouter.swift:20 | `split(separator: ".")` yields only non-empty, dot-free pieces |
| `Names.SplitJoin` | Sources/LunaRouter/LunaRouter.swift:12 | `split` of a dot-join of dot-free pieces is exactly the non-empty pieces, in order |
| `Names.SplitEmptyIff` | Sources/LunaRouter/LunaRouter.swift:12-16 | `split` yields nothing exactly when the name consists of dots only |
| `Names.ComponentsOfWord` | Sources/LunaRouter/LunaRouter.swift:162 | a dot-free name is its own single component |
| `Names.ComponentsAfterWord` | Sources/LunaRouter/LunaRouter.swift:162 | a dot after a dot-free prefix ends the first component there |
| `Descriptor.PackageName` | Sources/LunaRouter/LunaRouter.swift:11-18 | `packageName` is absent exactly for all-dot names, and otherwise a non-empty dot-free piece |
| `Descriptor.Name` | Sources/LunaRouter/LunaRouter.swift:19-26 | `name`, when present, is a non-empty dot-free piece and `packageName` is present too |
| `Descriptor.NamesFromPieces` | Sources/LunaRouter/LunaRouter.swift:11-26 | for every decomposition of `fullName` into dot-free pieces: `packageName` is the first non-empty piece and nil iff there is none; `name` is present iff there are at least two non-empty pieces, and is then the second |
| `Descriptor.NibName` | Sources/LunaRouter/LunaRouter.swift:162 | the nib name is the dot-free tail of `fullName` after its last dot |
| `Descriptor.TwoPieceName` | Sources/LunaRouter/LunaRouter.swift:11-26 | for "P.S" with non-empty dot-free P and S: `packageName` is P, `name` is S and the nib name is S |
| `Descriptor.NameIsNotNibName` | Sources/LunaRouter/LunaRouter.swift:19-26 | for "App.Home.Detail" `name` is "Home" but the nib name is "Detail" |
| `Options.DefaultOptions` | Sources/LunaRouter/LunaRouter.swift:40-55 | defaults: `.Show`, wrapped in a navigation controller, no parameters, empty `fullName`, no storyboard, nib, bundle, callback or completion |
| `Options.DefaultOptionsNameNothing` | Sources/LunaRouter/LunaRouter.swift:52-54 | the default description has neither a package name nor a name |
| `Options.CallbackEntry` | Sources/LunaRouter/LunaRouter.swift:69-75 | the stored entry has the callback set and every other field as in the given (or default) options |
| `Options.ViewControllerEntry` | Sources/LunaRouter/LunaRouter.swift:77-83 | the stored entry has `fullName` set to the controller and every other field as in the given (or default) options |
| `Options.Register` | Sources/LunaRouter/LunaRouter.swift:69-83 | an empty url leaves the table as it was; otherwise the url maps to the new entry, every other key keeps its entry and no other key appears |
| `Options.RegisterLastWins` | Sources/LunaRouter/LunaRouter.swift:69-83 | mapping a url twice leaves exactly the second entry |
| `Options.QueryParams` | Sources/LunaRouter/LunaRouter.swift:140-142 | the query parser returns no keys |
| `Options.MergeParams` | Sources/LunaRouter/LunaRouter.swift:97-101 | merged keys are the union of the sources; extra beats query beats defaults on shared keys |
| `Options.MergeIgnoresQuery` | Sources/LunaRouter/LunaRouter.swift:97-101 | what `open` merges is the defaults overridden by the extra parameters, and just the defaults without extras |
| `Resolver.LoadBundle` | Sources/LunaRouter/LunaRouter.swift:144-147 | a bundle is loaded exactly when a path is given and resolves; otherwise none, without error |
| `Resolver.ViewControllerNamed` | Sources/LunaRouter/LunaRouter.swift:156-169 | a storyboard is used whenever given and succeeds iff the scene exists; otherwise the class must resolve, and nib loading (named by the last dot piece) happens only with `fromNib` |
| `Resolver.ViewControllerFrom` | Sources/LunaRouter/LunaRouter.swift:143-153 | succeeds iff the storyboard scene exists (storyboard given) or the class resolves (none given); nib loading iff no storyboard and a non-empty nib; class constructions use the full name |
| `Resolver.ResolutionChoice` | Sources/LunaRouter/LunaRouter.swift:143-169 | storyboard with the full name, else non-empty nib with the last dot piece, else plain construction (nib absent or empty); unknown class fails |
| `Resolver.NibTextIgnored` | Sources/LunaRouter/LunaRouter.swift:148-151 | two non-empty nib strings resolve to the same construction |
| `Resolver.UnnamedDescriptionFails` | Sources/LunaRouter/LunaRouter.swift:161 | an empty name without storyboard fails at the class lookup |
| `Hierarchy.Successor` | Sources/LunaRouter/LunaRouter.swift:201-210 | each descent step moves to a strictly smaller part of the screen tree |
| `Hierarchy.Frontmost` | Sources/LunaRouter/LunaRouter.swift:199-217 | the descent ends at a screen with no successor |
| `Hierarchy.FrontmostIsReachedAndFinal` | Sources/LunaRouter/LunaRouter.swift:199-217 | the descent's end is reached from the start by successor steps and has no successor |
| `Hierarchy.OnlyFrontmostIsFinal` | Sources/LunaRouter/LunaRouter.swift:199-217 | any screen reached by successor steps that has no successor is the descent's end, so the result is unique |
| `Hierarchy.ContainersIgnorePresented` | Sources/LunaRouter/LunaRouter.swift:202-210 | navigation and tab bar controllers are followed into their child whether or not they present a screen, and end the descent when childless |
| `Hierarchy.FirstNormalWindow` | Sources/LunaRouter/LunaRouter.swift:185-189 | the index found is the first window at the normal level; none is found iff no window is at the normal level |
| `Hierarchy.MainWindowChoice` | Sources/LunaRouter/LunaRouter.swift:177-192 | app delegate's window first, else the only window, else the first normal-level window, else none |
| `Hierarchy.MainWindowOf` | Sources/LunaRouter/LunaRouter.swift:177-192 | the chosen window is the delegate's or one of the windows; none only without a delegate window and with other than one window |
| `Hierarchy.ActiveScreenChoice` | Sources/LunaRouter/LunaRouter.swift:194-218 | no front screen iff no main window or no root; otherwise the unique screen reached from the root that has no successor |
| `Hierarchy.ActiveScreen` | Sources/LunaRouter/LunaRouter.swift:194-218 | a front screen has no successor and exists only when there is a main window |
| `Hierarchy.MainWindow` | Sources/LunaRouter/LunaRouter.swift:177-192 | the loop with early return computes the window `MainWindowChoice` describes |
| `Hierarchy.CurrentViewController` | Sources/LunaRouter/LunaRouter.swift:194-218 | the `while true` descent computes the front screen `ActiveScreenChoice` describes, the same on every call for the same windows |
| `Presentation.Initialize` | Sources/LunaRouter/LunaRouter.swift:171-175 | after setting every key, the screen's parameters are its old ones overridden by the given ones, nothing else changed |
| `Presentation.Styled` | Sources/LunaRouter/LunaRouter.swift:104-105 | the screen takes the given presentation and transition styles and keeps its kind, delegate, origin, parameters and wrapped stack |
| `Presentation.WithDelegate` | Sources/LunaRouter/LunaRouter.swift:115 | the screen takes the given transitioning delegate and keeps its kind, styles, origin, parameters and wrapped stack |
| `Presentation.DelegateFor` | Sources/LunaRouter/LunaRouter.swift:115 | the attached delegate carries the present, dismiss and presentation configurations of the route, each in its own role |
| `Presentation.AlongWithNavigationController` | Sources/LunaRouter/LunaRouter.swift:133-138 | the wrapper is a navigation controller holding exactly the screen and copying its presentation and transition styles |
| `Presentation.Dispatch` | Sources/LunaRouter/LunaRouter.swift:106-128 | the stack is replaced iff `.AsRoot`; nothing happens iff another style meets no front screen; `present` carries the completion and the front screen; `show` only for `.Show` |
| `Presentation.DispatchAsRoot` | Sources/LunaRouter/LunaRouter.swift:106-110 | `.AsRoot` sets the stack to exactly the screen, unwrapped |
| `Presentation.DispatchOverFrontScreen` | Sources/LunaRouter/LunaRouter.swift:111-128 | other styles act on the front screen (nothing without one); wrapped iff the flag is set; delegate iff `Custom*`; `present` with the completion iff not `.Show` |
| `Presentation.DispatchDelivers` | Sources/LunaRouter/LunaRouter.swift:102-128 | whatever is surfaced contains the configured screen with its parameters and styles |
| `LunaRouter.Configured` | Sources/LunaRouter/LunaRouter.swift:102-105 | the configured screen carries the merged parameters and the entry's styles, with no delegate |
| `LunaRouter.OpenSpec` | Sources/LunaRouter/LunaRouter.swift:92-131 | `open` performs an action iff the url is known, a navigation controller is attached and resolution succeeds; a crash comes only from a failed resolution of a known url |
| `LunaRouter.OpenIgnored` | Sources/LunaRouter/LunaRouter.swift:92-96 | `open` does nothing exactly when the url is unknown or there is no navigation controller |
| `LunaRouter.CallbackRouteNeverCalledBack` | Sources/LunaRouter/LunaRouter.swift:156-161 | opening a callback route with default options fails at the class lookup of the empty name instead of calling back |
| `LunaRouter.OpenAsRoot` | Sources/LunaRouter/LunaRouter.swift:106-110 | an `.AsRoot` route leaves a one-screen stack: the resolved screen with the merged parameters |
| `LunaRouter.OpenDeliversMergedParams` | Sources/LunaRouter/LunaRouter.swift:97-105 | any surfaced screen carries the defaults overridden by the extra parameters and the entry's presentation style |
| `LunaRouter.OpenCompletionOnlyWhenPresenting` | Sources/LunaRouter/LunaRouter.swift:111-128 | the completion travels only with a presentation, which only `.Modal` and `Custom*` produce |
| `LunaRouter.Router.constructor` | Sources/LunaRouter/LunaRouter.swift:60-63 | a router with the given identifier and navigation controller and an empty table |
| `LunaRouter.Router.Detached` | Sources/LunaRouter/LunaRouter.swift:64-66 | a router with empty identifier, no navigation controller and an empty table |
| `LunaRouter.Router.MapCallback` | Sources/LunaRouter/LunaRouter.swift:69-75 | the table becomes `Register` of the callback entry; the navigation controller is untouched |
| `LunaRouter.Router.MapViewController` | Sources/LunaRouter/LunaRouter.swift:77-83 | the table becomes `Register` of the view controller entry; the navigation controller is untouched |
| `LunaRouter.Router.Open` | Sources/LunaRouter/LunaRouter.swift:92-131 | the outcome is `OpenSpec` on the table, the attachment and the front screen; the stack changes only by `.AsRoot`, to exactly the new screen |

## Left out

- `open(external:options:completionHandler:)`: a wrapper over `UIApplication.canOpenURL` and `open`, which is I/O.
- The `animated` flag and the asynchronous timing of `openCompletion`: UIKit scheduling; the model records only which action carries the completion.
- UIKit construction (`UIStoryboard`, `NSClassFromString`, `init(nibName:bundle:)`, `init()`, `Bundle(path:)`): given as data in `Runtime`; storyboard scenes are looked up by storyboard name and identifier regardless of bundle. A crash is the `Failure` / `Crashed` value rather than an abort.
- `LunaRouter.Router.Open`: returns `Crashed` where the source crashes, and does not model `setValue(_:forKey:)` raising on a key the screen does not have.
- `Presentation.Initialize`: key-value coding is modelled as the screen's parameter map; property types and setters are not modelled.
- The effect of `present` and `show` on the live hierarchy: `open` returns the action; the window's screen tree is a value and is not updated, and the identity shared between the router's navigation controller and the screens in the windows is not captured.
- The screens the router builds are values: its writes to them (parameters, styles, delegate) build new values rather than updating an object in place.
- `ViewControllerTransitioningDelegate` and the `LunaPresentationTransition` configurations: opaque handles; the model records only which configurations the attached delegate carries.
- The `shared` singleton and the `UIApplication.shared` globals: the router is built explicitly and the windows and app delegate window are parameters.
- A navigation controller's `visibleViewController` is given as data in `Screen`; how UIKit derives it from the top of the stack and from a presented screen is not modelled.
- Swift `String` semantics: route keys, parameter keys and the dot search of `split` compare Unicode code points here, whereas Swift compares strings by canonical equivalence ("caf\u{E9}" and "cafe\u{301}" are one route) and `split(separator:)` compares grapheme clusters (".\u{301}" is no separator for `split`, though `components(separatedBy:)` cuts at its dot).
- Window levels are integers (`UIWindowLevelNormal` is 0) rather than floating point.
- Cyclic screen hierarchies, which UIKit never builds, cannot be expressed: screens form a tree.
