// The pages of the installer window and the one installation it may have running.
module InstallerWorkflow {
  import opened InstallPaths
  import opened Options

  datatype Page = Welcome | OptionsPage | Installing | Complete | Recovery

  // What does not change while the window is open.
  datatype Setup = Setup(host: Host, roots: Roots)

  // What a message finds: the registered location and the file system.
  datatype World = World(registry: Option<string>, tree: Tree)

  // A request handed to the worker thread, with the selection it came from and
  // the file system it was resolved on.
  datatype Dispatch = Dispatch(
    selected: string, directory: string, registered: Option<string>, startMenu: bool, desktop: bool, tree: Tree)

  datatype Choices = Choices(startMenu: bool, desktop: bool)

  // The child controls: the path edit, the two switches, and whether there is an
  // enabled install button.
  datatype Controls = Controls(edit: Option<string>, switches: Option<Choices>, canInstall: bool)

  const NO_CONTROLS := Controls(None, None, false)

  datatype Window = Window(
    page: Page, installing: bool, renderUnavailable: bool, open: bool,
    registered: Option<string>, directory: string, selected: string, choices: Choices,
    controls: Controls, dispatched: seq<Dispatch>, finished: nat)
  {
    // captureControlState
    function Captured(): Window {
      this.(directory := if controls.edit.Some? then controls.edit.value else directory,
            choices := if controls.switches.Some? then controls.switches.value else choices)
    }

    // The choices the user sees or would see.
    function Shown(): Choices {
      if controls.switches.Some? then controls.switches.value else choices
    }
  }

  function Resolved(u: Setup, w: World, directory: string, registered: Option<string>): Verdict {
    Resolve(u.host, w.tree, directory, registered, u.roots)
  }

  // renderPage without capture: the old controls go, those of the page come.
  function Rendered(u: Setup, s: Window, w: World): Window {
    s.(controls :=
         if s.page != OptionsPage then NO_CONTROLS
         else Controls(if s.registered.Some? then None else Some(s.directory), Some(s.choices),
                       Resolved(u, w, s.directory, s.registered).ok))
  }

  // ------------------------------------------------------------------- messages

  function Continued(u: Setup, s: Window, w: World): Window {
    var directory := if w.registry.Some? then w.registry.value else s.directory;
    Rendered(u, s.(registered := w.registry, directory := directory, page := OptionsPage).Captured(), w)
  }

  function Edited(u: Setup, s: Window, w: World, text: string): Window {
    s.(directory := text,
       controls := s.controls.(edit := Some(text), canInstall := Resolved(u, w, text, s.registered).ok))
  }

  function Reviewed(u: Setup, s: Window, w: World): Window {
    var c := s.Captured();
    var directory := if c.registered.Some? then c.registered.value
                     else if c.selected != "" then c.selected
                     else c.directory;
    Rendered(u, c.(directory := directory, page := OptionsPage), w)
  }

  function Begun(u: Setup, s: Window, w: World): Window {
    var c := s.Captured().(registered := w.registry);
    if c.registered.Some? && !SamePath(u.host, c.directory, c.registered.value) then Reviewed(u, c, w)
    else
      var v := Resolved(u, w, c.directory, c.registered);
      if !v.ok then c.(controls := c.controls.(canInstall := false)) else Dispatched(u, c, w, v.path)
  }

  function Dispatched(u: Setup, c: Window, w: World, path: string): Window {
    var d := Dispatch(c.directory, path, c.registered, c.choices.startMenu, c.choices.desktop, w.tree);
    Rendered(u, c.(selected := c.directory, directory := path, page := Installing, installing := true,
                   dispatched := c.dispatched + [d]), w)
  }

  // The registered location is read twice.
  function Retried(u: Setup, s: Window, first: World, second: World): Window {
    var c := s.(registered := first.registry,
                directory := if first.registry == None && s.selected != "" then s.selected else s.directory);
    if !Resolved(u, first, c.directory, c.registered).ok then Reviewed(u, c, first) else Begun(u, c, second)
  }

  function Finished(u: Setup, s: Window, w: World, success: bool, installed: string): Window {
    var c := s.(installing := false, registered := w.registry, finished := s.finished + 1,
                directory := if success then installed else s.directory);
    if c.renderUnavailable then c.(open := false)
    else Rendered(u, c.(page := if success then Complete else Recovery).Captured(), w)
  }

  function Closing(s: Window): Window {
    if s.installing then s else s.(open := false)
  }

  datatype Event =
    | Continue(world: World)
    | Back(world: World)
    | EditPath(world: World, text: string)
    | ToggleStartMenu
    | ToggleDesktop
    | Install(world: World)
    | Retry(world: World, second: World)
    | ReviewOptions(world: World)
    | InstallFinished(world: World, success: bool, installed: string)
    | Repaint(world: World)
    | RenderingLost
    | Cancel
    | LeaveComplete

  // Whether the page has the control, or the worker the outcome, that sends it.
  predicate CanHappen(s: Window, e: Event) {
    s.open &&
    match e
    case Continue(_) => s.page == Welcome
    case Back(_) => s.page == OptionsPage
    case EditPath(_, _) => s.controls.edit.Some?
    case ToggleStartMenu => s.controls.switches.Some?
    case ToggleDesktop => s.controls.switches.Some?
    case Install(_) => s.controls.canInstall
    case Retry(_, _) => s.page == Recovery
    case ReviewOptions(_) => s.page == Recovery
    case InstallFinished(_, _, _) => s.finished < |s.dispatched|
    case LeaveComplete => s.page == Complete
    case _ => true
  }

  function Toggled(s: Window, choices: Choices): Window {
    s.(controls := s.controls.(switches := Some(choices)))
  }

  function Handle(u: Setup, s: Window, e: Event): Window
    requires CanHappen(s, e)
  {
    match e
    case Continue(w) => Continued(u, s, w)
    case Back(w) => Rendered(u, s.(page := Welcome).Captured(), w)
    case EditPath(w, text) => Edited(u, s, w, text)
    case ToggleStartMenu => Toggled(s, s.Shown().(startMenu := !s.Shown().startMenu))
    case ToggleDesktop => Toggled(s, s.Shown().(desktop := !s.Shown().desktop))
    case Install(w) => Begun(u, s, w)
    case Retry(first, second) => Retried(u, s, first, second)
    case ReviewOptions(w) => Reviewed(u, s, w)
    case InstallFinished(w, success, installed) => Finished(u, s, w, success, installed)
    case Repaint(w) => Rendered(u, s.Captured(), w)
    case RenderingLost => Closing(s.(renderUnavailable := true))
    case Cancel => Closing(s)
    case LeaveComplete => s.(open := false)
  }

  function Next(u: Setup, s: Window, e: Event): Window {
    if CanHappen(s, e) then Handle(u, s, e) else s
  }

  function Opened(u: Setup, registered: Option<string>, default: string): Window {
    Window(Welcome, false, false, true, registered, if registered.Some? then registered.value else default, "",
           Choices(true, false), NO_CONTROLS, [], 0)
  }

  function Run(u: Setup, start: Window, events: seq<Event>): Window {
    if events == [] then start else Next(u, Run(u, start, events[..|events| - 1]), events[|events| - 1])
  }

  // -------------------------------------------------------------------- invariant

  predicate OneInFlight(s: Window) {
    && |s.dispatched| == s.finished + (if s.installing then 1 else 0)
    && (s.open ==> (s.installing <==> s.page == Installing))
    && (!s.open ==> !s.installing)
  }

  predicate ControlsOfPage(s: Window) {
    && (s.controls.switches.Some? ==> s.page == OptionsPage)
    && (s.controls.edit.Some? || s.controls.canInstall ==> s.controls.switches.Some?)
    && (s.page == OptionsPage ==> s.controls.switches.Some?)
  }

  predicate Inv(s: Window) {
    OneInFlight(s) && ControlsOfPage(s)
  }

  lemma RenderedInv(u: Setup, s: Window, w: World)
    requires OneInFlight(s)
    ensures Inv(Rendered(u, s, w))
  {
  }

  lemma BegunInv(u: Setup, s: Window, w: World)
    requires Inv(s) && s.open && !s.installing
    ensures Inv(Begun(u, s, w))
  {
  }

  lemma ReviewedInv(u: Setup, s: Window, w: World)
    requires Inv(s) && !s.installing
    ensures Inv(Reviewed(u, s, w))
  {
    RenderedInv(u, s.Captured().(page := OptionsPage), w);
  }

  lemma RetriedInv(u: Setup, s: Window, first: World, second: World)
    requires Inv(s) && s.open && !s.installing
    ensures Inv(Retried(u, s, first, second))
  {
    var c := s.(registered := first.registry,
                directory := if first.registry == None && s.selected != "" then s.selected else s.directory);
    ReviewedInv(u, c, first);
    BegunInv(u, c, second);
  }

  lemma FinishedInv(u: Setup, s: Window, w: World, success: bool, installed: string)
    requires Inv(s) && s.finished < |s.dispatched|
    ensures Inv(Finished(u, s, w, success, installed))
  {
  }

  lemma NextInv(u: Setup, s: Window, e: Event)
    requires Inv(s)
    ensures Inv(Next(u, s, e))
  {
    if CanHappen(s, e) {
      if e.Install? {
        BegunInv(u, s, e.world);
      } else if e.Retry? {
        RetriedInv(u, s, e.world, e.second);
      } else if e.ReviewOptions? {
        ReviewedInv(u, s, e.world);
      } else if e.InstallFinished? {
        FinishedInv(u, s, e.world, e.success, e.installed);
      }
    }
  }

  // --------------------------------------------------- what is handed to the worker

  ghost predicate Sound(u: Setup, d: Dispatch) {
    && Resolve(u.host, d.tree, d.selected, d.registered, u.roots).ok
    && Resolve(u.host, d.tree, d.selected, d.registered, u.roots).path == d.directory
    && (d.registered.Some? ==> SamePath(u.host, d.selected, d.registered.value))
  }

  // The world in which a message may start the worker.
  function StartsIn(e: Event): Option<World> {
    match e
    case Install(w) => Some(w)
    case Retry(_, second) => Some(second)
    case _ => None
  }

  // A dispatch made in a world: for its registered location, on its file system.
  ghost predicate MadeIn(u: Setup, w: Option<World>, d: Dispatch) {
    w.Some? && d.registered == w.value.registry && d.tree == w.value.tree && Sound(u, d)
  }

  // A message adds at most one dispatch, which is made in the world it found,
  // carries the choices shown, and comes from the selection then remembered.
  ghost predicate AddsOne(u: Setup, s: Window, t: Window, w: Option<World>) {
    t.dispatched == s.dispatched
    || (|t.dispatched| == |s.dispatched| + 1 && t.dispatched[..|s.dispatched|] == s.dispatched
        && var d := t.dispatched[|s.dispatched|];
           MadeIn(u, w, d) && Choices(d.startMenu, d.desktop) == s.Shown() && t.selected == d.selected)
  }

  lemma BegunAddsOne(u: Setup, s: Window, w: World)
    ensures AddsOne(u, s, Begun(u, s, w), Some(w))
    ensures Begun(u, s, w).dispatched == s.dispatched ==> Begun(u, s, w).selected == s.selected
    ensures Begun(u, s, w).Shown() == s.Shown()
  {
  }

  lemma ReviewedKeeps(u: Setup, s: Window, w: World)
    ensures Reviewed(u, s, w).dispatched == s.dispatched && Reviewed(u, s, w).selected == s.selected
    ensures Reviewed(u, s, w).Shown() == s.Shown()
  {
  }

  lemma RetriedAddsOne(u: Setup, s: Window, first: World, second: World)
    ensures AddsOne(u, s, Retried(u, s, first, second), Some(second))
    ensures Retried(u, s, first, second).dispatched == s.dispatched ==>
              Retried(u, s, first, second).selected == s.selected
    ensures Retried(u, s, first, second).Shown() == s.Shown()
  {
    var c := s.(registered := first.registry,
                directory := if first.registry == None && s.selected != "" then s.selected else s.directory);
    assert c.Shown() == s.Shown();
    ReviewedKeeps(u, c, first);
    BegunAddsOne(u, c, second);
  }

  lemma NextAddsOne(u: Setup, s: Window, e: Event)
    ensures AddsOne(u, s, Next(u, s, e), StartsIn(e))
    ensures Next(u, s, e).dispatched == s.dispatched ==> Next(u, s, e).selected == s.selected
  {
    if e.Install? {
      BegunAddsOne(u, s, e.world);
    } else if e.Retry? {
      RetriedAddsOne(u, s, e.world, e.second);
    } else if e.ReviewOptions? {
      ReviewedKeeps(u, s, e.world);
    }
  }

  predicate Flips(s: Window, e: Event) {
    CanHappen(s, e) && (e.ToggleStartMenu? || e.ToggleDesktop?)
  }

  function Flipped(c: Choices, e: Event): Choices {
    Choices(if e.ToggleStartMenu? then !c.startMenu else c.startMenu,
            if e.ToggleDesktop? then !c.desktop else c.desktop)
  }

  lemma NextShows(u: Setup, s: Window, e: Event)
    ensures Next(u, s, e).Shown() == if Flips(s, e) then Flipped(s.Shown(), e) else s.Shown()
  {
    if e.Install? {
      BegunAddsOne(u, s, e.world);
    } else if e.Retry? {
      RetriedAddsOne(u, s, e.world, e.second);
    } else if e.ReviewOptions? {
      ReviewedKeeps(u, s, e.world);
    }
  }

  // ------------------------------------------------------------------- theorems

  lemma {:induction false} RunKeepsInv(u: Setup, registered: Option<string>, default: string, events: seq<Event>)
    ensures Inv(Run(u, Opened(u, registered, default), events))
  {
    if events != [] {
      RunKeepsInv(u, registered, default, events[..|events| - 1]);
      NextInv(u, Run(u, Opened(u, registered, default), events[..|events| - 1]), events[|events| - 1]);
    }
  }

  // Over every run at most one installation is under way, namely while the
  // window says so, and an open window shows it.
  lemma AtMostOneInstall(u: Setup, registered: Option<string>, default: string, events: seq<Event>)
    ensures var s := Run(u, Opened(u, registered, default), events);
            && 0 <= |s.dispatched| - s.finished <= 1
            && (s.installing <==> |s.dispatched| - s.finished == 1)
            && (s.open ==> (s.installing <==> s.page == Installing))
            && (s.installing ==> s.open)
  {
    RunKeepsInv(u, registered, default, events);
  }

  // The message a dispatch was made by.
  lemma {:induction false} DispatchedAt(u: Setup, start: Window, events: seq<Event>, i: nat) returns (j: nat)
    requires start.dispatched == [] && i < |Run(u, start, events).dispatched|
    ensures j < |events| && |Run(u, start, events[..j]).dispatched| == i
    ensures MadeIn(u, StartsIn(events[j]), Run(u, start, events).dispatched[i])
    decreases |events|
  {
    var last := |events| - 1;
    var before := events[..last];
    NextAddsOne(u, Run(u, start, before), events[last]);
    if i < |Run(u, start, before).dispatched| {
      j := DispatchedAt(u, start, before, i);
      assert before[..j] == events[..j];
      EarlierStays(Run(u, start, before).dispatched, Run(u, start, events).dispatched, i);
    } else {
      j := last;
    }
  }

  lemma EarlierStays(a: seq<Dispatch>, b: seq<Dispatch>, i: nat)
    requires i < |a| <= |b| && b[..|a|] == a
    ensures b[i] == a[i]
  {
  }

  // Every directory the worker is ever given was accepted by the resolver for
  // the selection shown, in the world the message that started it found: it
  // passes the strict check on that file system, lies outside the protected
  // roots, and is the location registered then, if there was one.
  lemma DispatchesAreAuthorized(u: Setup, registered: Option<string>, default: string, events: seq<Event>, i: nat)
    returns (j: nat, w: World)
    requires Lawful(u.host) && i < |Run(u, Opened(u, registered, default), events).dispatched|
    ensures j < |events| && StartsIn(events[j]) == Some(w)
    ensures |Run(u, Opened(u, registered, default), events[..j]).dispatched| == i
    ensures var d := Run(u, Opened(u, registered, default), events).dispatched[i];
            var checked := ValidateDirectory(u.host, w.tree, d.directory, w.registry, u.roots);
            && checked.ok && checked.path == d.directory
            && (forall k :: 0 <= k < |u.roots| ==> !Covers(u.host, u.roots[k], d.directory))
            && d.registered == w.registry
            && (w.registry.Some? ==>
                  SamePath(u.host, d.selected, w.registry.value)
                  && Normalize(u.host, w.registry.value).Normal?
                  && SamePath(u.host, d.directory, Normalize(u.host, w.registry.value).path))
  {
    j := DispatchedAt(u, Opened(u, registered, default), events, i);
    w := StartsIn(events[j]).value;
    var d := Run(u, Opened(u, registered, default), events).dispatched[i];
    SoundIsAuthorized(u, d);
  }

  lemma SoundIsAuthorized(u: Setup, d: Dispatch)
    requires Lawful(u.host) && Sound(u, d)
    ensures var checked := ValidateDirectory(u.host, d.tree, d.directory, d.registered, u.roots);
            && checked.ok && checked.path == d.directory
            && (forall k :: 0 <= k < |u.roots| ==> !Covers(u.host, u.roots[k], d.directory))
            && (d.registered.Some? ==>
                  SamePath(u.host, d.selected, d.registered.value)
                  && Normalize(u.host, d.registered.value).Normal?
                  && SamePath(u.host, d.directory, Normalize(u.host, d.registered.value).path))
  {
    ResolutionRevalidates(u.host, d.tree, d.selected, d.registered, u.roots);
    ResolutionRespectsThePolicy(u.host, d.tree, d.selected, d.registered, u.roots);
  }

  // The choices as the user set them: the switches pressed so far.
  function Wanted(u: Setup, start: Window, events: seq<Event>): Choices {
    if events == [] then Choices(true, false)
    else
      var before, last := events[..|events| - 1], events[|events| - 1];
      if Flips(Run(u, start, before), last) then Flipped(Wanted(u, start, before), last)
      else Wanted(u, start, before)
  }

  // They survive every page change, failure, review and retry, and are what
  // each installation is given.
  lemma {:induction false} ChoicesSurvive(u: Setup, registered: Option<string>, default: string, events: seq<Event>)
    ensures Run(u, Opened(u, registered, default), events).Shown() == Wanted(u, Opened(u, registered, default), events)
  {
    if events != [] {
      ChoicesSurvive(u, registered, default, events[..|events| - 1]);
      NextShows(u, Run(u, Opened(u, registered, default), events[..|events| - 1]), events[|events| - 1]);
    }
  }

  lemma DispatchCarriesTheChoices(u: Setup, registered: Option<string>, default: string, events: seq<Event>, e: Event)
    ensures var start := Opened(u, registered, default);
            var s, t := Run(u, start, events), Run(u, start, events + [e]);
            t.dispatched == s.dispatched
            || (|t.dispatched| == |s.dispatched| + 1
                && var d := t.dispatched[|s.dispatched|];
                   Choices(d.startMenu, d.desktop) == Wanted(u, start, events))
  {
    assert (events + [e])[..|events|] == events;
    ChoicesSurvive(u, registered, default, events);
    NextAddsOne(u, Run(u, Opened(u, registered, default), events), e);
  }

  function LastSelected(s: Window): string {
    if s.dispatched == [] then "" else s.dispatched[|s.dispatched| - 1].selected
  }

  // The selection of the last dispatch is remembered.
  predicate Remembers(s: Window) {
    s.selected == LastSelected(s) && (s.dispatched != [] ==> s.selected != "")
  }

  lemma {:induction false} RunRemembers(u: Setup, start: Window, events: seq<Event>)
    requires start.dispatched == [] && start.selected == ""
    ensures Remembers(Run(u, start, events))
  {
    if events != [] {
      var before, last := events[..|events| - 1], events[|events| - 1];
      RunRemembers(u, start, before);
      NextAddsOne(u, Run(u, start, before), last);
      RememberMore(u, Run(u, start, before), Run(u, start, events), StartsIn(last));
    }
  }

  lemma RememberMore(u: Setup, s: Window, t: Window, w: Option<World>)
    requires Remembers(s) && AddsOne(u, s, t, w) && (t.dispatched == s.dispatched ==> t.selected == s.selected)
    ensures Remembers(t)
  {
    if t.dispatched != s.dispatched {
      SoundIsNotEmpty(u, t.dispatched[|s.dispatched|]);
    }
  }

  lemma SoundIsNotEmpty(u: Setup, d: Dispatch)
    requires Sound(u, d)
    ensures d.selected != ""
  {
  }

  // After a failure that left nothing registered, going back to the options
  // offers the folder selected before, and a retry starts from it again.
  lemma FailureKeepsTheSelection(u: Setup, registered: Option<string>, default: string, events: seq<Event>,
                                 w: World, next: World, installed: string)
    requires var s := Run(u, Opened(u, registered, default), events); s.installing && !s.renderUnavailable
    requires w.registry == None && next.registry == None
    ensures var s := Run(u, Opened(u, registered, default), events);
            var failed := Finished(u, s, w, false, installed);
            && failed.page == Recovery
            && Reviewed(u, failed, next).controls.edit == Some(LastSelected(s))
            && (Resolved(u, next, LastSelected(s), None).ok ==>
                  var again := Retried(u, failed, next, next);
                  again.page == Installing && |again.dispatched| == |s.dispatched| + 1
                  && LastSelected(again) == LastSelected(s))
  {
    var s := Run(u, Opened(u, registered, default), events);
    RunRemembers(u, Opened(u, registered, default), events);
    RunKeepsInv(u, registered, default, events);
    var failed := Finished(u, s, w, false, installed);
    assert failed.dispatched == s.dispatched && failed.selected == s.selected && failed.controls == NO_CONTROLS;
    if Resolved(u, next, s.selected, None).ok {
      RetryStarts(u, failed, next);
    }
  }

  lemma RetryStarts(u: Setup, s: Window, w: World)
    requires s.controls == NO_CONTROLS && s.selected != "" && w.registry == None
    requires Resolved(u, w, s.selected, None).ok
    ensures var again := Retried(u, s, w, w);
            again.page == Installing && |again.dispatched| == |s.dispatched| + 1 && LastSelected(again) == s.selected
  {
  }

  // ------------------------------------------------------ what each message does

  // The folder the user sees on the options page.
  function Seen(s: Window): string {
    if s.controls.edit.Some? then s.controls.edit.value else s.directory
  }

  // The options page shows a folder, to be edited unless one is registered, the
  // choices, and a button that is enabled exactly if the folder can be used.
  predicate ShowsOptions(u: Setup, t: Window, w: World, directory: string, choices: Choices) {
    && t.page == OptionsPage && t.open
    && t.controls.edit == (if t.registered.Some? then None else Some(directory))
    && t.controls.switches == Some(choices)
    && t.controls.canInstall == Resolve(u.host, w.tree, directory, t.registered, u.roots).ok
    && Seen(t) == directory
  }

  // From the first page on the registered folder is shown, or else the one of
  // before; what is typed is judged at once; and a repaint changes nothing of it.
  lemma OptionsAreShown(u: Setup, registered: Option<string>, default: string, events: seq<Event>, e: Event)
    requires CanHappen(Run(u, Opened(u, registered, default), events), e)
    ensures var s := Run(u, Opened(u, registered, default), events);
            var t := Next(u, s, e);
            match e
            case Continue(w) =>
              t.registered == w.registry
              && ShowsOptions(u, t, w, if w.registry.Some? then w.registry.value else s.directory, s.choices)
            case EditPath(w, text) =>
              && t.page == OptionsPage && t.registered == s.registered && t.dispatched == s.dispatched
              && t.controls.edit == Some(text) && t.controls.switches == s.controls.switches
              && t.controls.canInstall == Resolve(u.host, w.tree, text, s.registered, u.roots).ok
            case Repaint(w) =>
              t.page == s.page && t.dispatched == s.dispatched
              && (s.page == OptionsPage ==> ShowsOptions(u, t, w, Seen(s), s.Shown()))
            case Back(w) =>
              t.page == Welcome && t.open && t.directory == Seen(s) && t.controls == NO_CONTROLS
            case ReviewOptions(w) =>
              ShowsOptions(u, t, w, if s.registered.Some? then s.registered.value
                                    else if s.selected != "" then s.selected else s.directory, s.choices)
            case _ => true
  {
    RunKeepsInv(u, registered, default, events);
  }

  // Which messages each page lets come: its own buttons and controls, the outcome
  // while it installs, and everywhere repainting, closing and the loss of rendering.
  lemma MessagesOfThePage(u: Setup, registered: Option<string>, default: string, events: seq<Event>, e: Event)
    requires Run(u, Opened(u, registered, default), events).open
    ensures var s := Run(u, Opened(u, registered, default), events);
            var page := match e
              case Continue(_) => s.page == Welcome
              case Back(_) => s.page == OptionsPage
              case EditPath(_, _) => s.page == OptionsPage && s.controls.edit.Some?
              case ToggleStartMenu => s.page == OptionsPage
              case ToggleDesktop => s.page == OptionsPage
              case Install(_) => s.page == OptionsPage && s.controls.canInstall
              case Retry(_, _) => s.page == Recovery
              case ReviewOptions(_) => s.page == Recovery
              case InstallFinished(_, _, _) => s.page == Installing && s.installing
              case LeaveComplete => s.page == Complete
              case Repaint(_) => true
              case RenderingLost => true
              case Cancel => true;
            CanHappen(s, e) <==> page
  {
    RunKeepsInv(u, registered, default, events);
  }

  // What pressing the button comes to: the options again, if meanwhile another
  // folder is registered; the installation into what the folder shown resolves to,
  // with the choices shown; or the same page with the button disabled.
  ghost predicate StartsFrom(u: Setup, s: Window, t: Window, w: World, folder: string) {
    if w.registry.Some? && !SamePath(u.host, folder, w.registry.value) then
      && t.dispatched == s.dispatched && !t.installing && t.registered == w.registry
      && ShowsOptions(u, t, w, w.registry.value, s.Shown())
    else
      var v := Resolve(u.host, w.tree, folder, w.registry, u.roots);
      if v.ok then
        && t.page == Installing && t.installing && t.open && t.controls == NO_CONTROLS
        && t.selected == folder && t.directory == v.path && t.registered == w.registry
        && t.dispatched == s.dispatched
           + [Dispatch(folder, v.path, w.registry, s.Shown().startMenu, s.Shown().desktop, w.tree)]
      else
        && t.dispatched == s.dispatched && !t.installing && t.page == s.page && t.open
        && t.controls == s.controls.(canInstall := false)
  }

  lemma InstallTakesEffect(u: Setup, registered: Option<string>, default: string, events: seq<Event>, w: World)
    requires CanHappen(Run(u, Opened(u, registered, default), events), Install(w))
    ensures var s := Run(u, Opened(u, registered, default), events);
            StartsFrom(u, s, Next(u, s, Install(w)), w, Seen(s))
  {
    RunKeepsInv(u, registered, default, events);
  }

  // A retry starts from the registered folder as it goes, or else from the one
  // selected before, if that can be used; if not, the options are shown.
  lemma RetryTakesEffect(u: Setup, registered: Option<string>, default: string, events: seq<Event>,
                         first: World, second: World)
    requires CanHappen(Run(u, Opened(u, registered, default), events), Retry(first, second))
    ensures var s := Run(u, Opened(u, registered, default), events);
            var t := Next(u, s, Retry(first, second));
            var folder := if first.registry == None && s.selected != "" then s.selected else s.directory;
            if Resolve(u.host, first.tree, folder, first.registry, u.roots).ok then StartsFrom(u, s, t, second, folder)
            else
              && t.dispatched == s.dispatched && !t.installing && t.registered == first.registry
              && ShowsOptions(u, t, first, if first.registry.Some? then first.registry.value else folder, s.choices)
  {
    RunKeepsInv(u, registered, default, events);
    var s := Run(u, Opened(u, registered, default), events);
    RecoveryHasNoControls(s);
    if Resolve(u.host, first.tree, if first.registry == None && s.selected != "" then s.selected else s.directory,
               first.registry, u.roots).ok {
      RetriedStarts(u, s, first, second);
    }
  }

  lemma RecoveryHasNoControls(s: Window)
    requires Inv(s) && s.page == Recovery
    ensures s.controls.edit == None && s.controls.switches == None && !s.controls.canInstall
  {
  }

  lemma RetriedStarts(u: Setup, s: Window, first: World, second: World)
    requires s.controls == NO_CONTROLS && s.open && !s.installing && s.page == Recovery
    requires var folder := if first.registry == None && s.selected != "" then s.selected else s.directory;
             Resolve(u.host, first.tree, folder, first.registry, u.roots).ok
    ensures var folder := if first.registry == None && s.selected != "" then s.selected else s.directory;
            StartsFrom(u, s, Retried(u, s, first, second), second, folder)
  {
  }

  // An outcome ends the installation and is shown as what it is; a window that can
  // no longer draw closes instead.
  lemma OutcomeIsShown(u: Setup, registered: Option<string>, default: string, events: seq<Event>,
                       w: World, success: bool, installed: string)
    requires CanHappen(Run(u, Opened(u, registered, default), events), InstallFinished(w, success, installed))
    ensures var s := Run(u, Opened(u, registered, default), events);
            var t := Next(u, s, InstallFinished(w, success, installed));
            && s.installing && !t.installing && t.registered == w.registry && t.dispatched == s.dispatched
            && t.directory == (if success then installed else s.directory)
            && t.open == !s.renderUnavailable
            && (t.open ==> t.controls == NO_CONTROLS && t.page == if success then Complete else Recovery)
  {
    RunKeepsInv(u, registered, default, events);
  }

  // The window closes for these reasons only, and never while it installs, except
  // to report an outcome it cannot draw.
  lemma WhenItCloses(u: Setup, registered: Option<string>, default: string, events: seq<Event>, e: Event)
    ensures var s := Run(u, Opened(u, registered, default), events);
            var t := Next(u, s, e);
            s.open && !t.open
            <==> s.open && (((e == Cancel || e == RenderingLost) && !s.installing)
                            || (e == LeaveComplete && s.page == Complete)
                            || (e.InstallFinished? && s.installing && s.renderUnavailable))
    ensures var s := Run(u, Opened(u, registered, default), events);
            var t := Next(u, s, e);
            t.renderUnavailable == (s.renderUnavailable || (s.open && e == RenderingLost))
  {
    RunKeepsInv(u, registered, default, events);
    var s := Run(u, Opened(u, registered, default), events);
    if s.open {
      ClosingStep(u, s, e);
    }
  }

  lemma ClosingStep(u: Setup, s: Window, e: Event)
    requires Inv(s) && s.open
    ensures var t := Next(u, s, e);
            && (!t.open <==> ((e == Cancel || e == RenderingLost) && !s.installing)
                             || (e == LeaveComplete && s.page == Complete)
                             || (e.InstallFinished? && s.installing && s.renderUnavailable))
            && t.renderUnavailable == (s.renderUnavailable || e == RenderingLost)
  {
    if CanHappen(s, e) {
      match e
      case Install(w) => BegunDraws(u, s, w);
      case Retry(first, second) => RetriedDraws(u, s, first, second);
      case ReviewOptions(w) => BegunDraws(u, s, w);
      case _ =>
    }
  }

  // A window that can no longer draw stays only to report a running installation.
  lemma {:induction false} LostRenderingNeverIdles(u: Setup, registered: Option<string>, default: string,
                                                   events: seq<Event>)
    ensures var s := Run(u, Opened(u, registered, default), events);
            s.renderUnavailable && s.open ==> s.installing
  {
    if events != [] {
      var before := events[..|events| - 1];
      LostRenderingNeverIdles(u, registered, default, before);
      RunKeepsInv(u, registered, default, before);
      LostStep(u, Run(u, Opened(u, registered, default), before), events[|events| - 1]);
    }
  }

  lemma BegunDraws(u: Setup, s: Window, w: World)
    ensures Begun(u, s, w).renderUnavailable == s.renderUnavailable && Begun(u, s, w).open == s.open
    ensures Reviewed(u, s, w).renderUnavailable == s.renderUnavailable && Reviewed(u, s, w).open == s.open
  {
  }

  lemma RetriedDraws(u: Setup, s: Window, first: World, second: World)
    ensures Retried(u, s, first, second).renderUnavailable == s.renderUnavailable
    ensures Retried(u, s, first, second).open == s.open
  {
    var c := s.(registered := first.registry,
                directory := if first.registry == None && s.selected != "" then s.selected else s.directory);
    BegunDraws(u, c, first);
    BegunDraws(u, c, second);
  }

  lemma LostStep(u: Setup, s: Window, e: Event)
    requires Inv(s) && (s.renderUnavailable && s.open ==> s.installing)
    ensures var t := Next(u, s, e); t.renderUnavailable && t.open ==> t.installing
  {
    if CanHappen(s, e) {
      match e
      case Install(w) => BegunDraws(u, s, w);
      case Retry(first, second) => RetriedDraws(u, s, first, second);
      case ReviewOptions(w) => BegunDraws(u, s, w);
      case _ =>
    }
  }

  // ---------------------------------------------------------------- the object

  class InstallerWindow {
    const setup: Setup
    var page: Page
    var installing: bool
    var renderUnavailable: bool
    var open: bool
    var registeredInstall: Option<string>
    var installDirectory: string
    var selectedDirectory: string
    var choices: Choices
    var controls: Controls
    var dispatched: seq<Dispatch>
    ghost var finished: nat

    ghost function Value(): Window
      reads this
    {
      Window(page, installing, renderUnavailable, open, registeredInstall, installDirectory, selectedDirectory,
             choices, controls, dispatched, finished)
    }

    constructor (u: Setup, registered: Option<string>, default: string)
      ensures setup == u && Value() == Opened(u, registered, default)
    {
      setup := u;
      page, installing, renderUnavailable, open := Welcome, false, false, true;
      registeredInstall := registered;
      installDirectory := if registered.Some? then registered.value else default;
      selectedDirectory, choices, controls := "", Choices(true, false), NO_CONTROLS;
      dispatched, finished := [], 0;
    }

    method CaptureControlState()
      modifies `installDirectory, `choices
      ensures Value() == old(Value()).Captured()
    {
      if controls.edit.Some? {
        installDirectory := controls.edit.value;
      }
      if controls.switches.Some? {
        choices := controls.switches.value;
      }
    }

    method RenderPage(w: World, captureState: bool)
      modifies `installDirectory, `choices, `controls
      ensures Value() == Rendered(setup, if captureState then old(Value()).Captured() else old(Value()), w)
    {
      if captureState {
        CaptureControlState();
      }
      controls := NO_CONTROLS;
      if page == OptionsPage {
        var resolved := Resolved(setup, w, installDirectory, registeredInstall);
        controls := Controls(if registeredInstall.Some? then None else Some(installDirectory),
                             Some(choices), resolved.ok);
      }
    }

    method ReviewInstallOptions(w: World)
      modifies `page, `installDirectory, `choices, `controls
      ensures Value() == Reviewed(setup, old(Value()), w)
    {
      CaptureControlState();
      if registeredInstall.Some? {
        installDirectory := registeredInstall.value;
      } else if selectedDirectory != "" {
        installDirectory := selectedDirectory;
      }
      page := OptionsPage;
      RenderPage(w, false);
    }

    method BeginInstall(w: World)
      modifies this
      ensures Value() == Begun(setup, old(Value()), w)
    {
      CaptureControlState();
      registeredInstall := w.registry;
      if registeredInstall.Some? && !SamePath(setup.host, installDirectory, registeredInstall.value) {
        ReviewInstallOptions(w);
        return;
      }
      var validation := Resolved(setup, w, installDirectory, registeredInstall);
      if !validation.ok {
        controls := controls.(canInstall := false);
        return;
      }
      StartWorker(w, validation.path);
    }

    method StartWorker(w: World, path: string)
      modifies this
      ensures Value() == Dispatched(setup, old(Value()), w, path)
    {
      selectedDirectory := installDirectory;
      installDirectory := path;
      page := Installing;
      installing := true;
      RenderPage(w, false);
      dispatched := dispatched + [Dispatch(selectedDirectory, installDirectory, registeredInstall,
                                           choices.startMenu, choices.desktop, w.tree)];
    }

    method RetryInstall(first: World, second: World)
      modifies this
      ensures Value() == Retried(setup, old(Value()), first, second)
    {
      registeredInstall := first.registry;
      if registeredInstall == None && selectedDirectory != "" {
        installDirectory := selectedDirectory;
      }
      var resolved := Resolved(setup, first, installDirectory, registeredInstall);
      if !resolved.ok {
        ReviewInstallOptions(first);
        return;
      }
      BeginInstall(second);
    }

    method HandleInstallFinished(w: World, success: bool, installed: string)
      modifies this
      ensures Value() == Finished(setup, old(Value()), w, success, installed)
    {
      installing := false;
      finished := finished + 1;
      registeredInstall := w.registry;
      if !success {
        if renderUnavailable {
          open := false;
        } else {
          page := Recovery;
          RenderPage(w, true);
        }
        return;
      }
      installDirectory := installed;
      if renderUnavailable {
        open := false;
        return;
      }
      page := Complete;
      RenderPage(w, true);
    }
  }
}
