/**
  The cell-decomposition window: keys choose what the next mouse release
  places (robot, destination or one of three boxes) and rename the window;
  a mouse release rebuilds the decomposition and then places the chosen
  item. The planner behind the window is opaque here: each call into it is
  an `Action` appended to the trace a handler returns.
 */
module DecomposeWindow {
  import opened Wrappers
  import opened Consts

  const WINDOW_TITLE: string := "Cell Decomposition"
  /** The title suffix a key handler starts from; left as is, it means "no change". */
  const SEPARATOR: string := " - "

  /** The keys the window reacts to; every other key code is `OtherKey`. */
  datatype Key = Space | Key1 | Key2 | Key3 | KeyR | KeyD | OtherKey(code: int)

  /** Calls out of the window: title changes and calls into the planner. */
  datatype Action =
    | SetWindowTitle(title: string)
    | GeneratePath
    | ClearCells
    | Decompose
    | ConnectCells
    | SetRobot(at: Position)
    | SetDest(at: Position)
    | SetBox(box: int, at: Position)

  /** The window's state: its base title, the selection mode, and the title it currently shows. */
  datatype Window = Window(windowTitle: string, selection: int, title: string)

  /** A handler's result: the new state and the calls it made, in order. */
  datatype Step = Step(window: Window, trace: seq<Action>)

  /** What a selection mode designates: the robot, the destination, or box 0, 1 or 2. */
  datatype Target = RobotMarker | Destination | Box(slot: nat)

  predicate ValidTarget(t: Target) {
    t.Box? ==> t.slot < 3
  }

  /** The selection modes the window ever holds. */
  predicate ValidSelection(s: int) {
    0 <= s <= 4
  }

  /** The integer mode that stands for a target: robot 0, destination 1, box k is k + 2. */
  function SelectionOf(t: Target): int
    requires ValidTarget(t)
  {
    match t
    case RobotMarker => 0
    case Destination => 1
    case Box(k) => k + 2
  }

  /** The target an integer mode stands for; None outside 0..4. */
  function TargetOf(s: int): (t: Option<Target>)
    ensures t.Some? <==> ValidSelection(s)
    ensures t.Some? ==> ValidTarget(t.value) && SelectionOf(t.value) == s
  {
    if s == 0 then Some(RobotMarker)
    else if s == 1 then Some(Destination)
    else if 2 <= s <= 4 then Some(Box(s - 2))
    else None
  }

  lemma TargetRoundTrip(t: Target)
    requires ValidTarget(t)
    ensures TargetOf(SelectionOf(t)) == Some(t)
  {
  }

  /** The word the title shows for a target. */
  function Label(t: Target): string
    requires ValidTarget(t)
  {
    match t
    case RobotMarker => "Robot"
    case Destination => "Dest"
    case Box(k) => "Box " + ["012"[k]]
  }

  /** The key bindings as a table: which target each selection key chooses. */
  function Binding(key: Key): Option<Target> {
    match key
    case Key1 => Some(Box(0))
    case Key2 => Some(Box(1))
    case Key3 => Some(Box(2))
    case KeyR => Some(RobotMarker)
    case KeyD => Some(Destination)
    case _ => None
  }

  predicate IsPathRequest(a: Action) {
    a.GeneratePath?
  }

  predicate IsPlacement(a: Action) {
    a.SetRobot? || a.SetDest? || a.SetBox?
  }

  predicate IsDecompose(a: Action) {
    a.Decompose?
  }

  /** How many actions of the trace satisfy p. */
  function Count(trace: seq<Action>, p: Action -> bool): nat {
    if |trace| == 0 then 0
    else (if p(trace[0]) then 1 else 0) + Count(trace[1..], p)
  }

  lemma {:induction false} CountAppend(a: seq<Action>, b: seq<Action>, p: Action -> bool)
    ensures Count(a + b, p) == Count(a, p) + Count(b, p)
    decreases |a|
  {
    if |a| == 0 {
      assert a + b == b;
    } else {
      assert (a + b)[1..] == a[1..] + b;
      CountAppend(a[1..], b, p);
    }
  }

  lemma CountSingle(a: Action, p: Action -> bool)
    ensures Count([a], p) == if p(a) then 1 else 0
  {
    assert [a][1..] == [];
  }

  /** The title on screen after the trace: the last title set, or the old one if none was set. */
  function ShownTitle(title: string, trace: seq<Action>): string {
    if |trace| == 0 then title
    else if trace[|trace| - 1].SetWindowTitle? then trace[|trace| - 1].title
    else ShownTitle(title, trace[..|trace| - 1])
  }

  /** The constructor: robot selected, title names it. */
  function Init(): (w: Window)
    ensures w.windowTitle == WINDOW_TITLE
    ensures TargetOf(w.selection) == Some(RobotMarker)
    ensures w.title == w.windowTitle + SEPARATOR + Label(RobotMarker)
  {
    Window(WINDOW_TITLE, 0, WINDOW_TITLE + " - Robot")
  }

  /** `pathCalculated()`: announce the finished path in the title. */
  function PathCalculated(w: Window): (trace: seq<Action>)
    ensures forall t :: ShownTitle(t, trace) == w.windowTitle + " - Path Calculated!"
    ensures Count(trace, IsPathRequest) == 0 && Count(trace, IsPlacement) == 0
  {
    [SetWindowTitle(w.windowTitle + " - Path Calculated!")]
  }

  /**
    `keyPressEvent`: Space asks the planner for a path; the selection keys
    set the mode. The title is rewritten from the accumulated suffix unless
    no key appended to it.
   */
  function KeyPress(w: Window, key: Key): (r: Step)
    ensures r.window.windowTitle == w.windowTitle
    ensures ValidSelection(w.selection) ==> ValidSelection(r.window.selection)
    ensures Binding(key).Some? ==>
              && r.window.selection == SelectionOf(Binding(key).value)
              && r.window.title == w.windowTitle + SEPARATOR + Label(Binding(key).value)
              && r.trace == [SetWindowTitle(r.window.title)]
    ensures Binding(key).None? ==> r.window.selection == w.selection
    ensures key.OtherKey? ==> r == Step(w, [])
  {
    var wt := w.windowTitle;
    var planning :=
      if key == Space then [SetWindowTitle(wt + SEPARATOR + "Calculating Path..."), GeneratePath] + PathCalculated(w)
      else [];
    var (selection, suffix) :=
      match key
      case Space => (w.selection, SEPARATOR + "Calculating Path...")
      case Key1 => (2, SEPARATOR + "Box 0")
      case Key2 => (3, SEPARATOR + "Box 1")
      case Key3 => (4, SEPARATOR + "Box 2")
      case KeyR => (0, SEPARATOR + "Robot")
      case KeyD => (1, SEPARATOR + "Dest")
      case OtherKey(_) => (w.selection, SEPARATOR);
    var trace := if suffix == SEPARATOR then planning else planning + [SetWindowTitle(wt + suffix)];
    Step(Window(wt, selection, ShownTitle(w.title, trace)), trace)
  }

  /**
    Space: the planner is asked exactly once and "Path Calculated!" is shown,
    but the final title rewrite puts "Calculating Path..." back, so that is
    what the window ends up showing.
   */
  lemma SpaceOverwritesPathCalculated(w: Window)
    ensures var r := KeyPress(w, Space);
      && r.window.selection == w.selection
      && r.trace == [ SetWindowTitle(w.windowTitle + " - Calculating Path..."), GeneratePath,
                      SetWindowTitle(w.windowTitle + " - Path Calculated!"),
                      SetWindowTitle(w.windowTitle + " - Calculating Path...") ]
      && r.window.title == w.windowTitle + " - Calculating Path..."
      && r.window.title != w.windowTitle + " - Path Calculated!"
  {
    var wt := w.windowTitle;
    assert SEPARATOR + "Calculating Path..." == " - Calculating Path...";
    assert wt + SEPARATOR + "Calculating Path..." == wt + (SEPARATOR + "Calculating Path...");
    var calculating := wt + " - Calculating Path...";
    var calculated := wt + " - Path Calculated!";
    assert calculating[|w.windowTitle| + 3] == 'C' && calculated[|w.windowTitle| + 3] == 'P';
  }

  /** A key press asks for a path exactly when the key is Space, and never decomposes or places anything. */
  lemma {:induction false} KeyPressCounts(w: Window, key: Key)
    ensures var r := KeyPress(w, key);
      && Count(r.trace, IsPathRequest) == (if key == Space then 1 else 0)
      && Count(r.trace, IsPlacement) == 0
      && Count(r.trace, IsDecompose) == 0
  {
    var r := KeyPress(w, key);
    if key == Space {
      SpaceOverwritesPathCalculated(w);
      var t := r.trace;
      assert t == [t[0]] + ([t[1]] + ([t[2]] + [t[3]]));
      forall p: Action -> bool
        ensures Count(t, p) == Count([t[0]], p) + Count([t[1]], p) + Count([t[2]], p) + Count([t[3]], p)
      {
        CountAppend([t[2]], [t[3]], p);
        CountAppend([t[1]], [t[2]] + [t[3]], p);
        CountAppend([t[0]], [t[1]] + ([t[2]] + [t[3]]), p);
      }
      CountSingle(t[0], IsPathRequest); CountSingle(t[1], IsPathRequest);
      CountSingle(t[2], IsPathRequest); CountSingle(t[3], IsPathRequest);
      CountSingle(t[0], IsDecompose); CountSingle(t[1], IsDecompose);
      CountSingle(t[2], IsDecompose); CountSingle(t[3], IsDecompose);
      CountSingle(t[0], IsPlacement); CountSingle(t[1], IsPlacement);
      CountSingle(t[2], IsPlacement); CountSingle(t[3], IsPlacement);
    }
  }

  /** Pressing R in the initial window changes nothing on screen: the initial title is the robot's. */
  lemma InitIsRobotSelected()
    ensures KeyPress(Init(), KeyR).window == Init()
  {
  }

  /** The call `manager->setRobot/setDest/setBox` that places a target at a point. */
  function Place(t: Target, at: Position): (a: Action)
    requires ValidTarget(t)
    ensures IsPlacement(a) && a.at == at
    ensures a.SetRobot? <==> t == RobotMarker
    ensures a.SetDest? <==> t == Destination
    ensures a.SetBox? <==> t.Box?
    ensures a.SetBox? ==> a.box == t.slot
  {
    match t
    case RobotMarker => SetRobot(at)
    case Destination => SetDest(at)
    case Box(k) => SetBox(k, at)
  }

  /** The planner calls every mouse release starts with. */
  const Rebuild: seq<Action> := [ClearCells, Decompose, ConnectCells]

  /**
    `mouseReleaseEvent`: clear, decompose and connect the cells, then place
    the selected item at the click. A mode outside 0..4 places nothing.
   */
  function MouseRelease(w: Window, x: int, y: int): (r: Step)
    ensures r.window == w
    ensures |r.trace| >= 3 && r.trace[..3] == Rebuild
    ensures r.trace[3..] == match TargetOf(w.selection)
                            case None => []
                            case Some(t) => [Place(t, MakePosition(x, y))]
  {
    var at := MakePosition(x, y);
    var placement :=
      match w.selection
      case 0 => [SetRobot(at)]
      case 1 => [SetDest(at)]
      case 2 => [SetBox(0, at)]
      case 3 => [SetBox(1, at)]
      case 4 => [SetBox(2, at)]
      case _ => [];
    Step(w, Rebuild + placement)
  }

  /**
    Choosing a target with its key and then clicking rebuilds the cells and
    places exactly that target at the click point.
   */
  lemma KeyThenClick(w: Window, key: Key, x: int, y: int)
    requires Binding(key).Some?
    ensures MouseRelease(KeyPress(w, key).window, x, y).trace == Rebuild + [Place(Binding(key).value, MakePosition(x, y))]
  {
  }

  /** A mouse release in a valid mode decomposes once and places exactly one item, after the decomposition. */
  lemma {:induction false} MouseReleaseCounts(w: Window, x: int, y: int)
    ensures var r := MouseRelease(w, x, y);
      && Count(r.trace, IsDecompose) == 1
      && Count(r.trace, IsPlacement) == (if ValidSelection(w.selection) then 1 else 0)
      && Count(r.trace, IsPathRequest) == 0
  {
    var r := MouseRelease(w, x, y);
    assert r.trace == Rebuild + r.trace[3..];
    CountAppend(Rebuild, r.trace[3..], IsDecompose);
    CountAppend(Rebuild, r.trace[3..], IsPlacement);
    CountAppend(Rebuild, r.trace[3..], IsPathRequest);
  }

  /** Input events: key presses, key releases (ignored by this window) and mouse releases. */
  datatype Event = Press(key: Key) | Release(key: Key) | Click(x: int, y: int)

  function Handle(w: Window, e: Event): Step {
    match e
    case Press(k) => KeyPress(w, k)
    case Release(_) => Step(w, [])
    case Click(x, y) => MouseRelease(w, x, y)
  }

  /** Handles the events in order, concatenating their traces. */
  function Run(w: Window, events: seq<Event>): Step
    decreases |events|
  {
    if |events| == 0 then Step(w, [])
    else
      var first := Handle(w, events[0]);
      var rest := Run(first.window, events[1..]);
      Step(rest.window, first.trace + rest.trace)
  }

  predicate IsClick(e: Event) {
    e.Click?
  }

  predicate IsSpace(e: Event) {
    e == Press(Space)
  }

  /** How many events of the sequence satisfy p. */
  function CountEvents(events: seq<Event>, p: Event -> bool): nat {
    if |events| == 0 then 0
    else (if p(events[0]) then 1 else 0) + CountEvents(events[1..], p)
  }

  /** No sequence of events takes the selection out of 0..4, and the base title never changes. */
  lemma {:induction false} RunKeepsSelectionValid(w: Window, events: seq<Event>)
    requires ValidSelection(w.selection)
    ensures ValidSelection(Run(w, events).window.selection)
    ensures Run(w, events).window.windowTitle == w.windowTitle
    decreases |events|
  {
    if |events| > 0 {
      var first := Handle(w, events[0]);
      RunKeepsSelectionValid(first.window, events[1..]);
    }
  }

  /**
    From a valid mode, every mouse release decomposes once and places exactly
    one item, and every Space asks for exactly one path: nothing else calls
    the planner for these.
   */
  lemma {:induction false} RunCounts(w: Window, events: seq<Event>)
    requires ValidSelection(w.selection)
    ensures Count(Run(w, events).trace, IsPlacement) == CountEvents(events, IsClick)
    ensures Count(Run(w, events).trace, IsDecompose) == CountEvents(events, IsClick)
    ensures Count(Run(w, events).trace, IsPathRequest) == CountEvents(events, IsSpace)
    decreases |events|
  {
    if |events| > 0 {
      var first := Handle(w, events[0]);
      var rest := Run(first.window, events[1..]);
      match events[0] {
        case Press(k) => KeyPressCounts(w, k);
        case Release(_) =>
        case Click(x, y) => MouseReleaseCounts(w, x, y);
      }
      RunCounts(first.window, events[1..]);
      CountAppend(first.trace, rest.trace, IsPlacement);
      CountAppend(first.trace, rest.trace, IsDecompose);
      CountAppend(first.trace, rest.trace, IsPathRequest);
    }
  }

  /** Starting from the constructed window, the mode stays in 0..4 and each click places exactly one item. */
  lemma FromInit(events: seq<Event>)
    ensures ValidSelection(Run(Init(), events).window.selection)
    ensures Count(Run(Init(), events).trace, IsPlacement) == CountEvents(events, IsClick)
  {
    RunKeepsSelectionValid(Init(), events);
    RunCounts(Init(), events);
  }
}
