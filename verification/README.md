# Paint bot arm and cell-decomposition window — Dafny model

This project models the small, self-contained logic of two desktop
simulations: the paint bot's articulated arm and the window of the
cell-decomposition motion planner.

- **Arm chain** (`RobotArm`, `Joints`). The arm is a fixed array of
  `NUM_LINKS + 2 = 5` slots: the base, built as `Base(300)`, a prismatic link of length
  150 with range [0,300], two revolute links of lengths 100 and 75 with
  range [0,360], and the brush. Each slot points to its predecessor and
  successor. Pointers become indices into the same sequence, and a null
  pointer becomes `None`. `GetLink` is the bounds-checked lookup.
- **Motion flags** (`Motions`). The `Motion` enumerators are `bv8` values
  built by OR-ing flag bits (`LEFT = 4|CCW`, `X_DEC = X|LEFT`, …). `Decode`
  reads a value back as an enumerator, and all ten values are distinct.
- **Window state machine** (`DecomposeWindow`). Keys set an integer
  selection mode in 0..4 and a title suffix. A mouse release rebuilds the
  decomposition and then places the selected item. Each handler is a pure
  function returning the new `(selection, title)` state plus the trace of
  calls it makes. Calls into the planner (`clearCells`, `decompose`,
  `connectCells`, `generatePath`, `setRobot`, `setDest`, `setBox`) are
  opaque `Action`s. The integer mode is related to the tagged `Target`
  (robot, destination, box 0..2) by `TargetOf`/`SelectionOf`.
- **Configuration** (`Consts`). Canvas size, border buffer, box sizes and
  the `Position` record, whose default is the unset sentinel (-1,-1).

Properties proved:
- walking `next` from the base reaches the brush in four steps, and
  walking `prev` from the brush returns to the base;
- `next` and `prev` are inverse on any chain;
- `getLink` agrees with `getBase` and `getBrush` at the ends, and both
  headers' `getBrush` name the same slot;
- every event sequence keeps the selection in 0..4;
- from a valid mode, every click decomposes once and places exactly one
  item, and every Space asks for exactly one path.

One quirk of the code is proved as written. After Space, `pathCalculated()`
shows "Path Calculated!", but the final title rewrite
(decompose/window.cpp:136-144) puts " - Calculating Path..." back. The
window therefore never shows "Path Calculated!" once the handler returns
(`SpaceOverwritesPathCalculated`).

Two further points about the window:
- The window does no border-buffer or off-canvas check before it hands a
  click to the planner; the click coordinates are passed through unchanged.
- The selection is an `int` in the window state, as in the program. The
  tagged `Target` only interprets it.

## Model

| member | source | states |
|---|---|---|
| Joints.NewJoint | src/joint.cpp:4-8 | the constructed joint's type, minimum and maximum are exactly the three arguments |
| Joints.NewJointInjective | src/joint.cpp:4-8 | two joints are equal exactly when they were built from the same type, minimum and maximum |
| Joints.NewJointAcceptsInvertedRange | src/joint.cpp:4-8 | the constructor does no validation: an inverted range (max < min) is stored as given |
| Motions.Value | paintbot/robotarm.h:12-23 | every enumerator value is a non-zero flag set below 32; none holds both the CW and CCW bits; none holds both the X and Y bits |
| Motions.ValueInjective | paintbot/robotarm.h:12-23 | the ten enumerator values are pairwise distinct |
| Motions.DecodeValue | paintbot/robotarm.h:12-23 | decoding any enumerator's value yields that enumerator, so values identify motions |
| Motions.DirectionFlags | src/robotarm.h:13-14 | CW = 1 and CCW = 2 are distinct single-bit flags with no bit in common |
| Motions.LeftRightFlags | src/robotarm.h:13-16 | LEFT = 6 holds CCW but not CW; RIGHT = 5 holds CW but not CCW; they share exactly bit 4 |
| Motions.AxisFlags | paintbot/robotarm.h:17-22 | X_DEC and X_INC hold the X bit but not the Y bit; Y_DEC and Y_INC the reverse; each contains the LEFT or RIGHT flags it is built from |
| RobotArm.SetNext | src/robotarm.cpp:21-24 | assigning `next_link` of slot i sets only that successor; the slot's part and predecessor and every other slot are unchanged |
| RobotArm.NewArm | src/robotarm.cpp:11-32 | the constructed array has LENGTH slots forming a chain (base has no predecessor, brush no successor, each slot's successor is the next slot and its predecessor the previous one), with the base first, the brush last and jointed links between |
| RobotArm.GetBase | src/robotarm.h:27 | `getBase()` is the head of a chain: no predecessor, successor link 1 (GetLinkEnds shows getLink(0) returns it) |
| RobotArm.GetBrush | src/robotarm.h:28 | `getBrush()` (slot NUM_LINKS+1) is the tail of a chain: no successor, predecessor link NUM_LINKS (GetLinkEnds shows getLink(NUM_LINKS+1) returns it) |
| RobotArm.GetBrushLast | paintbot/robotarm.h:40-41 | the paint bot's `getBrush()` (slot LENGTH-1) is the tail of a chain: no successor, predecessor slot LENGTH-2; GetLinkEnds shows it is the same slot as the other header's getBrush |
| RobotArm.GetLink | src/robotarm.cpp:40-52 | the lookup yields a slot exactly when 0 <= i <= NUM_LINKS+1 (null otherwise), and then it is `links[i]` |
| RobotArm.GetLinkEnds | src/robotarm.h:27-28 | getLink(0) is getBase, getLink(NUM_LINKS+1) is getBrush, the LENGTH-1 form of getBrush names the same last slot, and -1 and NUM_LINKS+2 give null |
| RobotArm.ForwardWalk | src/robotarm.cpp:20-24 | on a chain, following `next` k times from slot i reaches slot i+k while that exists, and null past the brush |
| RobotArm.BackwardWalk | src/robotarm.cpp:13-18 | on a chain, following the predecessor k times from slot i reaches slot i-k while that exists, and null before the base |
| RobotArm.ChainInverse | src/robotarm.cpp:14-24 | on a chain, slot j is the successor of slot i exactly when slot i is the predecessor of slot j |
| RobotArm.NewArmWalks | src/robotarm.cpp:14-31 | the constructed arm runs base -> link1 -> link2 -> link3 -> brush, one more step gives null, and the predecessors lead back from brush to base |
| RobotArm.NewArmJoints | src/robotarm.cpp:15-17 | link 1 is prismatic over [0,300]; links 2 and 3 are revolute over [0,360] |
| RobotArm.NewArmLengths | src/robotarm.cpp:14-17 | the base is built as `Base(300)` and the link lengths 150, 100, 75 strictly decrease along the chain |
| RobotArm.ArmConstants | paintbot/robotarm.h:27-33 | NUM_LINKS = 3 gives LENGTH = 5 slots; OFFSET_X = 640/2-150 = 170 and OFFSET_Y = 480-50 = 430 |
| Consts.MakePosition | decompose/consts.h:26-29 | getX and getY of a constructed position return exactly the coordinates it was built from |
| Consts.DefaultIsUnset | decompose/consts.h:26-32 | a default-constructed position, and so a default Robot, is the (-1,-1) sentinel |
| Consts.PositionRoundTrip | decompose/consts.h:26-29 | rebuilding a position from its getters gives back the same position |
| Consts.BoxSizesDecrease | decompose/consts.h:19-21 | the box sizes 200 > 150 > 100 strictly decrease and are positive |
| Consts.BoxesFitInterior | decompose/consts.h:9-21 | a 500x500 canvas less a 50-pixel border leaves 400 pixels per axis, and every box, the largest included, fits in it |
| DecomposeWindow.TargetOf | decompose/window.cpp:159-186 | a mode designates a target exactly when it is in 0..4, and the target's mode is the mode itself |
| DecomposeWindow.TargetRoundTrip | decompose/window.cpp:159-186 | every target's mode designates that target again |
| DecomposeWindow.Init | decompose/window.cpp:19-37 | the new window has the base title "Cell Decomposition", selects the robot, and shows the base title with " - Robot" |
| DecomposeWindow.PathCalculated | decompose/window.cpp:53-58 | whatever was shown before, the window afterwards shows the base title with " - Path Calculated!"; it neither asks for a path nor places anything |
| DecomposeWindow.KeyPress | decompose/window.cpp:91-145 | 1/2/3/R/D select box 0/1/2, robot, destination, and the title becomes base + " - " + that target's label with one title call; other keys keep the mode; any key keeps a mode in 0..4 valid; unrecognised keys change nothing and call nothing |
| DecomposeWindow.SpaceOverwritesPathCalculated | decompose/window.cpp:53-145 | Space keeps the mode, sets "Calculating Path...", asks for a path, sets "Path Calculated!", then sets "Calculating Path..." again, which is what remains shown |
| DecomposeWindow.KeyPressCounts | decompose/window.cpp:96-133 | a key press asks for a path once if it is Space and never otherwise, and never decomposes or places anything |
| DecomposeWindow.InitIsRobotSelected | decompose/window.cpp:122-144 | pressing R in the new window leaves its state exactly as constructed |
| DecomposeWindow.Place | decompose/window.cpp:161-185 | the placement call is setRobot exactly for the robot, setDest exactly for the destination, setBox(k) exactly for box k, always at the given point |
| DecomposeWindow.MouseRelease | decompose/window.cpp:153-187 | a mouse release leaves the state unchanged, starts with clearCells, decompose, connectCells, then issues exactly the placement of the selected target at the click point, or nothing if the mode is outside 0..4 |
| DecomposeWindow.KeyThenClick | decompose/window.cpp:104-186 | after the key for a target, a click issues clearCells, decompose, connectCells and then exactly that target's placement at the click point |
| DecomposeWindow.MouseReleaseCounts | decompose/window.cpp:156-186 | a mouse release decomposes once, asks for no path, and places one item exactly when the mode is in 0..4 |
| DecomposeWindow.RunKeepsSelectionValid | decompose/window.cpp:104-133 | no sequence of key presses, key releases and clicks takes a mode in 0..4 out of that range or changes the base title |
| DecomposeWindow.RunCounts | decompose/window.cpp:91-187 | from a valid mode, over any event sequence, the placements and decompositions equal the number of clicks and the path requests equal the number of Space presses |
| DecomposeWindow.FromInit | decompose/window.cpp:19-187 | starting from the constructed window, the mode always stays in 0..4 and every click places exactly one item |

## Left out

- The planner behind the window (`clearCells`, `decompose`, `connectCells`, `generatePath`, `timeStep`, `setRobot`, `setDest`, `setBox`): its code is not part of this model, so its calls are opaque trace actions with no meaning attached.
- `windowAnimate`, the 30 ms animation timer, style loading, canvas and layout construction and the window destructor: GUI plumbing with no logic of its own.
- Key codes: the `if` chain in `keyPressEvent` is a `match` over an abstract `Key`. Qt's key codes are distinct, so at most one branch fires for an event. The numeric codes themselves are not modelled.
- `keyReleaseEvent` of the decomposition window has an empty body and is modelled as a no-op event.
- `rotateJoint`, `translateJoint`, `translateBrush` and `moveJoint`: declared in the arm headers; their bodies are not modelled.
- The arm destructor and heap ownership: the model is a value, so there is nothing to free.
- link.h, base.h, brush.h and joint.h are not part of this model. The model assumes that the `Base` constructor sets the base's predecessor to null and the `Brush` constructor sets the brush's successor to null; `RobotArm::RobotArm` itself never assigns them, and an unset C++ pointer would be uninitialised rather than null. The chain's end conditions and the null results past either end rest on this assumption. What `Base(300)` means (a width or a height) is not modelled: the value is stored as the base's size. The brush's own joint and the joint `rotation` field are not modelled.
- The paint bot's own arm constructor is not part of this model. `NewArm` follows src/robotarm.cpp, and the paint bot header contributes only its constants, its `getBrush` form and the extended `Motion` values.
- `PI` and the car dimensions' use in drawing: floating point and rendering.
- The networked control panel, its widgets and the canvas drawing (src/window.cpp, src/window.h, src/canvas.h).
