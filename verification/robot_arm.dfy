/**
  The paint bot's arm: a fixed chain of NUM_LINKS + 2 slots (base, three
  links, brush). Each slot names its predecessor and successor by index in
  the `links` array, standing in for the C++ pointers.
 */
module RobotArm {
  import opened Wrappers
  import opened Joints

  const NUM_LINKS: int := 3
  /** Slots in the array: the links plus base and brush. */
  const LENGTH: int := NUM_LINKS + 2

  /** Centre the arm on a 640x480 canvas. */
  const OFFSET_X: int := 640 / 2 - 150
  const OFFSET_Y: int := 480 - 50

  /** What occupies a slot: the base (with the size it is built with, `Base(300)`), a jointed link (with its length), or the brush. */
  datatype Part = BasePart(size: int) | LinkPart(joint: Joint, length: int) | BrushPart

  /** A slot of the chain; `prev`/`next` are indices into the same array, None for a null pointer. */
  datatype Link = Link(part: Part, prev: Option<nat>, next: Option<nat>)

  /**
    A chain: every slot but the last points forward to its neighbour, that
    neighbour points back, and the two ends point nowhere beyond the array.
   */
  ghost predicate Chained(links: seq<Link>) {
    && |links| > 0
    && links[0].prev == None
    && links[|links| - 1].next == None
    && (forall i :: 0 <= i < |links| - 1 ==> links[i].next == Some(i + 1))
    && (forall i :: 0 < i < |links| ==> links[i].prev == Some(i - 1))
  }

  /** The slots as the constructor allocates them: each with its predecessor, no successor yet. */
  function Allocated(): seq<Link> {
    [ Link(BasePart(300), None, None),
      Link(LinkPart(NewJoint(Prismatic, 0, 300), 150), Some(0), None),
      Link(LinkPart(NewJoint(Revolute, 0, 360), 100), Some(1), None),
      Link(LinkPart(NewJoint(Revolute, 0, 360), 75), Some(2), None),
      Link(BrushPart, Some(3), None) ]
  }

  /** `links[i]->next_link = links[j]`. */
  function SetNext(links: seq<Link>, i: nat, j: nat): (r: seq<Link>)
    requires i < |links|
    ensures |r| == |links|
    ensures r[i].next == Some(j) && r[i].part == links[i].part && r[i].prev == links[i].prev
    ensures forall k :: 0 <= k < |links| && k != i ==> r[k] == links[k]
  {
    links[i := links[i].(next := Some(j))]
  }

  /** The constructor: allocate the five slots, then link each to its successor. */
  function NewArm(): (links: seq<Link>)
    ensures |links| == LENGTH
    ensures Chained(links)
    ensures links[0].part.BasePart? && links[LENGTH - 1].part.BrushPart?
    ensures forall i :: 0 < i < LENGTH - 1 ==> links[i].part.LinkPart?
  {
    SetNext(SetNext(SetNext(SetNext(Allocated(), 0, 1), 1, 2), 2, 3), 3, 4)
  }

  /** `getBase()`: slot 0, the head of the chain: no predecessor, and its successor is link 1. */
  function GetBase(links: seq<Link>): (r: Link)
    requires |links| == LENGTH
    ensures Chained(links) ==> r.prev == None && r.next == Some(1)
  {
    links[0]
  }

  /** `getBrush()` as the arm header without the X/Y motions (src/robotarm.h) writes it: slot NUM_LINKS + 1, the tail of the chain. */
  function GetBrush(links: seq<Link>): (r: Link)
    requires |links| == LENGTH
    ensures Chained(links) ==> r.next == None && r.prev == Some(NUM_LINKS)
  {
    links[NUM_LINKS + 1]
  }

  /** `getBrush()` as the paint bot's header writes it: slot LENGTH - 1, the tail of the chain. */
  function GetBrushLast(links: seq<Link>): (r: Link)
    requires |links| == LENGTH
    ensures Chained(links) ==> r.next == None && r.prev == Some(LENGTH - 2)
  {
    links[LENGTH - 1]
  }

  /** `getLink(i)`: the slot at index i, None (a null pointer) outside [0, NUM_LINKS + 1]. */
  function GetLink(links: seq<Link>, i: int): (r: Option<Link>)
    requires |links| == LENGTH
    ensures r.Some? <==> 0 <= i < |links|
    ensures r.Some? ==> r.value == links[i]
  {
    if i < 0 || i > NUM_LINKS + 1 then None
    else if i == 0 then Some(GetBase(links))
    else if i == NUM_LINKS + 1 then Some(GetBrush(links))
    else Some(links[i])
  }

  /** The special cases of getLink agree with getBase and both headers' getBrush, which name the first and last slots. */
  lemma GetLinkEnds(links: seq<Link>)
    requires |links| == LENGTH
    ensures GetLink(links, 0) == Some(GetBase(links))
    ensures GetLink(links, NUM_LINKS + 1) == Some(GetBrush(links))
    ensures GetBrush(links) == GetBrushLast(links) == links[|links| - 1]
    ensures GetLink(links, -1).None? && GetLink(links, NUM_LINKS + 2).None?
  {
  }

  /** The slot reached from slot i by following `next` k times; None when a null pointer is hit. */
  function Forward(links: seq<Link>, i: nat, k: nat): Option<nat>
    decreases k
  {
    if i >= |links| then None
    else if k == 0 then Some(i)
    else match links[i].next
      case None => None
      case Some(j) => Forward(links, j, k - 1)
  }

  /** The slot reached from slot i by following `prev` k times; None when a null pointer is hit. */
  function Backward(links: seq<Link>, i: nat, k: nat): Option<nat>
    decreases k
  {
    if i >= |links| then None
    else if k == 0 then Some(i)
    else match links[i].prev
      case None => None
      case Some(j) => Backward(links, j, k - 1)
  }

  /** In a chain, k successor steps from slot i land on slot i + k while that is a slot, and on null past the end. */
  lemma {:induction false} ForwardWalk(links: seq<Link>, i: nat, k: nat)
    requires Chained(links) && i < |links|
    ensures i + k < |links| ==> Forward(links, i, k) == Some(i + k)
    ensures i + k >= |links| ==> Forward(links, i, k) == None
    decreases k
  {
    if k > 0 {
      if i == |links| - 1 {
        assert links[i].next == None;
      } else {
        assert links[i].next == Some(i + 1);
        ForwardWalk(links, i + 1, k - 1);
      }
    }
  }

  /** In a chain, k predecessor steps from slot i land on slot i - k while that is a slot, and on null before the start. */
  lemma {:induction false} BackwardWalk(links: seq<Link>, i: nat, k: nat)
    requires Chained(links) && i < |links|
    ensures k <= i ==> Backward(links, i, k) == Some(i - k)
    ensures k > i ==> Backward(links, i, k) == None
    decreases k
  {
    if k > 0 {
      if i == 0 {
        assert links[i].prev == None;
      } else {
        assert links[i].prev == Some(i - 1);
        BackwardWalk(links, i - 1, k - 1);
      }
    }
  }

  /** In a chain, `next` and `prev` are inverse: j follows i exactly when i precedes j. */
  lemma ChainInverse(links: seq<Link>, i: nat, j: nat)
    requires Chained(links) && i < |links| && j < |links|
    ensures links[i].next == Some(j) <==> links[j].prev == Some(i)
  {
    if i < |links| - 1 {
      assert links[i].next == Some(i + 1);
    }
    if 0 < j {
      assert links[j].prev == Some(j - 1);
    }
  }

  /** The constructed arm runs base -> link1 -> link2 -> link3 -> brush, and back from brush to base. */
  lemma NewArmWalks()
    ensures Forward(NewArm(), 0, NUM_LINKS + 1) == Some(NUM_LINKS + 1)
    ensures Forward(NewArm(), 0, NUM_LINKS + 2) == None
    ensures Backward(NewArm(), NUM_LINKS + 1, NUM_LINKS + 1) == Some(0)
    ensures Backward(NewArm(), NUM_LINKS + 1, NUM_LINKS + 2) == None
  {
    ForwardWalk(NewArm(), 0, NUM_LINKS + 1);
    ForwardWalk(NewArm(), 0, NUM_LINKS + 2);
    BackwardWalk(NewArm(), NUM_LINKS + 1, NUM_LINKS + 1);
    BackwardWalk(NewArm(), NUM_LINKS + 1, NUM_LINKS + 2);
  }

  /** Link 1 slides over [0,300]; links 2 and 3 rotate over [0,360]. */
  lemma NewArmJoints()
    ensures NewArm()[1].part.joint == Joint(Prismatic, 0, 300)
    ensures NewArm()[2].part.joint == Joint(Revolute, 0, 360)
    ensures NewArm()[3].part.joint == Joint(Revolute, 0, 360)
  {
  }

  /** The base is built as `Base(300)` and the link lengths 150, 100, 75 strictly decrease along the chain. */
  lemma NewArmLengths()
    ensures NewArm()[0].part.size == 300
    ensures NewArm()[1].part.length == 150 && NewArm()[2].part.length == 100 && NewArm()[3].part.length == 75
    ensures forall i :: 1 <= i < NUM_LINKS ==> NewArm()[i].part.length > NewArm()[i + 1].part.length
  {
  }

  /** NUM_LINKS = 3 gives a five-slot array, and the offsets centre the arm at (170, 430). */
  lemma ArmConstants()
    ensures NUM_LINKS == 3 && LENGTH == 5
    ensures OFFSET_X == 170 && OFFSET_Y == 430
  {
  }
}
