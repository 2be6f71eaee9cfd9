/** A joint of the paint bot's arm: its kind of motion and the range it may move over. */
module Joints {

  /** How a joint moves: REVOLUTE joints rotate (degrees), PRISMATIC joints slide (pixels). */
  datatype JointType = Revolute | Prismatic

  /** The fields the joint constructor sets. The range is not required to be ordered. */
  datatype Joint = Joint(kind: JointType, rangeMin: int, rangeMax: int)

  /** The constructor `Joint(type, min, max)`: stores its three arguments unchecked. */
  function NewJoint(kind: JointType, min: int, max: int): (j: Joint)
    ensures j.kind == kind
    ensures j.rangeMin == min
    ensures j.rangeMax == max
  {
    Joint(kind, min, max)
  }

  /** A joint is determined by its constructor arguments: equal joints come from equal arguments. */
  lemma NewJointInjective(k1: JointType, lo1: int, hi1: int, k2: JointType, lo2: int, hi2: int)
    ensures NewJoint(k1, lo1, hi1) == NewJoint(k2, lo2, hi2) <==> k1 == k2 && lo1 == lo2 && hi1 == hi2
  {
  }

  /** No validation: every argument triple, including an inverted range, yields a joint with exactly those fields. */
  lemma NewJointAcceptsInvertedRange(kind: JointType, min: int, max: int)
    requires max < min
    ensures NewJoint(kind, min, max).rangeMax < NewJoint(kind, min, max).rangeMin
  {
  }
}
