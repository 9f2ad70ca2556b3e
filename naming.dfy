/** The names given to the created scene objects. Both importers name an
    interval `I{position} {role} (J{alpha} ~ J{omega})`; the JSON importer
    names a joint `J{index}`. */
module Naming {
  import opened Common
  import opened Text

  /** `J{index}`: the joint index can be read back from the name. */
  function JointName(index: int): (name: string)
    ensures IndexFromJointName(name) == Some(index)
  {
    var name := "J" + IntToString(index);
    assert name[1..] == IntToString(index);
    IntToStringRoundTrip(index);
    name
  }

  /** `I{position} {role} (J{alpha} ~ J{omega})`: the position can be read
      back from the name, whatever the role says; the position is the only
      record of it on the created object. */
  function IntervalName(position: int, role: string, alpha: int, omega: int): (name: string)
    ensures |name| > 0 && name[0] == 'I' && name[|name| - 1] == ')'
  {
    var rest := role + " (J" + IntToString(alpha) + " ~ J" + IntToString(omega) + ")";
    "I" + IntToString(position) + " " + rest
  }

  /** The position comes back from an interval name, whatever the role. */
  lemma IntervalNamePosition(position: int, role: string, alpha: int, omega: int)
    ensures PositionFromIntervalName(IntervalName(position, role, alpha, omega)) == Some(position)
  {
    PositionHeadsName(position, role + " (J" + IntToString(alpha) + " ~ J" + IntToString(omega) + ")");
  }

  /** A name made of `I`, the position, a space and anything gives back the
      position. */
  lemma PositionHeadsName(position: int, rest: string)
    ensures PositionFromIntervalName("I" + IntToString(position) + " " + rest) == Some(position)
  {
    var digits := IntToString(position);
    var name := "I" + digits + " " + rest;
    assert name[1..] == digits + [' '] + rest;
    assert ' ' !in digits by {
      forall i | 0 <= i < |digits| ensures digits[i] != ' ' {
        assert digits[i] == '-' || IsDigit(digits[i]);
      }
    }
    TakeUntilPrefix(digits, ' ', rest);
    IntToStringRoundTrip(position);
  }

  /** The joint index written in a joint name, if it is one. */
  function IndexFromJointName(name: string): Option<int> {
    if |name| > 0 && name[0] == 'J' then ReadInt(name[1..]) else None
  }

  /** The position written at the head of an interval name, if it is one. */
  function PositionFromIntervalName(name: string): Option<int> {
    if |name| > 0 && name[0] == 'I' then ReadInt(TakeUntil(name[1..], ' ')) else None
  }
}
