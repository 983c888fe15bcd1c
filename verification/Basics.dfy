/** Small notions every other module uses. */
module Basics {

  datatype Option<+T> = None | Some(value: T)

  datatype Result<+T, +E> = Ok(value: T) | Err(error: E)
  {
    function ToOption(): Option<T> {
      match this case Ok(v) => Some(v) case Err(_) => None
    }
  }

  function Lookup<K, V>(m: map<K, V>, k: K): Option<V> {
    if k in m then Some(m[k]) else None
  }

  function SetOf<T>(s: seq<T>): set<T> {
    set x | x in s
  }

  lemma SetOfSnoc<T>(s: seq<T>, x: T)
    ensures SetOf(s + [x]) == SetOf(s) + {x}
  {
  }

  /** What a call of the outside adds to the count of failed calls. */
  function Fault(ok: bool): nat {
    if ok then 0 else 1
  }

  /** A part of the outside whose calls only succeed or fail. */
  class Outside {
    ghost var faults: nat            // how many calls have failed

    constructor ()
      ensures faults == 0
    {
      faults := 0;
    }

    method Call() returns (ok: bool)
      modifies this
      ensures faults == old(faults) + Fault(ok)
    {
      ok := *;
      faults := faults + Fault(ok);
    }
  }

  function Max(a: nat, b: nat): nat {
    if a < b then b else a
  }

  ghost predicate NoRepeats<T>(s: seq<T>) {
    forall i, j :: 0 <= i < j < |s| ==> s[i] != s[j]
  }

  lemma NoRepeatsSnoc<T>(s: seq<T>, x: T)
    requires NoRepeats(s) && x !in s
    ensures NoRepeats(s + [x])
  {
  }
}
