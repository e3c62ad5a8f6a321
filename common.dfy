/** Values shared by the three components: JavaScript's `null` slots become Option. */
module Common {

  /** A slot that is either empty (`null` in the source) or holds a value. */
  datatype Option<+T> = None | Some(value: T) {

    /** The held value, or `default` when the slot is empty. */
    function GetOr(default: T): T {
      match this
      case Some(v) => v
      case None => default
    }
  }

  /** A call to `child_process.spawn`: the executable and its argument list. */
  datatype Invocation = Invocation(executable: string, args: seq<string>)

  /** The singleton set of a slot's value, or the empty set. */
  function Held<T(!new)>(slot: Option<T>): (r: set<T>)
    ensures slot.None? <==> r == {}
    ensures forall x :: x in r <==> slot == Some(x)
  {
    if slot.Some? then {slot.value} else {}
  }

  /** Concatenation is associative (stated once so that proofs need not rediscover it element by element). */
  lemma AppendAssoc<T>(p: seq<T>, q: seq<T>, r: seq<T>)
    ensures (p + q) + r == p + (q + r)
  {
  }
}
