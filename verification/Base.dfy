/** Vocabulary shared by every module. */
module Base {

  datatype Option<+T> = None | Some(value: T)

  /** Instants and durations are integers (nanoseconds). Zero plays the part of Go's zero
      `time.Time`, which the controller uses as the "currently firing" mark. */
  type Time = int

  function Lookup<K, V>(m: map<K, V>, k: K): (r: Option<V>)
  {
    if k in m then Some(m[k]) else None
  }

  function Min(a: int, b: int): (r: int)
  {
    if a <= b then a else b
  }

  predicate NoRepeat<T(==)>(s: seq<T>)
  {
    forall i, j :: 0 <= i < j < |s| ==> s[i] != s[j]
  }

  function Elements<T>(s: seq<T>): (es: set<T>)
  {
    set x | x in s
  }

  /** The members of a set in some order: a possible course of a loop that ranges over it. */
  lemma {:induction false} Enumerate<T>(es: set<T>) returns (order: seq<T>)
    ensures NoRepeat(order) && Elements(order) == es
    decreases |es|
  {
    order := [];
    if es != {} {
      var x :| x in es;
      var rest := Enumerate(es - {x});
      order := rest + [x];
      assert forall i :: 0 <= i < |rest| ==> rest[i] in Elements(rest);
      assert Elements(order) == Elements(rest) + {x};
    }
  }

  /** A duration read as one tick when it is not positive. */
  function AtLeastOneTick(d: int): (r: int)
  {
    if d > 0 then d else 1
  }
}
