/** Shared vocabulary of the models. */
module Base {

  /** Messages are never inspected by the queues, so their type is left open. */
  type Item(==)

  /** Threads (or tasks) are named by numbers; there is no bound on how many there are. */
  type Tid = nat

  datatype Option<T> = None | Some(value: T)

  /** A part has no more members than the whole. */
  lemma Subset(a: set<nat>, b: set<nat>)
    requires a <= b
    ensures |a| <= |b|
  {
    assert b == a + (b - a);
  }
}
