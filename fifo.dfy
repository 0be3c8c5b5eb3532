/** The reveal discipline of a tree: branches wait in `pending` and move, front first,
    to the end of `drawn`. */
module Fifo {

  datatype Queues<T> = Queues(drawn: seq<T>, pending: seq<T>)

  /** One reveal: `pop(0)` from pending and `append` to drawn, if anything is pending. */
  function Reveal<T>(q: Queues<T>): (r: Queues<T>)
    ensures r.drawn + r.pending == q.drawn + q.pending
    ensures |r.pending| == if q.pending == [] then 0 else |q.pending| - 1
  {
    if q.pending == [] then q else Queues(q.drawn + [q.pending[0]], q.pending[1..])
  }

  /** `n` consecutive reveals. */
  function RevealTimes<T>(q: Queues<T>, n: nat): Queues<T>
    decreases n
  {
    if n == 0 then q else RevealTimes(Reveal(q), n - 1)
  }

  function Min(a: nat, b: nat): nat
  {
    if a <= b then a else b
  }

  /** After `n` reveals exactly the first min(n, |pending|) pending items have been
      appended to drawn, in their original order, and the rest still wait. */
  lemma {:induction false} RevealTimesTakesPrefix<T>(q: Queues<T>, n: nat)
    ensures RevealTimes(q, n) == Queues(q.drawn + q.pending[..Min(n, |q.pending|)],
                                        q.pending[Min(n, |q.pending|)..])
    decreases n
  {
    if n == 0 {
      assert q.drawn + q.pending[..0] == q.drawn;
    } else if q.pending == [] {
      RevealTimesTakesPrefix(q, n - 1);
    } else {
      var q' := Reveal(q);
      RevealTimesTakesPrefix(q', n - 1);
      var m := Min(n, |q.pending|);
      assert Min(n - 1, |q'.pending|) == m - 1;
      assert q'.pending[..m - 1] == q.pending[1..m];
      assert q.drawn + [q.pending[0]] + q.pending[1..m] == q.drawn + q.pending[..m];
      assert q'.pending[m - 1..] == q.pending[m..];
    }
  }

  /** Starting from a freshly built tree (nothing drawn), `n` reveals leave
      drawn == pending[..min(n, total)]. */
  lemma RevealFromStart<T>(layout: seq<T>, n: nat)
    ensures RevealTimes(Queues([], layout), n).drawn == layout[..Min(n, |layout|)]
    ensures |RevealTimes(Queues([], layout), n).drawn| + |RevealTimes(Queues([], layout), n).pending| == |layout|
  {
    RevealTimesTakesPrefix(Queues([], layout), n);
  }
}
