/**
 What a pane sees of the queues: the calls sent and not answered yet, oldest first, with
 the workbench each was sent to. CallQueue proves that the promise chains refine this.
 */
module Fifo {
  datatype Pending<+Op> = Pending(workbench: string, op: Op)

  /** The k-th of the unanswered calls may be answered next: none of its own workbench is before it. */
  ghost predicate MayAnswer<Op>(pending: seq<Pending<Op>>, k: nat) {
    k < |pending| && forall j :: 0 <= j < k ==> pending[j].workbench != pending[k].workbench
  }

  function Without<T>(s: seq<T>, k: nat): seq<T>
    requires k < |s|
  {
    s[..k] + s[k + 1..]
  }

  lemma WithoutIsPart<T>(s: seq<T>, k: nat)
    requires k < |s|
    ensures forall r :: r in Without(s, k) ==> r in s
    ensures forall r :: r in s && r != s[k] ==> r in Without(s, k)
  {
    forall r | r in s && r != s[k] ensures r in Without(s, k) {
      var i :| 0 <= i < |s| && s[i] == r;
      if i < k {
        assert Without(s, k)[i] == r;
      } else {
        assert Without(s, k)[i - 1] == r;
      }
    }
  }

  lemma NonEmptyHoldsOne<T>(s: seq<T>)
    ensures s != [] ==> exists x :: x in s
  {
    if s != [] {
      assert s[0] in s;
    }
  }
}
