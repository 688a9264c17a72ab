/** Futures waiting for a reply, keyed by message number. */
module Pending {
  datatype Reason = TimedOut | SendError | CancelledByCaller | ConnectionLost | KernelClosed

  datatype Outcome = Replied | Failed(reason: Reason)

  /** `waiting` are the futures not yet completed, `done` the outcomes of the others. */
  datatype Book = Book(waiting: set<int>, done: map<int, Outcome>)

  const NO_FUTURES := Book({}, map[])

  function Create(b: Book, s: int): Book { Book(b.waiting + {s}, b.done - {s}) }

  function Complete(b: Book, s: int, how: Outcome): Book {
    if s in b.waiting then Book(b.waiting - {s}, b.done[s := how]) else b
  }

  function Drop(b: Book, s: int): Book { b.(waiting := b.waiting - {s}) }

  function FailAll(b: Book, why: Reason): Book {
    Book({}, b.done + map s | s in b.waiting :: Failed(why))
  }

  class PendingResponseManager {
    var waiting: set<int>
    var done: map<int, Outcome>

    ghost function Abs(): Book
      reads this
    {
      Book(waiting, done)
    }

    constructor ()
      ensures Abs() == NO_FUTURES
    {
      waiting, done := {}, map[];
    }

    method CreateFuture(s: int)
      modifies this
      ensures Abs() == Create(old(Abs()), s)
      ensures s in waiting && s !in done && waiting - {s} == old(waiting) - {s}
      ensures forall t :: t in done <==> t in old(done) && t != s
    {
      waiting := waiting + {s};
      done := done - {s};
    }

    method Resolve(s: int) returns (found: bool)
      modifies this
      ensures found == (s in old(waiting))
      ensures Abs() == Complete(old(Abs()), s, Replied)
      ensures s !in waiting && (found ==> s in done && done[s] == Replied)
      ensures !found ==> unchanged(this)
    {
      found := s in waiting;
      if found {
        waiting := waiting - {s};
        done := done[s := Replied];
      }
    }

    method Fail(s: int, why: Reason) returns (found: bool)
      modifies this
      ensures found == (s in old(waiting))
      ensures Abs() == Complete(old(Abs()), s, Failed(why))
      ensures s !in waiting && (found ==> s in done && done[s] == Failed(why))
      ensures !found ==> unchanged(this)
    {
      found := s in waiting;
      if found {
        waiting := waiting - {s};
        done := done[s := Failed(why)];
      }
    }

    method DropFuture(s: int)
      modifies this
      ensures Abs() == Drop(old(Abs()), s)
      ensures s !in waiting && (forall t :: t != s ==> (t in waiting <==> t in old(waiting))) && done == old(done)
    {
      waiting := waiting - {s};
    }

    method FailEvery(why: Reason)
      modifies this
      ensures Abs() == FailAll(old(Abs()), why)
      ensures waiting == {} && forall s :: s in old(waiting) ==> s in done && done[s] == Failed(why)
    {
      var entries := waiting;
      waiting := {};
      while |entries| != 0
        invariant waiting == {} && FailAll(Book(entries, done), why) == FailAll(old(Abs()), why)
        decreases |entries|
      {
        Inhabited(entries);
        var s :| s in entries;
        FailOne(Book(entries, done), s, why);
        entries := entries - {s};
        done := done[s := Failed(why)];
      }
      assert done + (map s | s in entries :: Failed(why)) == done;
    }
  }

  lemma Inhabited(s: set<int>)
    requires |s| != 0
    ensures exists x :: x in s
  {
    if forall x :: x !in s {
      assert false;
    }
  }

  lemma FailOne(b: Book, s: int, why: Reason)
    requires s in b.waiting
    ensures FailAll(Book(b.waiting - {s}, b.done[s := Failed(why)]), why) == FailAll(b, why)
  {}
}
