/** The per-thread stack of selected database numbers
    (RedisDatabaseThreadLocalHelper). One `DbSelector` object is the
    thread-local slot of one thread; its deque's front is index 0. An
    absent slot and an empty deque behave identically, so both are `[]`. */
module ThreadLocalHelper {
  import opened Common

  /** The deque after `set(db)`: `db` in front of everything already there. */
  function Pushed(deque: seq<int>, db: int): (pushed: seq<int>) {
    [db] + deque
  }

  /** The deque after `clear()`: the front entry goes when more than one
      remains; otherwise the whole slot is removed. */
  function Cleared(deque: seq<int>): (cleared: seq<int>) {
    if |deque| <= 1 then [] else deque[1..]
  }

  /** What `get()` answers: the front entry, or null for an empty slot. */
  function Top(deque: seq<int>): (top: Option<int>) {
    if deque == [] then None else Some(deque[0])
  }

  class DbSelector {
    var deque: seq<int>

    /** A thread whose slot was never set. */
    constructor ()
      ensures deque == []
    {
      deque := [];
    }

    /** `set(db)`: push `db` onto the front. */
    method Set(db: int)
      modifies this
      ensures deque == Pushed(old(deque), db)
    {
      deque := [db] + deque;
    }

    /** `get()`: peek at the front; null when absent or empty. It has no
        `modifies` clause, so it leaves the deque as it was. */
    method Get() returns (db: Option<int>)
      ensures db.None? <==> deque == []
      ensures db.Some? ==> db.value == deque[0]
    {
      if deque == [] {
        db := None;
      } else {
        db := Some(deque[0]);
      }
    }

    /** `clear()`: pop one entry when more than one remains, else drop the slot. */
    method Clear()
      modifies this
      ensures deque == Cleared(old(deque))
    {
      if |deque| <= 1 {
        deque := [];
      } else {
        deque := deque[1..];
      }
    }
  }

  /** After `set(db)`, `get()` answers `db` whatever was there before. */
  lemma SetThenGet(deque: seq<int>, db: int)
    ensures Top(Pushed(deque, db)) == Some(db)
  {
  }

  /** `set` keeps every existing entry, in order, behind the new front. */
  lemma SetKeepsEntries(deque: seq<int>, db: int)
    ensures |Pushed(deque, db)| == |deque| + 1
    ensures Pushed(deque, db)[0] == db && Pushed(deque, db)[1..] == deque
  {
  }

  /** With zero or one entry, `clear()` empties the slot and `get()` answers null. */
  lemma ClearLastEntry(deque: seq<int>)
    requires |deque| <= 1
    ensures Cleared(deque) == [] && Top(Cleared(deque)) == None
  {
  }

  /** With two or more entries, `clear()` removes only the front one. */
  lemma ClearNested(deque: seq<int>)
    requires |deque| >= 2
    ensures Cleared(deque) == deque[1..] && Top(Cleared(deque)) == Some(deque[1])
  {
  }

  /** `set(x)` then `clear()` restores the previous deque, absent counting as empty. */
  lemma SetThenClear(deque: seq<int>, db: int)
    ensures Cleared(Pushed(deque, db)) == deque
  {
  }

  /** `set(a); set(b); clear(); get()` answers `a`. */
  lemma NestedOverrideRestored(deque: seq<int>, a: int, b: int)
    ensures Top(Cleared(Pushed(Pushed(deque, a), b))) == Some(a)
  {
  }

  /** The deque after `set(dbs[0]); ...; set(dbs[n-1])`. */
  function PushedAll(deque: seq<int>, dbs: seq<int>): (pushed: seq<int>)
    decreases |dbs|
  {
    if dbs == [] then deque else PushedAll(Pushed(deque, dbs[0]), dbs[1..])
  }

  /** The deque after `n` calls to `clear()`. */
  function ClearedTimes(deque: seq<int>, n: nat): (cleared: seq<int>)
    decreases n
  {
    if n == 0 then deque else ClearedTimes(Cleared(deque), n - 1)
  }

  /** Nested scopes unwind: pushing any number of databases and clearing
      as many times restores the deque that was there before. */
  lemma {:induction false} NestedScopesRestore(deque: seq<int>, dbs: seq<int>)
    ensures ClearedTimes(PushedAll(deque, dbs), |dbs|) == deque
    decreases |dbs|
  {
    if dbs != [] {
      var last := dbs[|dbs| - 1];
      var init := dbs[..|dbs| - 1];
      PushedAllSnoc(deque, init, last);
      assert dbs == init + [last];
      calc {
        ClearedTimes(PushedAll(deque, dbs), |dbs|);
        ClearedTimes(Pushed(PushedAll(deque, init), last), |init| + 1);
        ClearedTimes(Cleared(Pushed(PushedAll(deque, init), last)), |init|);
        { SetThenClear(PushedAll(deque, init), last); }
        ClearedTimes(PushedAll(deque, init), |init|);
        { NestedScopesRestore(deque, init); }
        deque;
      }
    }
  }

  /** The last push of a series is the front of the result. */
  lemma {:induction false} PushedAllSnoc(deque: seq<int>, dbs: seq<int>, db: int)
    ensures PushedAll(deque, dbs + [db]) == Pushed(PushedAll(deque, dbs), db)
    decreases |dbs|
  {
    if dbs == [] {
      assert dbs + [db] == [db];
    } else {
      assert (dbs + [db])[1..] == dbs[1..] + [db];
      PushedAllSnoc(Pushed(deque, dbs[0]), dbs[1..], db);
    }
  }
}
