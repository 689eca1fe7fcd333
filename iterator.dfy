/** `FileListIterator` (iterator.py): a cursor over a list of files. The list is
    kept as a value, so the iterator cannot change it. */
module FileIterator {

  /** What one `__next__` call gives: an element, or `StopIteration` raised. */
  datatype Next<T> = Item(value: T) | StopIteration

  /** One `__next__` call at cursor `index`: its answer and the cursor after it. */
  function Step<T>(list: seq<T>, index: nat): (Next<T>, nat)
    requires index <= |list|
  {
    if index < |list| then (Item(list[index]), index + 1) else (StopIteration, index)
  }

  /** The answers of `n` successive calls starting at cursor `index`. */
  function Calls<T>(list: seq<T>, index: nat, n: nat): seq<Next<T>>
    requires index <= |list|
    decreases n
  {
    if n == 0 then []
    else
      var (r, next) := Step(list, index);
      [r] + Calls(list, next, n - 1)
  }

  /** The cursor after `n` successive calls starting at `index`. */
  function CursorAfter<T>(list: seq<T>, index: nat, n: nat): nat
    requires index <= |list|
    decreases n
  {
    if n == 0 then index else CursorAfter(list, Step(list, index).1, n - 1)
  }

  /** However many calls are made, they give the remaining elements in order,
      each once, and after that only `StopIteration`; the cursor stops at the
      end of the list. */
  lemma {:induction false} CallsInOrder<T>(list: seq<T>, index: nat, n: nat)
    requires index <= |list|
    ensures |Calls(list, index, n)| == n
    ensures forall j :: 0 <= j < n ==>
              Calls(list, index, n)[j] == if index + j < |list| then Item(list[index + j]) else StopIteration
    ensures CursorAfter(list, index, n) == if index + n < |list| then index + n else |list|
    decreases n
  {
    if n > 0 {
      var (r, next) := Step(list, index);
      CallsInOrder(list, next, n - 1);
      var rest := Calls(list, next, n - 1);
      assert Calls(list, index, n) == [r] + rest;
      forall j | 0 < j < n
        ensures Calls(list, index, n)[j] == if index + j < |list| then Item(list[index + j]) else StopIteration
      {
        assert Calls(list, index, n)[j] == rest[j - 1];
      }
    }
  }

  class FileListIterator<T> {
    const fileList: seq<T>
    var index: nat

    ghost predicate Valid()
      reads this
    {
      index <= |fileList|
    }

    /** A new iterator starts before the first element. */
    constructor (fileList: seq<T>)
      ensures this.fileList == fileList && index == 0 && Valid()
    {
      this.fileList := fileList;
      index := 0;
    }

    /** `__next__`: the element under the cursor, moving the cursor on by one;
        at the end, `StopIteration` with the cursor left where it is. */
    method Next() returns (r: Next<T>)
      requires Valid()
      modifies this
      ensures Valid()
      ensures old(index) < |fileList| ==> r == Item(fileList[old(index)]) && index == old(index) + 1
      ensures old(index) == |fileList| ==> r == StopIteration && index == old(index)
      ensures (r, index) == Step(fileList, old(index))
    {
      if index < |fileList| {
        r := Item(fileList[index]);
        index := index + 1;
      } else {
        r := StopIteration;
      }
    }
  }
}
