/**
 * util/ReadWriteLazy.kt: a property cell that is initialised on first read
 * and can be overwritten. The cell is empty while it holds null.
 *
 * The initializer may return something different on each run, so it is
 * modelled as the result of its k-th run, with `runs` counting the runs so
 * far; None is a null result.
 */
module ReadWriteLazyCell {
  import opened Wrappers

  /** What a read returns: the value, or the IllegalStateException of a null initializer result. */
  datatype Read<T> = Got(value: T) | IllegalState

  class ReadWriteLazy<T> {
    const initializer: nat -> Option<T>
    var value: Option<T>
    var runs: nat

    /** `ReadWriteLazy(initializer)`: an empty cell. */
    constructor (initializer: nat -> Option<T>)
      ensures this.initializer == initializer && value == None && runs == 0
    {
      this.initializer := initializer;
      value := None;
      runs := 0;
    }

    /**
     * `getValue`: an empty cell runs the initializer once and keeps a
     * non-null result; a null result raises IllegalStateException and leaves
     * the cell empty. A filled cell returns its value without running it.
     */
    method GetValue() returns (r: Read<T>)
      modifies this
      ensures old(value).Some? ==> r == Got(old(value).value) && value == old(value) && runs == old(runs)
      ensures old(value).None? ==> runs == old(runs) + 1
      ensures old(value).None? && initializer(old(runs)).Some? ==>
        r == Got(initializer(old(runs)).value) && value == initializer(old(runs))
      ensures old(value).None? && initializer(old(runs)).None? ==> r == IllegalState && value == None
      ensures r.Got? <==> value.Some?
      ensures r.Got? ==> value == Some(r.value)
    {
      if value.None? {
        var result := initializer(runs);
        runs := runs + 1;
        if result.None? {
          return IllegalState;
        }
        value := result;
      }
      return Got(value.value);
    }

    /** `setValue(v)`: replace the stored value; null empties the cell. */
    method SetValue(v: Option<T>)
      modifies this
      ensures value == v && runs == old(runs)
    {
      value := v;
    }
  }

  /** `readWriteLazy(initializer)`: a new empty cell over the initializer. */
  method NewReadWriteLazy<T>(initializer: nat -> Option<T>) returns (cell: ReadWriteLazy<T>)
    ensures fresh(cell) && cell.initializer == initializer && cell.value == None && cell.runs == 0
  {
    cell := new ReadWriteLazy(initializer);
  }

  /** A second read returns what the first returned, without running the initializer again. */
  method ReadTwice<T>(cell: ReadWriteLazy<T>) returns (first: Read<T>, second: Read<T>)
    modifies cell
    ensures first.Got? ==> second == first && cell.runs == old(cell.runs) + (if old(cell.value).None? then 1 else 0)
  {
    first := cell.GetValue();
    second := cell.GetValue();
  }

  /** After `setValue(v)` with v non-null, a read returns v and the initializer does not run. */
  method SetThenRead<T>(cell: ReadWriteLazy<T>, v: T) returns (r: Read<T>)
    modifies cell
    ensures r == Got(v) && cell.value == Some(v) && cell.runs == old(cell.runs)
  {
    cell.SetValue(Some(v));
    r := cell.GetValue();
  }

  /** Setting null empties the cell, so the next read runs the initializer again. */
  method ClearThenRead<T>(cell: ReadWriteLazy<T>) returns (r: Read<T>)
    modifies cell
    ensures cell.runs == old(cell.runs) + 1
    ensures r == (if cell.initializer(old(cell.runs)).Some? then Got(cell.initializer(old(cell.runs)).value) else IllegalState)
  {
    cell.SetValue(None);
    r := cell.GetValue();
  }
}
