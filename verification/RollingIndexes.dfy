/** Bounded windows on growing logs (src/common/rolling_index.go). */
module RollingIndexes {
  import opened Events

  datatype StoreError = KeyNotFound | TooLate | SkippedIndex | UnknownParticipant

  datatype Result<+T> = Ok(value: T) | Err(error: StoreError)

  /** An unbounded log: the entry with index first + k is entries[k]. */
  datatype Log<T> = Log(first: nat, entries: seq<T>) {

    function Last(): int {
      if entries == [] then -1 else first + |entries| - 1
    }

    /** The entries with an index greater than skip. */
    function After(skip: int): seq<T>
      requires first <= skip + 1
    {
      if skip >= Last() then [] else entries[skip + 1 - first..]
    }

    predicate Writable(index: nat) {
      entries == [] || first <= index <= Last() + 1
    }

    /** Appends the next entry, or replaces one; the first entry may have any index. */
    function Write(item: T, index: nat): Log<T>
      requires Writable(index)
    {
      if entries == [] then Log(index, [item])
      else if index == Last() + 1 then Log(first, entries + [item])
      else Log(first, entries[index - first := item])
    }
  }

  /** What a RollingIndex holds. */
  datatype Window<T> = Window(size: nat, lastIndex: int, items: seq<T>) {

    /** The index of the oldest item. */
    function Oldest(): int {
      lastIndex - |items| + 1
    }

    /** Why an index cannot be written. */
    function Denied(index: int): Option<StoreError> {
      if 0 <= lastIndex && index > lastIndex + 1 then Some(SkippedIndex)
      else if 0 <= lastIndex && index < Oldest() then Some(TooLate)
      else None
    }

    /** A full window loses its older half before it grows. */
    function Room(): seq<T> {
      if |items| >= size then items[size / 2..] else items
    }

    function Put(item: T, index: int): Window<T>
      requires Denied(index).None?
    {
      if lastIndex < 0 || index == lastIndex + 1 then Window(size, index, Room() + [item])
      else Window(size, lastIndex, items[index - Oldest() := item])
    }
  }

  /** The window holds the last entries of the log: at most size of them, and either all of them
      or more than half of size. A size below two evicts nothing. */
  ghost predicate Shows<T>(w: Window<T>, log: Log<T>) {
    && w.lastIndex == log.Last()
    && |w.items| <= |log.entries| && w.items == log.entries[|log.entries| - |w.items|..]
    && (if log.entries == [] then log.first == 0 else w.items != [])
    && (|w.items| == |log.entries| || w.size - w.size / 2 < |w.items|)
    && (if w.size >= 2 then |w.items| <= w.size else |w.items| == |log.entries|)
  }

  /** What is allowed to be written is written to the log, and the window goes on showing it. */
  lemma PutShows<T>(w: Window<T>, log: Log<T>, item: T, index: nat)
    requires Shows(w, log) && w.Denied(index).None?
    ensures log.Writable(index) && Shows(w.Put(item, index), log.Write(item, index))
  {
    if w.lastIndex < 0 || index == w.lastIndex + 1 {
      AppendShows(w, log, item, index);
    }
  }

  lemma AppendShows<T>(w: Window<T>, log: Log<T>, item: T, index: nat)
    requires Shows(w, log) && (w.lastIndex < 0 || index == w.lastIndex + 1)
    ensures Shows(w.Put(item, index), log.Write(item, index))
  {
    hide Window.Room;
    var room := w.Room();
    RoomShows(w, log);
    SuffixAppend(log.entries, room, item);
    assert log.Write(item, index).entries == log.entries + [item];
  }

  lemma RoomShows<T>(w: Window<T>, log: Log<T>)
    requires Shows(w, log)
    ensures |w.Room()| <= |log.entries| && w.Room() == log.entries[|log.entries| - |w.Room()|..]
    ensures |w.Room()| == |log.entries| || w.size - w.size / 2 <= |w.Room()|
    ensures if w.size >= 2 then |w.Room()| < w.size else |w.Room()| == |log.entries|
  {
    if |w.items| >= w.size {
      SuffixOfSuffix(log.entries, |log.entries| - |w.items|, w.size / 2);
    }
  }

  lemma SuffixOfSuffix<T>(s: seq<T>, i: nat, j: nat)
    requires i + j <= |s|
    ensures s[i..][j..] == s[i + j..]
  {
  }

  lemma SuffixAppend<T>(s: seq<T>, t: seq<T>, x: T)
    requires |t| <= |s| && t == s[|s| - |t|..]
    ensures t + [x] == (s + [x])[|s| - |t|..]
  {
  }

  lemma ShowsLast<T>(w: Window<T>, log: Log<T>)
    requires Shows(w, log)
    ensures w.lastIndex == log.Last() && (log.entries == [] <==> w.lastIndex < 0) && |w.items| <= w.lastIndex + 1
    ensures log.entries != [] ==> w.items != []
  {
  }

  class RollingIndex<T> {
    const size: nat
    var lastIndex: int
    var items: seq<T>

    /** All that was written. */
    ghost var log: Log<T>

    function State(): Window<T>
      reads this
    {
      Window(size, lastIndex, items)
    }

    ghost predicate Valid()
      reads this
    {
      Shows(State(), log)
    }

    constructor (size: nat)
      ensures Valid() && this.size == size && log == Log(0, [])
    {
      this.size, lastIndex, items, log := size, -1, [], Log(0, []);
    }

    /** The entries after skipIndex, unless some of them would lie below the window. */
    method Get(skipIndex: int) returns (result: Result<seq<T>>)
      requires Valid()
      ensures skipIndex > log.Last() ==> result == Ok([])
      ensures skipIndex <= log.Last() && skipIndex + 1 < State().Oldest() ==> result == Err(TooLate)
      ensures State().Oldest() <= skipIndex + 1 <= log.Last() + 1 ==>
                log.first <= skipIndex + 1 && result == Ok(log.After(skipIndex))
    {
      if skipIndex > lastIndex {
        return Ok([]);
      }
      var oldestCachedIndex := lastIndex - |items| + 1;
      if skipIndex + 1 < oldestCachedIndex {
        return Err(TooLate);
      }
      var start := skipIndex - oldestCachedIndex + 1;
      assert skipIndex < lastIndex ==> items[start..] == log.After(skipIndex);
      return Ok(items[start..]);
    }

    /** The entry at an index, if it is in the window. */
    method GetItem(index: int) returns (result: Result<T>)
      requires Valid()
      ensures index < State().Oldest() ==> result == Err(TooLate)
      ensures State().Oldest() <= index <= log.Last() ==>
                log.first <= index && result == Ok(log.entries[index - log.first])
      ensures State().Oldest() <= index && log.Last() < index ==> result == Err(KeyNotFound)
    {
      var oldestCached := lastIndex - |items| + 1;
      if index < oldestCached {
        return Err(TooLate);
      }
      var findex := index - oldestCached;
      if findex >= |items| {
        return Err(KeyNotFound);
      }
      return Ok(items[findex]);
    }

    /** Writes an entry, evicting the older half of the window when it is full. A negative index is refused once there
        is an entry; as the first one it is taken, and the window then shows no log. */
    method Set(item: T, index: int) returns (error: Option<StoreError>)
      requires Valid()
      modifies this
      ensures index >= 0 || old(log.entries) != [] ==> Valid()
      ensures error == Some(SkippedIndex) <==> old(log.entries) != [] && index > old(log.Last()) + 1
      ensures error == Some(TooLate) <==> old(log.entries) != [] && index < old(State()).Oldest()
      ensures error.Some? ==> unchanged(this) && (error.value == SkippedIndex || error.value == TooLate)
      ensures error.None? && index >= 0 ==> old(log).Writable(index) && log == old(log).Write(item, index)
      ensures index < 0 && old(log.entries) != [] ==> error == Some(TooLate)
      ensures error == old(State()).Denied(index)
      ensures error.None? ==> State() == old(State()).Put(item, index)
    {
      hide Shows, Log.Write, Log.Writable, Window.Put;
      ShowsLast(State(), log);
      if 0 <= lastIndex && index > lastIndex + 1 {
        return Some(SkippedIndex);
      }
      if lastIndex < 0 || index == lastIndex + 1 {
        Append(item, index);
        return None;
      }
      var oldestCachedIndex := lastIndex - |items| + 1;
      if index < oldestCachedIndex {
        return Some(TooLate);
      }
      Replace(item, index);
      return None;
    }

    method Append(item: T, index: int)
      requires Valid() && State().Denied(index).None? && (lastIndex < 0 || index == lastIndex + 1)
      modifies this
      ensures State() == old(State()).Put(item, index)
      ensures index >= 0 ==> Valid() && old(log).Writable(index) && log == old(log).Write(item, index)
    {
      hide Shows, Log.Write, Log.Writable;
      ghost var w := State();
      if |items| >= size {
        Roll();
      }
      items := items + [item];
      lastIndex := index;
      if index >= 0 {
        PutShows(w, log, item, index);
        log := log.Write(item, index);
      }
    }

    method Replace(item: T, index: int)
      requires Valid() && 0 <= State().Oldest() <= index <= lastIndex
      modifies this`items, this`log
      ensures State() == old(State()).Put(item, index)
      ensures Valid() && old(log).Writable(index) && log == old(log).Write(item, index)
    {
      hide Shows, Log.Write, Log.Writable, Window.Room;
      PutShows(State(), log, item, index);
      items, log := items[index - (lastIndex - |items| + 1) := item], log.Write(item, index);
    }

    /** Evicts the older half. */
    method Roll()
      requires |items| >= size
      modifies this`items
      ensures items == old(items)[size / 2..]
    {
      items := items[size / 2..];
    }
  }
}
