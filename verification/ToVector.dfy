/** `to_vector`: copying a collection in bulk. */
module ToVector {

  const CHUNK := 64

  /** An IIterator: GetMany gives fewer items than asked for only at the end. */
  class Iterator<T> {
    var rest: seq<T>

    constructor (items: seq<T>)
      ensures rest == items
    {
      rest := items;
    }

    method GetMany(n: nat) returns (items: seq<T>)
      modifies this
      ensures items + rest == old(rest) && |items| == if n <= |old(rest)| then n else |old(rest)|
    {
      var k := if n <= |rest| then n else |rest|;
      items := rest[..k];
      rest := rest[k..];
    }
  }

  function Filled<T>(n: nat, empty: T): (s: seq<T>)
    ensures |s| == n
  {
    if n == 0 then [] else Filled(n - 1, empty) + [empty]
  }

  /** The iterator branch: a chunk is appended and cut back to what was fetched, and the loop ends with the first
      chunk that is not full.  Everything from the iterator's position on is copied, in order. */
  method FromIterator<T>(src: Iterator<T>, empty: T) returns (result: seq<T>)
    modifies src
    ensures result == old(src.rest) && src.rest == []
  {
    result := [];
    while true
      invariant result + src.rest == old(src.rest)
      decreases |src.rest|
    {
      var lastSize := |result|;
      result := result + Filled(CHUNK, empty);
      var fetched := src.GetMany(CHUNK);
      result := result[..lastSize] + fetched + result[lastSize + |fetched|..];
      assert result[..lastSize + |fetched|] + src.rest == old(src.rest);
      if |fetched| < CHUNK {
        result := result[..lastSize + |fetched|];
        break;
      }
      assert result[..lastSize + |fetched|] == result;
    }
  }

  datatype Result<T> = Copied(items: seq<T>) | ChangedState

  /** The vector branch.  The collection may change between the call of Size and that of GetMany, which is asked
      for one item more than expected: growth is noticed and reported, shrinking is followed, and a collection
      that was empty is not looked at again. */
  method FromVector<T>(atSize: seq<T>, atGetMany: seq<T>, empty: T) returns (r: Result<T>)
    ensures atSize == [] ==> r == Copied([])
    ensures atSize != [] ==> r == if |atGetMany| > |atSize| then ChangedState else Copied(atGetMany)
    ensures atSize == atGetMany ==> r == Copied(atSize)
  {
    var expected := |atSize|;
    if expected == 0 {
      return Copied([]);
    }
    var result := Filled(expected + 1, empty);
    var actual := if |atGetMany| <= expected + 1 then |atGetMany| else expected + 1;
    result := atGetMany[..actual] + result[actual..];
    if actual > expected {
      return ChangedState;
    }
    r := Copied(result[..actual]);
  }
}
