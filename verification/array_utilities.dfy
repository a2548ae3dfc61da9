/**
 The value-semantics array helpers (`Array+Utilities`): appending returns a new array and leaves
 the receiver as it was, which a Dafny sequence does by construction.
 */
module ArrayUtilities {
  import opened Wrappers

  /** `sba_appending(_:)`: the receiver followed by one new last element. */
  function Appending<T>(s: seq<T>, newElement: T): (r: seq<T>)
    ensures |r| == |s| + 1
    ensures r[..|s|] == s
    ensures r[|s|] == newElement
  {
    s + [newElement]
  }

  /** `sba_appending(contentsOf:)`: the receiver followed by the given elements. */
  function AppendingContents<T>(s: seq<T>, contents: seq<T>): (r: seq<T>)
    ensures |r| == |s| + |contents|
    ensures r[..|s|] == s
    ensures r[|s|..] == contents
  {
    s + contents
  }

  /** Appending no contents gives an array equal to the receiver. */
  lemma AppendingNothing<T>(s: seq<T>)
    ensures AppendingContents(s, []) == s
  {
  }

  /** Appending a one-element array is appending that element. */
  lemma AppendingSingleton<T>(s: seq<T>, e: T)
    ensures AppendingContents(s, [e]) == Appending(s, e)
  {
  }

  /** Appending contents element by element gives the same array as appending them at once. */
  lemma {:induction false} AppendingOneByOne<T>(s: seq<T>, contents: seq<T>)
    ensures AppendingContents(s, contents) == AppendAll(s, contents)
    decreases |contents|
  {
    if contents != [] {
      var last := contents[|contents| - 1];
      var init := contents[..|contents| - 1];
      AppendingOneByOne(s, init);
      assert contents == init + [last];
      assert AppendingContents(s, contents) == Appending(AppendingContents(s, init), last);
    }
  }

  /** Repeated `sba_appending(_:)`, the last element appended last. */
  function AppendAll<T>(s: seq<T>, contents: seq<T>): seq<T>
    decreases |contents|
  {
    if contents == [] then s
    else Appending(AppendAll(s, contents[..|contents| - 1]), contents[|contents| - 1])
  }

  /**
   `sba_nextMatch(_:)`: without an object to match, the first element (nil for an empty array);
   otherwise whatever the array's `sba_next` search for an equal element returns.
   */
  function NextMatch<T>(s: seq<T>, target: Option<T>, nextEqual: T -> Option<T>): (r: Option<T>)
    ensures target.None? ==> (r.None? <==> s == [])
    ensures target.None? && s != [] ==> r == Some(s[0])
    ensures target.Some? ==> r == nextEqual(target.value)
  {
    match target
    case None => if s == [] then None else Some(s[0])
    case Some(x) => nextEqual(x)
  }
}
