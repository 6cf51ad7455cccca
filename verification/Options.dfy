/** A value that may be missing. */
module Options {
  datatype Option<+T> = None | Some(value: T)

  /** The last value that is there. */
  function LastSome<T>(s: seq<Option<T>>): Option<T> {
    if s == [] then None
    else
      var later := LastSome(s[1..]);
      if later.Some? then later else s[0]
  }

  lemma {:induction false} LastSomeSnoc<T>(s: seq<Option<T>>, x: Option<T>)
    ensures LastSome(s + [x]) == if x.Some? then x else LastSome(s)
  {
    if s == [] {
      assert s + [x] == [x];
    } else {
      assert (s + [x])[1..] == s[1..] + [x];
      LastSomeSnoc(s[1..], x);
    }
  }
}
