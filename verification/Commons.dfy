// What several modules need.
module Commons {

  datatype Option<+T> = None | Some(value: T)

  // The last n elements of a sequence.
  function Last<T>(s: seq<T>, n: nat): (r: seq<T>)
    ensures |r| == if |s| <= n then |s| else n
    ensures r == s[|s| - |r|..]
  {
    if |s| <= n then s else s[|s| - n..]
  }
}
