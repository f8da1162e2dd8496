/** Python's negative slices. */
module PySlices {
  /** `s[-k:]` for any integer k: the last k elements, but all of them when k is 0. */
  function Last<T>(s: seq<T>, k: int): seq<T> {
    if k > 0 then (if k >= |s| then s else s[|s| - k..])
    else (if -k >= |s| then [] else s[-k..])
  }
}
