/** Python's open-ended slice `s[start:]`, including its reading of negative
    starts and of `-0`. */
module PySlice {

  function Min(a: int, b: int): int {
    if a <= b then a else b
  }

  /** `s[start:]`: a negative start counts from the end, and a start outside
      the list is clamped to it. The result is always a suffix of s. */
  function From<T>(s: seq<T>, start: int): (r: seq<T>)
    ensures |r| == (if start < 0 then Min(-start, |s|) else if start <= |s| then |s| - start else 0)
    ensures r == s[|s| - |r|..]
  {
    if start < 0 then
      (if -start >= |s| then s else s[|s| + start..])
    else if start >= |s| then []
    else s[start..]
  }

  /** `s[-n:]`. For n >= 1 it keeps the newest min(n, |s|) elements; since
      `-0 == 0` in Python, `s[-0:]` is the whole of s; and a negative n turns
      into a positive start that drops the first -n elements. */
  function Last<T>(s: seq<T>, n: int): (r: seq<T>)
    ensures n >= 1 ==> |r| == Min(n, |s|) && r == s[|s| - |r|..]
    ensures n == 0 ==> r == s
    ensures n < 0 ==> r == s[Min(-n, |s|)..]
  {
    From(s, -n)
  }
}
