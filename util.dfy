/** Small shared vocabulary: an optional value (std::optional) and counting in a sequence. */
module Util {

  /** std::optional<T>: either no value or one value. */
  datatype Option<+T> = None | Some(value: T) {

    /** std::optional::value_or: the held value, or `default` when there is none. */
    function ValueOr(default: T): (r: T)
      ensures Some? ==> r == value
      ensures None? ==> r == default
    {
      match this
      case Some(v) => v
      case None => default
    }
  }

  /**
   * What a reader of a NUL-terminated wide string sees of `s`: everything
   * before the first NUL, or all of `s` when it holds none (the terminator
   * then being the one just past its end).
   */
  function TerminatedPrefix(s: seq<char>): (p: seq<char>)
    ensures p <= s
    ensures forall i :: 0 <= i < |p| ==> p[i] != '\0'
    ensures |p| == |s| || s[|p|] == '\0'
    ensures (forall i :: 0 <= i < |s| ==> s[i] != '\0') ==> p == s
  {
    if s == [] || s[0] == '\0' then [] else [s[0]] + TerminatedPrefix(s[1..])
  }

  /** Appending a terminator changes nothing a NUL-terminated reader sees. */
  lemma {:induction false} TerminatedPrefixAppendNul(s: seq<char>)
    ensures TerminatedPrefix(s + ['\0']) == TerminatedPrefix(s)
  {
    if s != [] && s[0] != '\0' {
      assert (s + ['\0'])[1..] == s[1..] + ['\0'];
      TerminatedPrefixAppendNul(s[1..]);
    }
  }

  /** The number of positions of `s` that hold `x`. */
  function Count<T(==)>(s: seq<T>, x: T): nat {
    if s == [] then 0 else (if s[0] == x then 1 else 0) + Count(s[1..], x)
  }

  /** Counting distributes over concatenation. */
  lemma {:induction false} CountAppend<T>(s: seq<T>, t: seq<T>, x: T)
    ensures Count(s + t, x) == Count(s, x) + Count(t, x)
  {
    if s == [] {
      assert s + t == t;
    } else {
      assert (s + t)[1..] == s[1..] + t;
      CountAppend(s[1..], t, x);
    }
  }

  /** A value that occurs nowhere in `s` is counted zero times. */
  lemma {:induction false} CountAbsent<T>(s: seq<T>, x: T)
    requires forall i :: 0 <= i < |s| ==> s[i] != x
    ensures Count(s, x) == 0
  {
    if s != [] {
      CountAbsent(s[1..], x);
    }
  }
}
