module Wrappers {
  datatype Option<+T> = None | Some(value: T)
}

/** Writing a run of items into a buffer at a position. */
module Buffers {

  /** `s` with `items` written over it starting at `at`. */
  function Overwrite<T>(s: seq<T>, at: nat, items: seq<T>): (r: seq<T>)
    requires at + |items| <= |s|
    ensures |r| == |s|
    ensures r[at..at + |items|] == items
    ensures forall i :: 0 <= i < |s| && !(at <= i < at + |items|) ==> r[i] == s[i]
  {
    seq(|s|, i requires 0 <= i < |s| => if at <= i < at + |items| then items[i - at] else s[i])
  }

  /** Replacing one element is overwriting a run of one. */
  lemma {:induction false} UpdateIsOverwrite<T>(s: seq<T>, at: nat, x: T)
    requires at < |s|
    ensures s[at := x] == Overwrite(s, at, [x])
  {
    var r := Overwrite(s, at, [x]);
    assert r[at] == r[at..at + 1][0];
  }

  /** Two adjacent runs written one after the other are one run written once. */
  lemma {:induction false} OverwriteAppend<T>(s: seq<T>, at: nat, a: seq<T>, b: seq<T>)
    requires at + |a| + |b| <= |s|
    ensures Overwrite(Overwrite(s, at, a), at + |a|, b) == Overwrite(s, at, a + b)
  {
    var r := Overwrite(Overwrite(s, at, a), at + |a|, b);
    var t := Overwrite(s, at, a + b);
    forall i | 0 <= i < |s|
      ensures r[i] == t[i]
    {
      if at <= i < at + |a| {
        assert t[i] == t[at..at + |a + b|][i - at];
      } else if at + |a| <= i < at + |a| + |b| {
        assert r[i] == r[at + |a|..at + |a| + |b|][i - at - |a|];
        assert t[i] == t[at..at + |a + b|][i - at];
      }
    }
  }

  /** Copies `items` into `buf` from position `at` on, one element at a time. */
  method WriteAt<T>(buf: array<T>, at: nat, items: seq<T>)
    requires at + |items| <= buf.Length
    modifies buf
    ensures buf[..] == Overwrite(old(buf[..]), at, items)
  {
    var i := 0;
    while i < |items|
      invariant 0 <= i <= |items|
      invariant forall k :: 0 <= k < buf.Length ==> buf[k] == if at <= k < at + i then items[k - at] else old(buf[k])
    {
      buf[at + i] := items[i];
      i := i + 1;
    }
    assert buf[..] == Overwrite(old(buf[..]), at, items);
  }
}
