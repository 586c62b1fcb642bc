/** Splitting a string at the first occurrence of a separator. */
module Strings {

  /** The position of the first separator, or the length of the string. */
  function First(s: string, sep: char): (n: nat)
    ensures n <= |s|
  {
    if s == [] || s[0] == sep then 0 else 1 + First(s[1..], sep)
  }

  lemma {:induction false} FirstAfterHead(head: string, tail: string, sep: char)
    requires sep !in head && (tail == "" || tail[0] == sep)
    ensures First(head + tail, sep) == |head|
  {
    if head == [] {
      assert head + tail == tail;
    } else {
      assert (head + tail)[1..] == head[1..] + tail;
      FirstAfterHead(head[1..], tail, sep);
    }
  }

  /** Heads without the separator, each followed by nothing or by the separator, can be told apart. */
  lemma SplitAt(a: string, b: string, x: string, y: string, sep: char)
    requires sep !in a && sep !in b
    requires (x == "" || x[0] == sep) && (y == "" || y[0] == sep)
    requires a + x == b + y
    ensures a == b && x == y
  {
    FirstAfterHead(a, x, sep);
    FirstAfterHead(b, y, sep);
    assert a == (a + x)[..|a|] && b == (b + y)[..|b|];
    assert x == (a + x)[|a|..] && y == (b + y)[|b|..];
  }

  /** Of two ways to cut a string, the shorter head leaves the rest of the longer head to its tail. */
  lemma CutLater(a: string, b: string, x: string, y: string)
    requires a + x == b + y && |a| <= |b|
    ensures x == b[|a|..] + y
  {
    assert x == (a + x)[|a|..];
    assert (b + y)[|a|..] == b[|a|..] + y;
  }

  /** A head without the separator ends no later than the separator that begins y: what follows its own
      separator ends like y. */
  lemma {:induction false} SeparatorComesFirst(a: string, b: string, x: string, y: string, sep: char)
    returns (front: string)
    requires sep !in a && (x == "" || x[0] == sep) && y != "" && y[0] == sep
    requires a + x == b + y
    ensures x != "" && x[1..] == front + y[1..]
    decreases |a|
  {
    if a == "" {
      assert x == b + y;
      front := (b + [sep])[1..];
      assert b + y == (b + [sep]) + y[1..];
    } else {
      assert a[0] == (a + x)[0] == (b + y)[0];
      assert b != "";
      assert (a + x)[1..] == a[1..] + x && (b + y)[1..] == b[1..] + y;
      front := SeparatorComesFirst(a[1..], b[1..], x, y, sep);
    }
  }

  /** The part of a string before its first separator, and the part after it. */
  lemma {:induction false} FirstSeparator(s: string, sep: char) returns (head: string, tail: string)
    requires sep in s
    ensures sep !in head && s == head + [sep] + tail
    decreases |s|
  {
    if s[0] == sep {
      head, tail := [], s[1..];
    } else {
      head, tail := FirstSeparator(s[1..], sep);
      head := [s[0]] + head;
      assert s == [s[0]] + s[1..];
    }
  }
}
