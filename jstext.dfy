/**
 * The two JavaScript string operations the update handler relies on:
 * `s.split(' ')` and `s.startsWith(p)`.
 */
module JsText {

  /** `s.split(' ')`: the pieces between single spaces, empty pieces kept, at least one piece. */
  function Split(s: string): (parts: seq<string>)
    ensures |parts| >= 1
    decreases |s|
  {
    if s == [] then [""]
    else if s[0] == ' ' then [""] + Split(s[1..])
    else
      var rest := Split(s[1..]);
      [[s[0]] + rest[0]] + rest[1..]
  }

  /** `parts.join(' ')`, the inverse of `Split`. */
  function Join(parts: seq<string>): (s: string)
    requires |parts| >= 1
  {
    if |parts| == 1 then parts[0] else parts[0] + " " + Join(parts[1..])
  }

  /** `s.startsWith(prefix)`. */
  predicate StartsWith(s: string, prefix: string) {
    |prefix| <= |s| && s[..|prefix|] == prefix
  }

  /** No piece produced by `Split` contains the separator. */
  lemma {:induction false} SplitPiecesHaveNoSpace(s: string)
    ensures forall i :: 0 <= i < |Split(s)| ==> ' ' !in Split(s)[i]
    decreases |s|
  {
    if s != [] {
      SplitPiecesHaveNoSpace(s[1..]);
      if s[0] != ' ' {
        var rest := Split(s[1..]);
        assert ' ' !in rest[0];
        assert Split(s)[0] == [s[0]] + rest[0];
      }
    }
  }

  /** Joining the pieces of a split gives back the original string. */
  lemma {:induction false} JoinSplit(s: string)
    ensures Join(Split(s)) == s
    decreases |s|
  {
    if s != [] {
      JoinSplit(s[1..]);
      var rest := Split(s[1..]);
      if s[0] == ' ' {
        assert Split(s)[1..] == rest;
        assert Join(Split(s)) == "" + " " + Join(rest);
      } else if |rest| == 1 {
        assert Join(Split(s)) == [s[0]] + rest[0];
      } else {
        assert Split(s)[1..] == rest[1..];
        assert Join(Split(s)) == [s[0]] + rest[0] + " " + Join(rest[1..]);
      }
    }
  }

  /** A string without a space splits into itself alone. */
  lemma {:induction false} SplitWithoutSpace(s: string)
    requires ' ' !in s
    ensures Split(s) == [s]
    decreases |s|
  {
    if s != [] {
      assert ' ' !in s[1..] by { assert forall c :: c in s[1..] ==> c in s; }
      SplitWithoutSpace(s[1..]);
      assert [s[0]] + s[1..] == s;
    }
  }

  /** Splitting at the first space peels off the space-free head. */
  lemma {:induction false} SplitAtFirstSpace(head: string, tail: string)
    requires ' ' !in head
    ensures Split(head + " " + tail) == [head] + Split(tail)
    decreases |head|
  {
    var s := head + " " + tail;
    if head == [] {
      assert s[1..] == tail;
    } else {
      assert ' ' !in head[1..] by { assert forall c :: c in head[1..] ==> c in head; }
      SplitAtFirstSpace(head[1..], tail);
      assert s[1..] == head[1..] + " " + tail;
      assert [head[0]] + head[1..] == head;
    }
  }

  /** Splitting a join of space-free pieces gives back the pieces. */
  lemma {:induction false} SplitJoin(parts: seq<string>)
    requires |parts| >= 1
    requires forall i :: 0 <= i < |parts| ==> ' ' !in parts[i]
    ensures Split(Join(parts)) == parts
    decreases |parts|
  {
    if |parts| == 1 {
      SplitWithoutSpace(parts[0]);
    } else {
      SplitJoin(parts[1..]);
      SplitAtFirstSpace(parts[0], Join(parts[1..]));
      assert [parts[0]] + parts[1..] == parts;
    }
  }

  /** `s.split(' ')` has a second piece exactly when `s` contains a space. */
  lemma SplitHasSecondPieceIff(s: string)
    ensures |Split(s)| > 1 <==> ' ' in s
  {
  }
}
