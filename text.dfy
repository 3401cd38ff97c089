/** Splitting a string on a one-character separator, as Go's strings.Split
    does for a non-empty separator, and its inverse. */
module Text {

  /** The parts with `sep` between each two consecutive ones. */
  function Join(parts: seq<string>, sep: char): string
    requires |parts| > 0
    decreases |parts|
  {
    if |parts| == 1 then parts[0] else parts[0] + [sep] + Join(parts[1..], sep)
  }

  /** strings.Split(s, sep): the maximal pieces of `s` that contain no `sep`,
      one more piece than there are separators; the empty string gives [""]. */
  function Split(s: string, sep: char): (parts: seq<string>)
    ensures |parts| > 0
    ensures forall i :: 0 <= i < |parts| ==> sep !in parts[i]
    decreases |s|
  {
    if |s| == 0 then [""]
    else
      var rest := Split(s[1..], sep);
      if s[0] == sep then [""] + rest
      else [[s[0]] + rest[0]] + rest[1..]
  }


  /** Joining the pieces of a split gives back the string. */
  lemma {:induction false} SplitJoin(s: string, sep: char)
    ensures Join(Split(s, sep), sep) == s
  {
    if |s| > 0 {
      var rest := Split(s[1..], sep);
      SplitJoin(s[1..], sep);
      if s[0] == sep {
        var parts := [""] + rest;
        assert parts[1..] == rest;
        assert [s[0]] + s[1..] == s;
      } else {
        var parts := [[s[0]] + rest[0]] + rest[1..];
        if |rest| == 1 {
          assert [s[0]] + s[1..] == s;
        } else {
          assert parts[1..] == rest[1..];
          assert Join(parts, sep) == [s[0]] + (rest[0] + [sep] + Join(rest[1..], sep));
          assert [s[0]] + s[1..] == s;
        }
      }
    }
  }

  /** Splitting a join of separator-free pieces gives back the pieces: Split is
      the only way to cut a string into separator-free pieces. */
  lemma {:induction false} JoinSplit(parts: seq<string>, sep: char)
    requires |parts| > 0
    requires forall i :: 0 <= i < |parts| ==> sep !in parts[i]
    ensures Split(Join(parts, sep), sep) == parts
    decreases |Join(parts, sep)|
  {
    var s := Join(parts, sep);
    if parts[0] != "" {
      var c := parts[0][0];
      var shorter := [parts[0][1..]] + parts[1..];
      assert c != sep by { assert c == parts[0][0]; }
      assert forall i :: 0 <= i < |shorter| ==> sep !in shorter[i] by {
        forall i | 0 <= i < |shorter| ensures sep !in shorter[i] {
          if i == 0 {
            assert forall k :: 0 <= k < |parts[0][1..]| ==> parts[0][1..][k] == parts[0][k + 1];
          } else {
            assert shorter[i] == parts[i];
          }
        }
      }
      assert shorter[1..] == parts[1..];
      assert [c] + parts[0][1..] == parts[0];
      assert s == [c] + Join(shorter, sep);
      assert s[1..] == Join(shorter, sep);
      JoinSplit(shorter, sep);
      assert [[c] + shorter[0]] + shorter[1..] == parts;
    } else if |parts| > 1 {
      assert s == [sep] + Join(parts[1..], sep);
      assert s[1..] == Join(parts[1..], sep);
      JoinSplit(parts[1..], sep);
      assert [""] + parts[1..] == parts;
    }
  }

  /** Peeling the last piece off a join. */
  lemma {:induction false} JoinLast(parts: seq<string>, sep: char)
    requires |parts| > 1
    ensures Join(parts, sep) == Join(parts[..|parts| - 1], sep) + [sep] + parts[|parts| - 1]
    decreases |parts|
  {
    var init := parts[..|parts| - 1];
    if |parts| > 2 {
      JoinLast(parts[1..], sep);
      assert parts[1..][..|parts[1..]| - 1] == init[1..];
    }
  }

  /** The last piece of Split(s, sep): the longest separator-free suffix of
      `s`, which ends `s` and is either all of `s` or comes right after a
      separator. */
  function LastSegment(s: string, sep: char): (id: string)
    ensures sep !in id
    ensures |id| <= |s| && s[|s| - |id|..] == id
    ensures |id| == |s| || s[|s| - |id| - 1] == sep
  {
    var parts := Split(s, sep);
    SplitJoin(s, sep);
    if |parts| > 1 then
      JoinLast(parts, sep);
      parts[|parts| - 1]
    else
      parts[0]
  }

  /** The piece after the last separator is the last segment. */
  lemma LastSegmentAfter(t: string, w: string, sep: char)
    requires sep !in w
    ensures LastSegment(t + [sep] + w, sep) == w
  {
    var parts := Split(t, sep) + [w];
    assert parts[..|parts| - 1] == Split(t, sep);
    JoinLast(parts, sep);
    SplitJoin(t, sep);
    JoinSplit(parts, sep);
  }
}
