/** String helpers the commands rely on: splitting a flag value on a separator,
    as Go's strings.Split does for a one-character separator, and its inverse. */
module Text {

  datatype Option<+T> = None | Some(value: T)

  /** The parts glued back together with the separator between neighbours. */
  function Join(parts: seq<string>, sep: char): string
    requires |parts| >= 1
  {
    if |parts| == 1 then parts[0] else parts[0] + [sep] + Join(parts[1..], sep)
  }

  /** All parts are free of the separator. */
  ghost predicate SeparatorFree(parts: seq<string>, sep: char)
  {
    forall i :: 0 <= i < |parts| ==> sep !in parts[i]
  }

  /** strings.Split(s, sep): the maximal separator-free pieces of s, in order;
      a string without the separator gives one piece, the empty string included. */
  function Split(s: string, sep: char): (parts: seq<string>)
    ensures |parts| >= 1
    ensures SeparatorFree(parts, sep)
    ensures Join(parts, sep) == s
  {
    if |s| == 0 then [""]
    else
      var rest := Split(s[1..], sep);
      if s[0] == sep then
        [""] + rest
      else
        var parts := [[s[0]] + rest[0]] + rest[1..];
        assert parts[1..] == rest[1..];
        assert forall i :: 1 <= i < |parts| ==> parts[i] == rest[i];
        parts
  }

  /** With two or more parts the separator sits right after the first part. */
  lemma {:induction false} JoinSeparatorAt(parts: seq<string>, sep: char)
    requires |parts| >= 2
    ensures |parts[0]| < |Join(parts, sep)| && Join(parts, sep)[|parts[0]|] == sep
  {
  }

  /** Joining separator-free parts loses nothing: the parts can be recovered. */
  lemma {:induction false} JoinInjective(p: seq<string>, q: seq<string>, sep: char)
    requires |p| >= 1 && |q| >= 1
    requires SeparatorFree(p, sep) && SeparatorFree(q, sep)
    requires Join(p, sep) == Join(q, sep)
    ensures p == q
  {
    var s := Join(p, sep);
    if |p| == 1 && |q| == 1 {
    } else if |p| == 1 {
      JoinSeparatorAt(q, sep);
      assert false;
    } else if |q| == 1 {
      JoinSeparatorAt(p, sep);
      assert false;
    } else {
      JoinSeparatorAt(p, sep);
      JoinSeparatorAt(q, sep);
      if |p[0]| < |q[0]| {
        assert false;
      } else if |q[0]| < |p[0]| {
        assert false;
      }
      assert p[0] == s[..|p[0]|] == q[0];
      var n := |p[0]| + 1;
      assert Join(p[1..], sep) == s[n..] == Join(q[1..], sep);
      JoinInjective(p[1..], q[1..], sep);
      assert p == [p[0]] + p[1..];
      assert q == [q[0]] + q[1..];
    }
  }

  /** Split undoes Join on separator-free parts. */
  lemma {:induction false} SplitJoin(parts: seq<string>, sep: char)
    requires |parts| >= 1 && SeparatorFree(parts, sep)
    ensures Split(Join(parts, sep), sep) == parts
  {
    var s := Join(parts, sep);
    JoinInjective(Split(s, sep), parts, sep);
  }

  /** Split yields a single part exactly when the separator does not occur. */
  lemma {:induction false} SplitSingle(s: string, sep: char)
    ensures |Split(s, sep)| == 1 <==> sep !in s
  {
    var parts := Split(s, sep);
    if |parts| >= 2 {
      JoinSeparatorAt(parts, sep);
    }
  }

  /** The first part ends at the first separator; the rest is split the same way. */
  lemma {:induction false} SplitFirst(head: string, sep: char, tail: string)
    requires sep !in head
    ensures Split(head + [sep] + tail, sep) == [head] + Split(tail, sep)
  {
    var parts := [head] + Split(tail, sep);
    assert parts[1..] == Split(tail, sep);
    assert SeparatorFree(parts, sep);
    SplitJoin(parts, sep);
  }
}
