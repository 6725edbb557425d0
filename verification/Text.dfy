/** Strings the way the controllers use them: prefixes, suffixes, splitting and joining on a separator. */
module Text {

  predicate HasPrefix(s: string, p: string) {
    p <= s
  }

  predicate HasSuffix(s: string, p: string) {
    |p| <= |s| && s[|s| - |p|..] == p
  }

  predicate OccursAt(s: string, sep: string, i: nat) {
    i + |sep| <= |s| && s[i..i + |sep|] == sep
  }

  /** The first position at or after `i` where `sep` occurs in `s`, or -1. */
  function IndexFrom(s: string, sep: string, i: nat): (r: int)
    requires i <= |s|
    ensures r < 0 ==> r == -1 && forall j: nat :: i <= j ==> !OccursAt(s, sep, j)
    ensures r >= 0 ==> i <= r && OccursAt(s, sep, r) && forall j: nat :: i <= j < r ==> !OccursAt(s, sep, j)
    decreases |s| - i
  {
    if OccursAt(s, sep, i) then i
    else if i == |s| then -1
    else IndexFrom(s, sep, i + 1)
  }

  function Index(s: string, sep: string): (r: int) {
    IndexFrom(s, sep, 0)
  }

  predicate Contains(s: string, sep: string) {
    Index(s, sep) >= 0
  }

  /** Cuts `s` at every occurrence of `sep`, leftmost first, occurrences never overlapping. */
  function Split(s: string, sep: string): (parts: seq<string>)
    requires sep != ""
    ensures parts != []
    decreases |s|
  {
    var i := Index(s, sep);
    if i < 0 then [s] else [s[..i]] + Split(s[i + |sep|..], sep)
  }

  function Join(parts: seq<string>, sep: string): string {
    if parts == [] then ""
    else if |parts| == 1 then parts[0]
    else parts[0] + sep + Join(parts[1..], sep)
  }

  /** `sep` cannot be seen in `part + sep` before the end of `part`, not even overlapping the two. */
  predicate Separable(part: string, sep: string) {
    Index(part + sep, sep) == |part|
  }

  predicate Recoverable(parts: seq<string>, sep: string) {
    && parts != []
    && (forall i :: 0 <= i < |parts| - 1 ==> Separable(parts[i], sep))
    && !Contains(parts[|parts| - 1], sep)
  }

  /** The leftmost occurrence in `part + sep + rest` depends on `part + sep` alone. */
  lemma FirstCut(part: string, sep: string, rest: string)
    requires sep != ""
    ensures Index(part + sep + rest, sep) == |part| <==> Separable(part, sep)
  {
    var short, long := part + sep, part + sep + rest;
    forall j: nat | j <= |part| ensures OccursAt(short, sep, j) == OccursAt(long, sep, j) {
      assert short[j..j + |sep|] == long[j..j + |sep|];
    }
    assert OccursAt(short, sep, |part|);
    assert OccursAt(long, sep, |part|);
  }

  lemma RecoverableStep(parts: seq<string>, sep: string)
    requires |parts| > 1
    ensures Recoverable(parts, sep) <==> Separable(parts[0], sep) && Recoverable(parts[1..], sep)
  {
    var tail := parts[1..];
    hide Separable, Contains;
    if Separable(parts[0], sep) && Recoverable(tail, sep) {
      forall i | 0 <= i < |parts| - 1 ensures Separable(parts[i], sep) {
        if i > 0 { assert parts[i] == tail[i - 1]; }
      }
    }
    if Recoverable(parts, sep) {
      forall i | 0 <= i < |tail| - 1 ensures Separable(tail[i], sep) {
        assert tail[i] == parts[i + 1];
      }
    }
  }

  /** The first piece of a joined list is its first part exactly when that is separable. */
  lemma SplitStep(part: string, sep: string, rest: string)
    requires sep != ""
    ensures Separable(part, sep) ==> Split(part + sep + rest, sep) == [part] + Split(rest, sep)
    ensures !Separable(part, sep) ==> Split(part + sep + rest, sep)[0] != part
  {
    var s := part + sep + rest;
    FirstCut(part, sep, rest);
    hide Separable, Index;
    if Separable(part, sep) {
      assert s[..|part|] == part && s[|part| + |sep|..] == rest;
    }
  }

  lemma SplitJoinOne(parts: seq<string>, sep: string)
    requires sep != "" && |parts| <= 1
    ensures Split(Join(parts, sep), sep) == parts <==> Recoverable(parts, sep)
  {
  }

  /** Splitting a joined list gives the list back exactly when the parts are recoverable. */
  lemma {:induction false} SplitJoin(parts: seq<string>, sep: string)
    requires sep != ""
    ensures Split(Join(parts, sep), sep) == parts <==> Recoverable(parts, sep)
    decreases |parts|
  {
    hide Split, Recoverable, Separable;
    if |parts| <= 1 {
      SplitJoinOne(parts, sep);
    } else {
      var tail := parts[1..];
      SplitJoin(tail, sep);
      RecoverableStep(parts, sep);
      SplitStep(parts[0], sep, Join(tail, sep));
      assert parts == [parts[0]] + tail;
      assert Split(Join(parts, sep), sep) == [parts[0]] + Split(Join(tail, sep), sep) ==>
        Split(Join(parts, sep), sep)[1..] == Split(Join(tail, sep), sep);
    }
  }

  /** Joining undoes splitting, whatever the text. */
  lemma {:induction false} JoinSplit(s: string, sep: string)
    requires sep != ""
    ensures Join(Split(s, sep), sep) == s
    decreases |s|
  {
    var i := Index(s, sep);
    if i >= 0 {
      JoinSplit(s[i + |sep|..], sep);
      assert Split(s, sep)[1..] == Split(s[i + |sep|..], sep);
      assert s == s[..i] + sep + s[i + |sep|..];
    }
  }

  /** With a separator of one character, a part is separable exactly when it does not contain it. */
  lemma SeparableByChar(part: string, c: char)
    ensures Separable(part, [c]) <==> c !in part
    ensures Contains(part, [c]) <==> c in part
  {
    var s := part + [c];
    assert OccursAt(s, [c], |part|);
    forall j: nat | j < |part|
      ensures OccursAt(s, [c], j) == (part[j] == c) && OccursAt(part, [c], j) == (part[j] == c) {
      if part[j] == c {
        assert s[j..j + 1] == [c];
        assert part[j..j + 1] == [c];
      }
      assert s[j..j + 1][0] == part[j];
      assert part[j..j + 1][0] == part[j];
    }
    if c in part {
      var j :| 0 <= j < |part| && part[j] == c;
      assert OccursAt(s, [c], j);
      assert OccursAt(part, [c], j);
    }
  }
}
