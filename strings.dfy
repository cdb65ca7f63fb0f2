/**
 * Python's `str.split(sep)` for a non-empty separator, with `sep.join` as its
 * inverse. The client splits its configured host at `"://"`.
 */
module Strings {
  import opened Wrappers

  /** `sep` occurs in `s` starting at index `i`. */
  predicate OccursAt(s: string, sep: string, i: nat) {
    i + |sep| <= |s| && s[i..i + |sep|] == sep
  }

  /** Python's `sep in s`. */
  predicate Contains(s: string, sep: string) {
    exists i | 0 <= i <= |s| - |sep| :: OccursAt(s, sep, i)
  }

  /** `t` is a suffix of `s`. */
  predicate EndsWith(s: string, t: string) {
    |t| <= |s| && s[|s| - |t|..] == t
  }

  /** `s.find(sep, i)`: the leftmost occurrence of `sep` at or after `i`. */
  function FindFrom(s: string, sep: string, i: nat): (r: Option<nat>)
    requires i <= |s|
    ensures r.Some? ==> i <= r.value && OccursAt(s, sep, r.value)
    ensures r.Some? ==> forall j :: i <= j < r.value ==> !OccursAt(s, sep, j)
    ensures r.None? ==> forall j :: i <= j <= |s| ==> !OccursAt(s, sep, j)
    decreases |s| - i
  {
    if i + |sep| > |s| then None
    else if OccursAt(s, sep, i) then Some(i)
    else FindFrom(s, sep, i + 1)
  }

  /** `s.split(sep)`: cut `s` at the leftmost occurrence of `sep`, then split the rest. */
  function Split(s: string, sep: string): (parts: seq<string>)
    requires sep != ""
    ensures |parts| >= 1
    decreases |s|
  {
    match FindFrom(s, sep, 0)
    case None => [s]
    case Some(i) => [s[..i]] + Split(s[i + |sep|..], sep)
  }

  /** `sep.join(parts)` for a non-empty list of parts. */
  function Join(parts: seq<string>, sep: string): string
    requires |parts| >= 1
    decreases |parts|
  {
    if |parts| == 1 then parts[0] else parts[0] + sep + Join(parts[1..], sep)
  }

  lemma JoinCons(p: string, rest: seq<string>, sep: string)
    requires |rest| >= 1
    ensures Join([p] + rest, sep) == p + sep + Join(rest, sep)
  {
    assert ([p] + rest)[1..] == rest;
  }

  /** Joining the pieces of a split gives back the original string. */
  lemma {:induction false} JoinSplit(s: string, sep: string)
    requires sep != ""
    ensures Join(Split(s, sep), sep) == s
    decreases |s|
  {
    match FindFrom(s, sep, 0)
    case None =>
    case Some(i) =>
      var t := s[i + |sep|..];
      var rest := Split(t, sep);
      assert Split(s, sep) == [s[..i]] + rest;
      JoinSplit(t, sep);
      JoinCons(s[..i], rest, sep);
      Reassemble(s, sep, i);
  }

  /** Cutting a string around an occurrence of the separator and gluing it back. */
  lemma Reassemble(s: string, sep: string, i: nat)
    requires OccursAt(s, sep, i)
    ensures s[..i] + sep + s[i + |sep|..] == s
  {
    assert s[i..] == s[i..i + |sep|] + s[i + |sep|..];
    assert s == s[..i] + s[i..];
  }

  /** No piece of a split contains the separator. */
  lemma {:induction false} SplitPiecesFree(s: string, sep: string)
    requires sep != ""
    ensures forall k :: 0 <= k < |Split(s, sep)| ==> !Contains(Split(s, sep)[k], sep)
    decreases |s|
  {
    var parts := Split(s, sep);
    match FindFrom(s, sep, 0)
    case None =>
      assert parts == [s];
    case Some(i) =>
      var t := s[i + |sep|..];
      var h := s[..i];
      SplitPiecesFree(t, sep);
      assert parts == [h] + Split(t, sep);
      forall j | 0 <= j <= |h| - |sep| ensures !OccursAt(h, sep, j) {
        assert h[j..j + |sep|] == s[j..j + |sep|];
        assert !OccursAt(s, sep, j);
      }
      forall k | 0 <= k < |parts| ensures !Contains(parts[k], sep) {
        if k > 0 { assert parts[k] == Split(t, sep)[k - 1]; }
      }
  }

  /** A string without the separator splits into itself alone. */
  lemma SplitWithoutSeparator(s: string, sep: string)
    requires sep != ""
    requires !Contains(s, sep)
    ensures Split(s, sep) == [s]
  {
  }

  /** A split has more than one piece exactly when the separator occurs; then the
      string begins with the first piece followed by the separator. */
  lemma SplitPiecesCount(s: string, sep: string)
    requires sep != ""
    ensures |Split(s, sep)| == 1 <==> !Contains(s, sep)
    ensures |Split(s, sep)| >= 2 ==> Split(s, sep)[0] + sep <= s
  {
    var parts := Split(s, sep);
    JoinSplit(s, sep);
    SplitPiecesFree(s, sep);
    if |parts| == 1 {
      assert !Contains(parts[0], sep);
    } else {
      var p := parts[0];
      assert s == p + sep + Join(parts[1..], sep);
      assert s[|p|..|p| + |sep|] == sep;
      assert OccursAt(s, sep, |p|);
    }
  }

  /** A joined string ends with the last of its parts. */
  lemma {:induction false} JoinEndsWithLast(parts: seq<string>, sep: string)
    requires |parts| >= 1
    ensures EndsWith(Join(parts, sep), parts[|parts| - 1])
    decreases |parts|
  {
    if |parts| > 1 {
      JoinEndsWithLast(parts[1..], sep);
      assert parts[1..][|parts[1..]| - 1] == parts[|parts| - 1];
    }
  }

  /** A join of two or more parts ends with the separator followed by the last part. */
  lemma {:induction false} JoinEndsWithSepLast(parts: seq<string>, sep: string)
    requires |parts| >= 2
    ensures EndsWith(Join(parts, sep), sep + parts[|parts| - 1])
    decreases |parts|
  {
    var u := sep + parts[|parts| - 1];
    var tail := Join(parts[1..], sep);
    var whole := parts[0] + sep + tail;
    assert Join(parts, sep) == whole;
    if |parts| == 2 {
      assert whole == parts[0] + u;
      assert whole[|whole| - |u|..] == u;
    } else {
      JoinEndsWithSepLast(parts[1..], sep);
      assert parts[1..][|parts[1..]| - 1] == parts[|parts| - 1];
      assert whole[|whole| - |u|..] == tail[|tail| - |u|..];
    }
  }

  /** Splitting `a + sep + b`, where `a` lacks the separator's first character,
      yields `a` followed by the pieces of `b`. */
  lemma SplitAfterPrefix(a: string, sep: string, b: string)
    requires sep != ""
    requires sep[0] !in a
    ensures Split(a + sep + b, sep) == [a] + Split(b, sep)
  {
    var s := a + sep + b;
    assert OccursAt(s, sep, |a|) by {
      assert s[|a|..|a| + |sep|] == sep;
    }
    forall j | 0 <= j < |a| ensures !OccursAt(s, sep, j) {
      assert s[j] == a[j];
    }
    assert FindFrom(s, sep, 0) == Some(|a|);
    assert s[..|a|] == a;
    assert s[|a| + |sep|..] == b;
  }
}
