/**
 * JavaScript's `String.prototype.split("/")`, the only string operation the
 * analytics classifier uses, together with its inverse `Join` ("/"-join).
 */
module PathSplit {

  const Slash: char := '/'

  /** True when no part of `parts` contains the separator. */
  ghost predicate NoSlash(parts: seq<string>) {
    forall i :: 0 <= i < |parts| ==> Slash !in parts[i]
  }

  /**
   * `s.split("/")`: the maximal slash-free pieces of `s`, in order; the
   * empty string splits into one empty piece, and every slash adds one piece.
   */
  function Split(s: string): (parts: seq<string>)
    ensures |parts| >= 1
    decreases |s|
  {
    if s == [] then [""]
    else if s[0] == Slash then [""] + Split(s[1..])
    else
      var rest := Split(s[1..]);
      [[s[0]] + rest[0]] + rest[1..]
  }

  /** `parts.join("/")`. */
  function Join(parts: seq<string>): string
    requires |parts| >= 1
    decreases |parts|
  {
    if |parts| == 1 then parts[0] else parts[0] + [Slash] + Join(parts[1..])
  }

  /** Number of slashes in `s`. */
  function Slashes(s: string): nat {
    if s == [] then 0 else (if s[0] == Slash then 1 else 0) + Slashes(s[1..])
  }

  /** Splitting yields exactly one more piece than there are slashes. */
  lemma {:induction false} SplitLength(s: string)
    ensures |Split(s)| == Slashes(s) + 1
    decreases |s|
  {
    if s != [] {
      SplitLength(s[1..]);
    }
  }

  /** No piece of a split contains the separator. */
  lemma {:induction false} SplitNoSlash(s: string)
    ensures NoSlash(Split(s))
    decreases |s|
  {
    if s != [] {
      SplitNoSlash(s[1..]);
      var rest := Split(s[1..]);
      if s[0] != Slash {
        assert Slash !in rest[0];
        assert Split(s)[0] == [s[0]] + rest[0];
        forall i | 1 <= i < |Split(s)| ensures Slash !in Split(s)[i] {
          assert Split(s)[i] == rest[i];
        }
      } else {
        forall i | 1 <= i < |Split(s)| ensures Slash !in Split(s)[i] {
          assert Split(s)[i] == rest[i - 1];
        }
      }
    }
  }

  /** Prepending a character to the first piece prepends it to the join. */
  lemma JoinPrepend(c: char, parts: seq<string>)
    requires |parts| >= 1
    ensures Join([[c] + parts[0]] + parts[1..]) == [c] + Join(parts)
  {
    var head := parts[0];
    var longer := [[c] + head] + parts[1..];
    assert longer[0] == [c] + head && longer[1..] == parts[1..];
    if |parts| > 1 {
      var tail := Join(parts[1..]);
      calc {
        Join(longer);
        ([c] + head) + [Slash] + tail;
        [c] + (head + [Slash] + tail);
        [c] + Join(parts);
      }
    }
  }

  /** Joining the pieces of a split gives back the original string. */
  lemma {:induction false} JoinSplit(s: string)
    ensures Join(Split(s)) == s
    decreases |s|
  {
    if s != [] {
      var tail := s[1..];
      JoinSplit(tail);
      var rest := Split(tail);
      assert s == [s[0]] + tail;
      if s[0] == Slash {
        var parts := [""] + rest;
        assert parts[1..] == rest;
        assert Join(parts) == "" + [Slash] + Join(rest);
      } else {
        JoinPrepend(s[0], rest);
      }
    }
  }

  /** Splitting a join of slash-free pieces gives back the pieces. */
  lemma {:induction false} SplitJoin(parts: seq<string>)
    requires |parts| >= 1 && NoSlash(parts)
    ensures Split(Join(parts)) == parts
    decreases |parts|, |parts[0]|
  {
    var head := parts[0];
    if head == [] {
      if |parts| > 1 {
        assert Join(parts) == [Slash] + Join(parts[1..]);
        SplitJoin(parts[1..]);
        assert Join(parts)[1..] == Join(parts[1..]);
      }
    } else {
      var shorter := [head[1..]] + parts[1..];
      assert NoSlash(shorter) by {
        forall i | 0 <= i < |shorter| ensures Slash !in shorter[i] {
          if i == 0 { assert forall c :: c in head[1..] ==> c in head; } else { assert shorter[i] == parts[i]; }
        }
      }
      SplitJoin(shorter);
      assert shorter[1..] == parts[1..];
      assert Join(parts) == [head[0]] + Join(shorter) by {
        if |parts| == 1 {
        } else {
          assert Join(shorter) == head[1..] + [Slash] + Join(parts[1..]);
        }
      }
      assert head[0] != Slash by { assert head[0] in head; }
      assert Join(parts)[1..] == Join(shorter);
      assert [head[0]] + head[1..] == head;
    }
  }
}
