/** The two ways the router cuts a dotted class name into pieces:
    `split(separator: ".")`, which drops empty pieces, and
    `components(separatedBy: ".")`, which keeps them. */
module Names {

  const Dot: char := '.'

  ghost predicate DotFree(w: string) {
    Dot !in w
  }

  ghost predicate AllDots(s: string) {
    forall i :: 0 <= i < |s| ==> s[i] == Dot
  }

  /** `components(separatedBy: ".")`: the pieces between dots, empty ones
      included, so there is always at least one. */
  function Components(s: string): (parts: seq<string>)
    ensures |parts| >= 1
    ensures forall i :: 0 <= i < |parts| ==> DotFree(parts[i])
  {
    if s == [] then [""]
    else
      var rest := Components(s[1..]);
      if s[0] == Dot then [""] + rest
      else [[s[0]] + rest[0]] + rest[1..]
  }

  /** The pieces glued back together with a dot between neighbours. */
  function Join(parts: seq<string>): string
    requires |parts| >= 1
  {
    if |parts| == 1 then parts[0] else parts[0] + [Dot] + Join(parts[1..])
  }

  /** The pieces that are not empty, in order (see `NonEmptyAppend` for the
      order). */
  function NonEmpty(parts: seq<string>): (kept: seq<string>)
    ensures |kept| <= |parts|
    ensures forall i :: 0 <= i < |kept| ==> kept[i] != [] && kept[i] in parts
    ensures forall p :: p in parts && p != [] ==> p in kept
  {
    if parts == [] then []
    else if parts[0] == [] then NonEmpty(parts[1..])
    else [parts[0]] + NonEmpty(parts[1..])
  }

  /** Dropping empty pieces works piece by piece: a single piece is kept
      exactly when it is not empty (`NonEmptySingle`), and the pieces of a
      concatenation are filtered in place, so the order is kept
      (`NonEmptyAppend`). */
  lemma NonEmptySingle(p: string)
    ensures NonEmpty([p]) == if p == [] then [] else [p]
  {
    assert [p][1..] == [];
  }

  lemma {:induction false} NonEmptyAppend(a: seq<string>, b: seq<string>)
    ensures NonEmpty(a + b) == NonEmpty(a) + NonEmpty(b)
  {
    if a != [] {
      NonEmptyAppend(a[1..], b);
      assert (a + b)[1..] == a[1..] + b;
    } else {
      assert a + b == b;
    }
  }

  /** `split(separator: ".")` with its default of omitting empty pieces. */
  function Split(s: string): (names: seq<string>)
    ensures forall i :: 0 <= i < |names| ==> names[i] != [] && DotFree(names[i])
  {
    NonEmpty(Components(s))
  }

  /** Splitting a dot-join of dot-free pieces yields the non-empty pieces,
      in order. */
  lemma {:induction false} SplitJoin(parts: seq<string>)
    requires |parts| >= 1
    requires forall i :: 0 <= i < |parts| ==> DotFree(parts[i])
    ensures Split(Join(parts)) == NonEmpty(parts)
  {
    ComponentsJoin(parts);
  }

  /** The last piece of `components(separatedBy: ".")`, which always exists. */
  function LastComponent(s: string): (w: string)
    ensures DotFree(w)
    ensures |w| <= |s| && s[|s| - |w|..] == w
    ensures |w| < |s| ==> s[|s| - |w| - 1] == Dot
  {
    var parts := Components(s);
    JoinComponents(s);
    JoinLast(parts);
    parts[|parts| - 1]
  }

  /** Cutting at dots and joining with dots gives back the name. */
  lemma {:induction false} JoinComponents(s: string)
    ensures Join(Components(s)) == s
  {
    if s != [] {
      var rest := Components(s[1..]);
      JoinComponents(s[1..]);
      if s[0] == Dot {
        assert ([""] + rest)[1..] == rest;
      } else {
        var parts := [[s[0]] + rest[0]] + rest[1..];
        if |rest| == 1 {
          assert Join(parts) == [s[0]] + rest[0];
        } else {
          assert parts[1..] == rest[1..];
          assert Join(parts) == [s[0]] + (rest[0] + [Dot] + Join(rest[1..]));
        }
        assert s == [s[0]] + s[1..];
      }
    }
  }

  /** A joined name ends with its last piece, after a dot when there are
      several pieces. */
  lemma {:induction false} JoinLast(parts: seq<string>)
    requires |parts| >= 1
    ensures |parts| == 1 ==> Join(parts) == parts[0]
    ensures |parts| > 1 ==> Join(parts) == Join(parts[..|parts| - 1]) + [Dot] + parts[|parts| - 1]
  {
    if |parts| > 2 {
      JoinLast(parts[1..]);
      assert parts[1..][..|parts| - 2] == parts[..|parts| - 1][1..];
    } else if |parts| == 2 {
      assert parts[..1] == [parts[0]];
    }
  }

  /** A piece without dots is its own only component. */
  lemma {:induction false} ComponentsOfWord(w: string)
    requires DotFree(w)
    ensures Components(w) == [w]
  {
    if w != [] {
      ComponentsOfWord(w[1..]);
      assert w == [w[0]] + w[1..];
    }
  }

  /** A dot after a dot-free prefix cuts exactly there. */
  lemma {:induction false} ComponentsAfterWord(w: string, t: string)
    requires DotFree(w)
    ensures Components(w + [Dot] + t) == [w] + Components(t)
  {
    var s := w + [Dot] + t;
    if w == [] {
      assert s == [Dot] + t && s[1..] == t;
    } else {
      assert s[1..] == w[1..] + [Dot] + t;
      ComponentsAfterWord(w[1..], t);
      assert w == [w[0]] + w[1..];
    }
  }

  /** Joining dot-free pieces and cutting again gives back the pieces. */
  lemma {:induction false} ComponentsJoin(parts: seq<string>)
    requires |parts| >= 1
    requires forall i :: 0 <= i < |parts| ==> DotFree(parts[i])
    ensures Components(Join(parts)) == parts
  {
    if |parts| == 1 {
      ComponentsOfWord(parts[0]);
    } else {
      ComponentsJoin(parts[1..]);
      ComponentsAfterWord(parts[0], Join(parts[1..]));
      assert parts == [parts[0]] + parts[1..];
    }
  }

  /** `split` finds nothing exactly when the name is made of dots only. */
  lemma {:induction false} SplitEmptyIff(s: string)
    ensures Split(s) == [] <==> AllDots(s)
  {
    if s != [] {
      var rest := Components(s[1..]);
      SplitEmptyIff(s[1..]);
      if s[0] == Dot {
        assert ([""] + rest)[1..] == rest;
        assert AllDots(s) <==> AllDots(s[1..]);
      } else {
        assert Components(s)[0] != [];
        assert !AllDots(s);
      }
    }
  }
}
