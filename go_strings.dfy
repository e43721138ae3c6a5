/** Go's strings.Join and strings.Split over `seq<char>`, and the fact
    that splitting undoes joining when no element holds the separator's
    first character. */
module GoStrings {

  /** strings.Join: the elements with `sep` between neighbours. */
  function Join(xs: seq<string>, sep: string): string
  {
    if xs == [] then "" else if |xs| == 1 then xs[0] else xs[0] + sep + Join(xs[1..], sep)
  }

  /** strings.Split for a non-empty separator: the pieces between occurrences of `sep`,
      scanning left to right. */
  function Split(s: string, sep: string): seq<string>
    requires sep != []
  {
    SplitFrom(s, sep, "")
  }

  /** Splitting the rest of the input `s` when the piece read so far is `cur`. */
  function SplitFrom(s: string, sep: string, cur: string): seq<string>
    requires sep != []
    decreases |s|
  {
    if s == [] then [cur]
    else if sep <= s then [cur] + SplitFrom(s[|sep|..], sep, "")
    else SplitFrom(s[1..], sep, cur + [s[0]])
  }

  /** A word that does not contain the separator's first character is read whole. */
  lemma {:induction false} SplitSkipsWord(w: string, rest: string, sep: string, cur: string)
    requires sep != [] && sep[0] !in w
    ensures SplitFrom(w + rest, sep, cur) == SplitFrom(rest, sep, cur + w)
    decreases |w|
  {
    if w != [] {
      var s := w + rest;
      assert s[0] == w[0] != sep[0];
      assert !(sep <= s);
      assert s[1..] == w[1..] + rest;
      SplitSkipsWord(w[1..], rest, sep, cur + [w[0]]);
      assert cur + [w[0]] + w[1..] == cur + w;
    } else {
      assert w + rest == rest;
      assert cur + w == cur;
    }
  }

  /** Split inverts Join when no element contains the separator's first character. */
  lemma {:induction false} SplitJoin(xs: seq<string>, sep: string)
    requires sep != [] && xs != []
    requires forall i :: 0 <= i < |xs| ==> sep[0] !in xs[i]
    ensures Split(Join(xs, sep), sep) == xs
    decreases |xs|
  {
    if |xs| == 1 {
      SplitSkipsWord(xs[0], "", sep, "");
      assert xs[0] + "" == xs[0] && "" + xs[0] == xs[0];
      assert SplitFrom("", sep, xs[0]) == [xs[0]];
    } else {
      var tail := Join(xs[1..], sep);
      assert Join(xs, sep) == xs[0] + (sep + tail);
      SplitSkipsWord(xs[0], sep + tail, sep, "");
      assert sep <= sep + tail;
      assert (sep + tail)[|sep|..] == tail;
      assert SplitFrom(sep + tail, sep, "" + xs[0]) == [xs[0]] + SplitFrom(tail, sep, "") by {
        assert "" + xs[0] == xs[0];
      }
      SplitJoin(xs[1..], sep);
      assert [xs[0]] + xs[1..] == xs;
    }
  }
}
