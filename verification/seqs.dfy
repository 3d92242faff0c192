/** The nullable values of the application (`string | null`, `find` that may
    return `undefined`, the fields of a `Partial<...>` update). */
module Options {

  datatype Option<+T> = None | Some(value: T) {

    /** The carried value, or `default` when there is none. */
    function GetOr(default: T): T {
      match this
      case Some(v) => v
      case None => default
    }
  }
}

/** Generic list operations used by the store: the `filter`, `slice(-n)`,
    `join` and substring-containment of the JavaScript runtime. */
module Seqs {

  /** `xs.filter(keep)`: the elements satisfying `keep`, in their original order. */
  function Filter<T>(xs: seq<T>, keep: T -> bool): (r: seq<T>)
    ensures |r| <= |xs|
    ensures forall i :: 0 <= i < |r| ==> keep(r[i])
    decreases |xs|
  {
    if xs == [] then []
    else if keep(xs[0]) then [xs[0]] + Filter(xs[1..], keep)
    else Filter(xs[1..], keep)
  }

  /** The filtered sequence holds only elements of the original, and every
      element of the original that passes. */
  lemma {:induction false} FilterMembers<T>(xs: seq<T>, keep: T -> bool)
    ensures forall i :: 0 <= i < |Filter(xs, keep)| ==> Filter(xs, keep)[i] in xs
    ensures forall i :: 0 <= i < |xs| && keep(xs[i]) ==> xs[i] in Filter(xs, keep)
    decreases |xs|
  {
    if xs != [] {
      var r, t := Filter(xs, keep), Filter(xs[1..], keep);
      FilterMembers(xs[1..], keep);
      forall i | 0 <= i < |r| ensures r[i] in xs {
        if keep(xs[0]) && i == 0 {
        } else {
          var j := if keep(xs[0]) then i - 1 else i;
          assert r[i] == t[j] && t[j] in xs[1..];
        }
      }
      forall i | 0 <= i < |xs| && keep(xs[i]) ensures xs[i] in r {
        if i > 0 {
          assert xs[i] == xs[1..][i - 1];
        }
      }
    }
  }

  /** Filtering distributes over concatenation: the survivors of a prefix come
      before the survivors of the rest, which is what "keeps the relative
      order" means. */
  lemma {:induction false} FilterAppend<T>(xs: seq<T>, ys: seq<T>, keep: T -> bool)
    ensures Filter(xs + ys, keep) == Filter(xs, keep) + Filter(ys, keep)
    decreases |xs|
  {
    if xs == [] {
      assert xs + ys == ys;
    } else {
      assert (xs + ys)[0] == xs[0];
      assert (xs + ys)[1..] == xs[1..] + ys;
      FilterAppend(xs[1..], ys, keep);
    }
  }

  /** Filtering a sequence whose elements all pass is the identity. */
  lemma {:induction false} FilterAllKept<T>(xs: seq<T>, keep: T -> bool)
    requires forall i :: 0 <= i < |xs| ==> keep(xs[i])
    ensures Filter(xs, keep) == xs
    decreases |xs|
  {
    if xs != [] {
      FilterAllKept(xs[1..], keep);
    }
  }

  /** Filtering a sequence no element of which passes yields nothing. */
  lemma {:induction false} FilterNoneKept<T>(xs: seq<T>, keep: T -> bool)
    requires forall i :: 0 <= i < |xs| ==> !keep(xs[i])
    ensures Filter(xs, keep) == []
    decreases |xs|
  {
    if xs != [] {
      FilterNoneKept(xs[1..], keep);
    }
  }

  /** Nothing survives exactly when no element passes, and everything does
      when every element passes. */
  lemma FilterCount<T>(xs: seq<T>, keep: T -> bool)
    ensures |Filter(xs, keep)| == 0 <==> forall i :: 0 <= i < |xs| ==> !keep(xs[i])
    ensures (forall i :: 0 <= i < |xs| ==> keep(xs[i])) ==> |Filter(xs, keep)| == |xs|
  {
    if forall i :: 0 <= i < |xs| ==> !keep(xs[i]) {
      FilterNoneKept(xs, keep);
    } else {
      var i :| 0 <= i < |xs| && keep(xs[i]);
      FilterMembers(xs, keep);
      assert xs[i] in Filter(xs, keep);
    }
    if forall i :: 0 <= i < |xs| ==> keep(xs[i]) {
      FilterAllKept(xs, keep);
    }
  }

  /** A predicate and its negation split a sequence: the two filtered parts
      together are exactly as long as the whole. */
  lemma {:induction false} FilterComplement<T>(xs: seq<T>, keep: T -> bool, drop: T -> bool)
    requires forall x :: drop(x) == !keep(x)
    ensures |Filter(xs, keep)| + |Filter(xs, drop)| == |xs|
    decreases |xs|
  {
    if xs != [] {
      FilterComplement(xs[1..], keep, drop);
    }
  }

  /** Changing one element from failing to passing, and nothing else, makes
      the filtered sequence exactly one element longer. */
  lemma {:induction false} FilterGrowsByOne<T>(xs: seq<T>, ys: seq<T>, k: nat, keep: T -> bool)
    requires |xs| == |ys| && k < |xs|
    requires forall i :: 0 <= i < |xs| && i != k ==> xs[i] == ys[i]
    requires !keep(xs[k]) && keep(ys[k])
    ensures |Filter(ys, keep)| == |Filter(xs, keep)| + 1
  {
    assert xs == xs[..k] + [xs[k]] + xs[k+1..];
    assert ys == ys[..k] + [ys[k]] + ys[k+1..];
    assert xs[..k] == ys[..k];
    assert xs[k+1..] == ys[k+1..];
    FilterAppend(xs[..k] + [xs[k]], xs[k+1..], keep);
    FilterAppend(xs[..k], [xs[k]], keep);
    FilterAppend(ys[..k] + [ys[k]], ys[k+1..], keep);
    FilterAppend(ys[..k], [ys[k]], keep);
  }

  /** Filtering out exactly one element leaves the elements before it
      followed by the elements after it. */
  lemma {:induction false} FilterDropsOne<T>(xs: seq<T>, k: nat, keep: T -> bool)
    requires k < |xs| && !keep(xs[k])
    requires forall i :: 0 <= i < |xs| && i != k ==> keep(xs[i])
    ensures Filter(xs, keep) == xs[..k] + xs[k + 1..]
    decreases k
  {
    var rest := xs[1..];
    if k == 0 {
      assert Filter(rest, keep) == rest by {
        forall i | 0 <= i < |rest| ensures keep(rest[i]) {
          assert rest[i] == xs[i + 1];
        }
        FilterAllKept(rest, keep);
      }
      assert xs[..0] + xs[1..] == rest;
    } else {
      assert Filter(rest, keep) == rest[..k - 1] + rest[k..] by {
        forall i | 0 <= i < |rest| && i != k - 1 ensures keep(rest[i]) {
          assert rest[i] == xs[i + 1];
        }
        FilterDropsOne(rest, k - 1, keep);
      }
      assert rest[..k - 1] == xs[1..k];
      assert rest[k..] == xs[k + 1..];
      assert xs[..k] == [xs[0]] + xs[1..k];
    }
  }

  /** `xs.slice(-n)` for `n > 0`: the last `n` elements, or all of them when
      there are fewer. */
  function TakeLast<T>(xs: seq<T>, n: nat): (r: seq<T>)
    ensures |r| == if |xs| < n then |xs| else n
    ensures xs == xs[..|xs| - |r|] + r
  {
    if |xs| < n then xs else xs[|xs| - n..]
  }

  /** The last three elements of a sequence of three or more. */
  lemma TakeLastThree<T>(xs: seq<T>)
    requires |xs| >= 3
    ensures TakeLast(xs, 3) == [xs[|xs| - 3], xs[|xs| - 2], xs[|xs| - 1]]
  {
    var r := TakeLast(xs, 3);
    assert r == xs[|xs| - 3..];
    assert r[0] == xs[|xs| - 3] && r[1] == xs[|xs| - 2] && r[2] == xs[|xs| - 1];
  }

  /** `parts.join(sep)`. */
  function Join(parts: seq<string>, sep: string): string
    decreases |parts|
  {
    if |parts| == 0 then ""
    else if |parts| == 1 then parts[0]
    else parts[0] + sep + Join(parts[1..], sep)
  }

  /** A join of three parts. */
  lemma JoinThree(a: string, b: string, c: string, sep: string)
    ensures Join([a, b, c], sep) == a + sep + b + sep + c
  {
    assert [a, b, c][1..] == [b, c];
    assert [b, c][1..] == [c];
    assert Join([b, c], sep) == b + sep + Join([c], sep);
  }

  /** With a non-empty separator, a join is empty only when there is nothing
      to join or a single empty part. */
  lemma {:induction false} JoinEmpty(parts: seq<string>, sep: string)
    requires sep != ""
    ensures Join(parts, sep) == "" <==> |parts| == 0 || (|parts| == 1 && parts[0] == "")
  {
    if |parts| >= 2 {
      assert |Join(parts, sep)| >= |sep|;
    }
  }

  /** `needle` occurs in `hay` starting at position `i`. */
  predicate OccursAt(hay: string, needle: string, i: int) {
    0 <= i <= |hay| - |needle| && hay[i..i + |needle|] == needle
  }

  /** `hay.includes(needle)`. */
  ghost predicate Contains(hay: string, needle: string) {
    exists i :: OccursAt(hay, needle, i)
  }

  /** The pieces of a template laid end to end. */
  function Concat(parts: seq<string>): string
    decreases |parts|
  {
    if parts == [] then "" else parts[0] + Concat(parts[1..])
  }

  /** Laying out two runs of pieces is laying out their concatenation. */
  lemma {:induction false} ConcatAppend(xs: seq<string>, ys: seq<string>)
    ensures Concat(xs + ys) == Concat(xs) + Concat(ys)
    decreases |xs|
  {
    if xs == [] {
      assert xs + ys == ys;
    } else {
      assert (xs + ys)[1..] == xs[1..] + ys;
      ConcatAppend(xs[1..], ys);
    }
  }

  /** Any run of consecutive pieces occurs in the laid-out template, starting
      where the pieces before it end. */
  lemma PiecesOccur(parts: seq<string>, i: nat, j: nat)
    requires i <= j <= |parts|
    ensures OccursAt(Concat(parts), Concat(parts[i..j]), |Concat(parts[..i])|)
    ensures Contains(Concat(parts), Concat(parts[i..j]))
  {
    assert parts == parts[..i] + parts[i..j] + parts[j..];
    ConcatAppend(parts[..i] + parts[i..j], parts[j..]);
    ConcatAppend(parts[..i], parts[i..j]);
    var whole := Concat(parts);
    var a, b := Concat(parts[..i]), Concat(parts[i..j]);
    assert whole[|a|..|a| + |b|] == b;
    assert OccursAt(whole, b, |a|);
  }

  /** One piece laid out is that piece. */
  lemma ConcatOne(a: string)
    ensures Concat([a]) == a
  {
    assert [a][1..] == [];
  }

  /** Three pieces laid out. */
  lemma ConcatThree(a: string, b: string, c: string)
    ensures Concat([a, b, c]) == a + b + c
  {
    assert [a, b, c][1..] == [b, c];
    assert [b, c][1..] == [c];
    ConcatOne(c);
    assert Concat([b, c]) == b + c;
  }
}
