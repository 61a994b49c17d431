/** Facts about sequences shared by the modules: weighted sums, flattening and
    the slicing done by Rust's `chunks`. */
module Sequences {
  import opened Wrappers

  // ----- weighted sums

  ghost function Sum<T(!new)>(s: seq<T>, w: T -> nat): nat
  {
    if |s| == 0 then 0 else w(s[0]) + Sum(s[1..], w)
  }

  lemma {:induction false} SumConcat<T(!new)>(a: seq<T>, b: seq<T>, w: T -> nat)
    ensures Sum(a + b, w) == Sum(a, w) + Sum(b, w)
  {
    if |a| == 0 {
      assert a + b == b;
    } else {
      assert (a + b)[1..] == a[1..] + b;
      SumConcat(a[1..], b, w);
    }
  }

  lemma SumOne<T(!new)>(x: T, w: T -> nat)
    ensures Sum([x], w) == w(x)
  {
    assert Sum([x][1..], w) == 0;
  }

  lemma SumAppend<T(!new)>(s: seq<T>, x: T, w: T -> nat)
    ensures Sum(s + [x], w) == Sum(s, w) + w(x)
  {
    SumConcat(s, [x], w);
    SumOne(x, w);
  }

  lemma SumPop<T(!new)>(s: seq<T>, w: T -> nat)
    requires |s| > 0
    ensures Sum(s, w) == w(s[0]) + Sum(s[1..], w)
  {
  }

  /** Replacing one element changes the sum by the difference of the weights. */
  lemma {:induction false} SumUpdate<T(!new)>(s: seq<T>, i: nat, x: T, w: T -> nat)
    requires i < |s|
    ensures Sum(s[i := x], w) + w(s[i]) == Sum(s, w) + w(x)
  {
    if i == 0 {
      assert s[i := x][1..] == s[1..];
    } else {
      assert s[i := x][1..] == s[1..][i - 1 := x];
      SumUpdate(s[1..], i - 1, x, w);
    }
  }

  lemma {:induction false} SumZero<T(!new)>(s: seq<T>, w: T -> nat)
    requires forall x :: x in s ==> w(x) == 0
    ensures Sum(s, w) == 0
  {
    if |s| > 0 {
      assert forall x :: x in s[1..] ==> x in s;
      SumZero(s[1..], w);
    }
  }

  lemma {:induction false} SumHas<T(!new)>(s: seq<T>, i: nat, w: T -> nat)
    requires i < |s|
    ensures Sum(s, w) >= w(s[i])
  {
    if i > 0 {
      SumHas(s[1..], i - 1, w);
    }
  }

  /** A 0/1 weighted sum that reaches the length is 1 everywhere, and only then. */
  lemma {:induction false} SumFull<T(!new)>(s: seq<T>, w: T -> nat)
    requires forall x :: x in s ==> w(x) <= 1
    ensures Sum(s, w) <= |s|
    ensures Sum(s, w) == |s| <==> forall x :: x in s ==> w(x) == 1
  {
    if |s| > 0 {
      assert forall x :: x in s <==> x == s[0] || x in s[1..];
      SumFull(s[1..], w);
    }
  }

  // ----- flattening

  function Flatten<T>(ss: seq<seq<T>>): seq<T>
  {
    if |ss| == 0 then [] else ss[0] + Flatten(ss[1..])
  }

  lemma {:induction false} FlattenAppend<T>(ss: seq<seq<T>>, s: seq<T>)
    ensures Flatten(ss + [s]) == Flatten(ss) + s
  {
    if |ss| == 0 {
      assert ss + [s] == [s];
      assert Flatten([s]) == s + Flatten([s][1..]);
    } else {
      assert (ss + [s])[1..] == ss[1..] + [s];
      FlattenAppend(ss[1..], s);
      assert Flatten(ss + [s]) == ss[0] + (Flatten(ss[1..]) + s);
    }
  }

  lemma FlattenCons<T>(s: seq<T>, ss: seq<seq<T>>)
    ensures Flatten([s] + ss) == s + Flatten(ss)
  {
    assert ([s] + ss)[1..] == ss;
  }

  // ----- chunks

  function CeilDiv(n: nat, b: nat): (c: nat)
    requires b >= 1
    ensures n <= c * b
    ensures c > 0 ==> (c - 1) * b < n
  {
    (n + b - 1) / b
  }

  /** The two facts of CeilDiv determine it. */
  lemma CeilDivUnique(n: nat, b: nat, c: nat)
    requires b >= 1
    requires n <= c * b
    requires c > 0 ==> (c - 1) * b < n
    ensures c == CeilDiv(n, b)
  {
    var d := CeilDiv(n, b);
    if c < d {
      assert c * b <= (d - 1) * b by { MulMono(c, d - 1, b); }
    } else if d < c {
      assert d * b <= (c - 1) * b by { MulMono(d, c - 1, b); }
    }
  }

  lemma MulMono(x: nat, y: nat, b: nat)
    requires x <= y
    ensures x * b <= y * b
  {
    assert y * b == x * b + (y - x) * b;
  }

  /** Rust's `slice.chunks(b)`: consecutive slices of length b, the last possibly shorter. */
  function Chunks<T>(s: seq<T>, b: nat): (cs: seq<seq<T>>)
    requires b >= 1
    decreases |s|
  {
    if |s| == 0 then [] else if |s| <= b then [s] else [s[..b]] + Chunks(s[b..], b)
  }

  lemma {:induction false} FlattenChunks<T>(s: seq<T>, b: nat)
    requires b >= 1
    ensures Flatten(Chunks(s, b)) == s
    decreases |s|
  {
    if |s| == 0 {
    } else if |s| <= b {
      FlattenCons(s, []);
    } else {
      FlattenChunks(s[b..], b);
      FlattenCons(s[..b], Chunks(s[b..], b));
      assert s == s[..b] + s[b..];
    }
  }

  lemma {:induction false} ChunkCount<T>(s: seq<T>, b: nat)
    requires b >= 1
    ensures |Chunks(s, b)| == CeilDiv(|s|, b)
    decreases |s|
  {
    if |s| == 0 {
      CeilDivUnique(0, b, 0);
    } else if |s| <= b {
      CeilDivUnique(|s|, b, 1);
    } else {
      ChunkCount(s[b..], b);
      var c := CeilDiv(|s| - b, b);
      assert (c + 1) * b == c * b + b;
      assert c > 0 ==> c * b == (c - 1) * b + b;
      CeilDivUnique(|s|, b, c + 1);
    }
  }

  /** Every chunk is the slice at its own offset, and holds 1 to b elements. */
  lemma {:induction false} ChunkAt<T>(s: seq<T>, b: nat, i: nat)
    requires b >= 1 && i < |Chunks(s, b)|
    ensures i * b < |s|
    ensures Chunks(s, b)[i] == s[i * b..Min((i + 1) * b, |s|)]
    ensures 1 <= |Chunks(s, b)[i]| <= b
    decreases |s|
  {
    if |s| <= b {
      assert i == 0 && i * b == 0 && (i + 1) * b == b;
      assert s[0..|s|] == s;
    } else if i == 0 {
      assert i * b == 0 && (i + 1) * b == b;
    } else {
      ChunkAt(s[b..], b, i - 1);
      var lo, hi := (i - 1) * b, Min(i * b, |s| - b);
      assert i * b == lo + b && (i + 1) * b == i * b + b;
      assert Chunks(s, b)[i] == Chunks(s[b..], b)[i - 1];
      SliceOfDrop(s, b, lo, hi);
    }
  }

  lemma SliceOfDrop<T>(s: seq<T>, d: nat, lo: nat, hi: nat)
    requires lo <= hi && d + hi <= |s|
    ensures s[d..][lo..hi] == s[d + lo..d + hi]
  {
  }

  lemma DivBounds(p: nat, b: nat, i: nat)
    requires b >= 1
    ensures i * b <= p < (i + 1) * b <==> i == p / b
  {
    var d := p / b;
    assert d * b <= p < d * b + b;
    assert (d + 1) * b == d * b + b;
    if i < d {
      MulMono(i + 1, d, b);
    } else if i > d {
      MulMono(d + 1, i, b);
    }
  }

  /** The element at position p sits in chunk p / b. */
  lemma ChunkHolds<T>(s: seq<T>, b: nat, p: nat)
    requires b >= 1 && p < |s|
    ensures p / b < |Chunks(s, b)|
    ensures s[p] in Chunks(s, b)[p / b]
  {
    var i := p / b;
    DivBounds(p, b, i);
    ChunkCount(s, b);
    var c := CeilDiv(|s|, b);
    if c <= i {
      MulMono(c, i, b);
    }
    ChunkAt(s, b, i);
    var slice := s[i * b..Min((i + 1) * b, |s|)];
    assert slice[p - i * b] == s[p];
  }

  /** Element j of chunk i is the element at a position p with p / b == i. */
  lemma ChunkElement<T>(s: seq<T>, b: nat, i: nat, j: nat) returns (p: nat)
    requires b >= 1 && i < |Chunks(s, b)| && j < |Chunks(s, b)[i]|
    ensures p < |s| && p / b == i
    ensures Chunks(s, b)[i][j] == s[p]
  {
    ChunkAt(s, b, i);
    assert (i + 1) * b == i * b + b;
    p := i * b + j;
    DivBounds(p, b, i);
  }
}
