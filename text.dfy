/** String helpers the pages use: `join`, the inverse `split` a CSV reader applies,
    ASCII case mapping. */
module Text {

  /** `xs.join([d])`: the pieces with `d` between neighbours; "" for no pieces. */
  function Join(xs: seq<string>, d: char): string
  {
    if |xs| == 0 then ""
    else if |xs| == 1 then xs[0]
    else xs[0] + [d] + Join(xs[1..], d)
  }

  /** Splits at every `d`; a string with k delimiters gives k + 1 pieces. */
  function Split(s: string, d: char): (r: seq<string>)
    ensures |r| >= 1
  {
    if s == [] then [[]]
    else
      var rest := Split(s[1..], d);
      if s[0] == d then [[]] + rest else [[s[0]] + rest[0]] + rest[1..]
  }

  /** Number of occurrences of `d`. */
  function Count(s: string, d: char): nat
  {
    if s == [] then 0 else (if s[0] == d then 1 else 0) + Count(s[1..], d)
  }

  function CountAll(xs: seq<string>, d: char): nat
  {
    if xs == [] then 0 else Count(xs[0], d) + CountAll(xs[1..], d)
  }

  lemma {:induction false} CountConcat(a: string, b: string, d: char)
    ensures Count(a + b, d) == Count(a, d) + Count(b, d)
  {
    if a == [] {
      assert a + b == b;
    } else {
      assert (a + b)[1..] == a[1..] + b;
      CountConcat(a[1..], b, d);
    }
  }

  lemma {:induction false} CountZero(s: string, d: char)
    ensures Count(s, d) == 0 <==> d !in s
  {
    if s != [] {
      CountZero(s[1..], d);
      assert s == [s[0]] + s[1..];
    }
  }

  /** Joining k >= 1 pieces adds k - 1 delimiters to those the pieces already hold. */
  lemma {:induction false} CountJoin(xs: seq<string>, d: char)
    requires |xs| >= 1
    ensures Count(Join(xs, d), d) == |xs| - 1 + CountAll(xs, d)
  {
    if |xs| > 1 {
      CountJoin(xs[1..], d);
      CountConcat(xs[0] + [d], Join(xs[1..], d), d);
      CountConcat(xs[0], [d], d);
      assert [d][1..] == [];
    } else {
      assert xs[1..] == [];
    }
  }

  /** The number of pieces is one more than the number of delimiters. */
  lemma {:induction false} SplitLength(s: string, d: char)
    ensures |Split(s, d)| == Count(s, d) + 1
  {
    if s != [] {
      SplitLength(s[1..], d);
    }
  }

  /** A piece free of the delimiter, followed by the delimiter, splits off as one piece. */
  lemma {:induction false} SplitPiece(a: string, b: string, d: char)
    requires d !in a
    ensures Split(a + [d] + b, d) == [a] + Split(b, d)
  {
    if a == [] {
      assert a + [d] + b == [d] + b;
      assert ([d] + b)[1..] == b;
    } else {
      var s := a + [d] + b;
      assert s[0] == a[0];
      assert s[1..] == a[1..] + [d] + b;
      SplitPiece(a[1..], b, d);
      assert [a[0]] + a[1..] == a;
    }
  }

  lemma {:induction false} SplitNoDelimiter(a: string, d: char)
    requires d !in a
    ensures Split(a, d) == [a]
  {
    if a != [] {
      SplitNoDelimiter(a[1..], d);
      assert [a[0]] + a[1..] == a;
    }
  }

  /** Splitting undoes joining when no piece holds the delimiter. */
  lemma {:induction false} SplitJoin(xs: seq<string>, d: char)
    requires |xs| >= 1
    requires forall i :: 0 <= i < |xs| ==> d !in xs[i]
    ensures Split(Join(xs, d), d) == xs
  {
    if |xs| == 1 {
      SplitNoDelimiter(xs[0], d);
    } else {
      SplitJoin(xs[1..], d);
      SplitPiece(xs[0], Join(xs[1..], d), d);
      assert [xs[0]] + xs[1..] == xs;
    }
  }

  /** Joined pieces split back into exactly as many fields iff no piece holds the
      delimiter. */
  lemma FieldCount(xs: seq<string>, d: char)
    requires |xs| >= 1
    ensures |Split(Join(xs, d), d)| == |xs| <==> CountAll(xs, d) == 0
  {
    SplitLength(Join(xs, d), d);
    CountJoin(xs, d);
  }

  lemma {:induction false} CountAllZero(xs: seq<string>, d: char)
    ensures CountAll(xs, d) == 0 <==> forall i :: 0 <= i < |xs| ==> d !in xs[i]
  {
    if xs != [] {
      CountAllZero(xs[1..], d);
      CountZero(xs[0], d);
      assert forall i :: 1 <= i < |xs| ==> xs[i] == xs[1..][i - 1];
    }
  }

  /** Case mapping on ASCII letters only; other characters are left as they are. */
  function UpperChar(c: char): char
  {
    if 'a' <= c <= 'z' then (c as int - 32) as char else c
  }

  function LowerChar(c: char): char
  {
    if 'A' <= c <= 'Z' then (c as int + 32) as char else c
  }

  /** `toLowerCase` on ASCII letters. */
  function Lower(s: string): (r: string)
    ensures |r| == |s|
    ensures forall i :: 0 <= i < |s| ==> r[i] == LowerChar(s[i])
  {
    if s == [] then [] else [LowerChar(s[0])] + Lower(s[1..])
  }

  /** Lower-casing twice is lower-casing once. */
  lemma LowerIdempotent(s: string)
    ensures Lower(Lower(s)) == Lower(s)
  {
    var once := Lower(s);
    assert forall i :: 0 <= i < |once| ==> LowerChar(once[i]) == once[i];
  }
}
