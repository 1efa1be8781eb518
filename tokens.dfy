/**
  Event names are underscore-separated runs of text. `Split` cuts a name at
  every underscore and `Join` glues tokens back; together they are how the
  model states the shape of a name and reads one back.
 */
module Tokens {

  const Separator: char := '_'

  predicate NoSeparator(ts: seq<string>) {
    forall t | t in ts :: Separator !in t
  }

  function Join(ts: seq<string>): (s: string)
    requires |ts| >= 1
  {
    if |ts| == 1 then ts[0] else ts[0] + [Separator] + Join(ts[1..])
  }

  /** The maximal separator-free runs of `s`, in order; "" gives [""]. */
  function Split(s: string): (ts: seq<string>)
    ensures |ts| >= 1
  {
    if |s| == 0 then [""]
    else
      var rest := Split(s[1..]);
      if s[0] == Separator then [""] + rest else [[s[0]] + rest[0]] + rest[1..]
  }

  /** The tokens hold no separator, and joining them gives the text back. */
  lemma {:induction false} JoinSplit(s: string)
    ensures NoSeparator(Split(s)) && Join(Split(s)) == s
  {
    if |s| > 0 {
      var rest := Split(s[1..]);
      JoinSplit(s[1..]);
      if s[0] == Separator {
        assert Join([""] + rest) == [Separator] + Join(rest);
      } else {
        var ts := [[s[0]] + rest[0]] + rest[1..];
        assert ts[1..] == rest[1..];
      }
    }
  }

  lemma {:induction false} SplitSingle(t: string)
    requires Separator !in t
    ensures Split(t) == [t]
  {
    if |t| > 0 {
      SplitSingle(t[1..]);
      assert [t[0]] + t[1..] == t;
    }
  }

  /** Splitting distributes over a separator that starts the second part. */
  lemma {:induction false} SplitConcat(a: string, b: string)
    requires |b| >= 1 && b[0] == Separator
    ensures Split(a + b) == Split(a) + Split(b[1..])
  {
    var s := a + b;
    if |a| == 0 {
      assert s == b && s[1..] == b[1..];
    } else {
      assert s[1..] == a[1..] + b;
      SplitConcat(a[1..], b);
    }
  }

  /** Splitting distributes over a separator. */
  lemma SplitAround(a: string, b: string)
    ensures Split(a + [Separator] + b) == Split(a) + Split(b)
  {
    assert a + [Separator] + b == a + ([Separator] + b);
    SplitConcat(a, [Separator] + b);
    assert ([Separator] + b)[1..] == b;
  }

  /** Joining separator-free tokens and splitting again gives the tokens back. */
  lemma {:induction false} SplitJoin(ts: seq<string>)
    requires |ts| >= 1 && NoSeparator(ts)
    ensures Split(Join(ts)) == ts
  {
    SplitSingle(ts[0]);
    if |ts| > 1 {
      SplitAround(ts[0], Join(ts[1..]));
      SplitJoin(ts[1..]);
      assert [ts[0]] + ts[1..] == ts;
    }
  }

  /** Two texts with the same tokens are the same text. */
  lemma SplitInjective(s: string, t: string)
    requires Split(s) == Split(t)
    ensures s == t
  {
    JoinSplit(s);
    JoinSplit(t);
  }
}
