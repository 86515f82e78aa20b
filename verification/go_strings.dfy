/** Go's `strings.Split` for a one-character separator, with its inverse
    `strings.Join`. The token layer uses it to cut the `Authorization`
    header into fields. */
module GoStrings {

  /** Number of occurrences of `c` in `s`. */
  function Count(s: string, c: char): (n: nat)
    ensures n <= |s|
    ensures n == 0 <==> c !in s
  {
    if |s| == 0 then 0
    else (if s[0] == c then 1 else 0) + Count(s[1..], c)
  }

  /** `strings.Join(parts, string(sep))`. */
  function Join(parts: seq<string>, sep: char): string
  {
    if |parts| == 0 then ""
    else if |parts| == 1 then parts[0]
    else parts[0] + [sep] + Join(parts[1..], sep)
  }

  /** `strings.Split(s, string(sep))`: the maximal separator-free pieces of
      `s`, one more than there are separators; an empty `s` gives one empty
      piece. */
  function Split(s: string, sep: char): (parts: seq<string>)
    ensures |parts| == Count(s, sep) + 1
    ensures forall i :: 0 <= i < |parts| ==> sep !in parts[i]
    ensures Join(parts, sep) == s
  {
    if |s| == 0 then [""]
    else
      var rest := Split(s[1..], sep);
      if s[0] == sep then
        JoinCons("", rest, sep);
        [""] + rest
      else
        JoinCons([s[0]] + rest[0], rest[1..], sep);
        JoinCons(rest[0], rest[1..], sep);
        assert [rest[0]] + rest[1..] == rest;
        [[s[0]] + rest[0]] + rest[1..]
  }

  /** Joining unfolds one piece at a time. */
  lemma JoinCons(p: string, ps: seq<string>, sep: char)
    ensures Join([p] + ps, sep) == if |ps| == 0 then p else p + [sep] + Join(ps, sep)
  {
    assert ([p] + ps)[1..] == ps;
  }

  /** Splitting undoes joining, as long as no piece contains the separator. */
  lemma {:induction false} SplitJoin(parts: seq<string>, sep: char)
    requires |parts| >= 1
    requires forall i :: 0 <= i < |parts| ==> sep !in parts[i]
    ensures Split(Join(parts, sep), sep) == parts
  {
    if |parts| == 1 {
      SplitSingle(parts[0], sep);
    } else {
      SplitJoin(parts[1..], sep);
      JoinCons(parts[0], parts[1..], sep);
      assert [parts[0]] + parts[1..] == parts;
      SplitPiece(parts[0], Join(parts[1..], sep), parts[1..], sep);
    }
  }

  /** A separator-free string is a single piece. */
  lemma {:induction false} SplitSingle(p: string, sep: char)
    requires sep !in p
    ensures Split(p, sep) == [p]
  {
    if |p| > 0 {
      SplitSingle(p[1..], sep);
      assert [p[0]] + p[1..] == p;
    }
  }

  /** A separator-free prefix followed by a separator starts a new piece. */
  lemma {:induction false} SplitPiece(p: string, tail: string, ps: seq<string>, sep: char)
    requires sep !in p
    requires Split(tail, sep) == ps
    ensures Split(p + [sep] + tail, sep) == [p] + ps
  {
    var s := p + [sep] + tail;
    if |p| == 0 {
      assert s == [sep] + tail;
      SplitSepHead(tail, sep);
    } else {
      SplitPiece(p[1..], tail, ps, sep);
      assert s == [p[0]] + (p[1..] + [sep] + tail);
      SplitCharHead(p[0], p[1..] + [sep] + tail, sep);
      assert [p[0]] + p[1..] == p;
    }
  }

  /** The second piece runs from after the first separator up to the next
      separator or the end. */
  lemma {:induction false} SplitSecondField(a: string, b: string, tail: string, sep: char)
    requires sep !in a && sep !in b
    requires tail == [] || tail[0] == sep
    ensures |Split(a + [sep] + b + tail, sep)| >= 2
    ensures Split(a + [sep] + b + tail, sep)[1] == b
  {
    var rest := b + tail;
    assert a + [sep] + b + tail == a + [sep] + rest;
    SplitPiece(a, rest, Split(rest, sep), sep);
    if tail == [] {
      assert rest == b;
      SplitSingle(b, sep);
    } else {
      assert rest == b + [sep] + tail[1..];
      SplitPiece(b, tail[1..], Split(tail[1..], sep), sep);
    }
  }

  /** A leading separator closes an empty first piece. */
  lemma SplitSepHead(t: string, sep: char)
    ensures Split([sep] + t, sep) == [""] + Split(t, sep)
  {
    assert ([sep] + t)[1..] == t;
  }

  /** A leading non-separator character joins the first piece of the rest. */
  lemma SplitCharHead(c: char, t: string, sep: char)
    requires c != sep
    ensures Split([c] + t, sep) == [[c] + Split(t, sep)[0]] + Split(t, sep)[1..]
  {
    assert ([c] + t)[1..] == t;
  }
}
