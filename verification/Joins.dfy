/** Two names joined by a separator: when different pairs give the same text. */
module Joins {

  function Join(a: string, separator: char, c: string): string { a + [separator] + c }

  /** `a` and `c` join to what `b` and `d` join to, because `b` reaches into `c`. */
  ghost predicate Overlaps(separator: char, a: string, c: string, b: string, d: string) {
    exists x :: b == Join(a, separator, x) && c == Join(x, separator, d)
  }

  lemma JoinParts(a: string, separator: char, c: string)
    ensures |Join(a, separator, c)| == |a| + 1 + |c| && Join(a, separator, c)[|a|] == separator
    ensures Join(a, separator, c)[..|a|] == a && Join(a, separator, c)[|a| + 1..] == c
  {
  }

  lemma Regroup(separator: char, a: string, x: string, d: string)
    ensures Join(a, separator, Join(x, separator, d)) == Join(Join(a, separator, x), separator, d)
  {
  }

  lemma ShorterOverlaps(separator: char, a: string, c: string, b: string, d: string)
    requires Join(a, separator, c) == Join(b, separator, d) && |a| < |b|
    ensures Overlaps(separator, a, c, b, d)
  {
    var whole := Join(a, separator, c);
    JoinParts(a, separator, c);
    JoinParts(b, separator, d);
    var x := b[|a| + 1..];
    assert b == whole[..|b|];
    assert b[..|a|] == a && b[|a|] == separator;
    assert b == Join(a, separator, x);
    Regroup(separator, a, x, d);
    JoinParts(a, separator, Join(x, separator, d));
  }

  /** Two pairs join to one text exactly when they are equal, or one's first name reaches into the other's second. */
  lemma JoinsCoincide(separator: char, a: string, c: string, b: string, d: string)
    ensures Join(a, separator, c) == Join(b, separator, d) <==>
      (a == b && c == d) || Overlaps(separator, a, c, b, d) || Overlaps(separator, b, d, a, c)
  {
    hide Join;
    JoinParts(a, separator, c);
    JoinParts(b, separator, d);
    if Join(a, separator, c) == Join(b, separator, d) {
      if |a| < |b| {
        ShorterOverlaps(separator, a, c, b, d);
      } else if |b| < |a| {
        ShorterOverlaps(separator, b, d, a, c);
      }
    }
    if x :| b == Join(a, separator, x) && c == Join(x, separator, d) {
      Regroup(separator, a, x, d);
    }
    if x :| a == Join(b, separator, x) && d == Join(x, separator, c) {
      Regroup(separator, b, x, c);
    }
  }
}
