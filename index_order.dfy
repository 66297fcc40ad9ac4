/** The order that JavaScript's `<` puts on strings, which the indexed queue
    uses to compare queue indices: lexicographic comparison of characters,
    where a proper prefix sorts first. */
module IndexOrder {

  predicate Less(a: string, b: string)
  {
    if a == [] then b != []
    else if b == [] then false
    else if a[0] != b[0] then a[0] < b[0]
    else Less(a[1..], b[1..])
  }

  lemma {:induction false} LessIrreflexive(a: string)
    ensures !Less(a, a)
  {
    if a != [] {
      LessIrreflexive(a[1..]);
    }
  }

  lemma {:induction false} LessTransitive(a: string, b: string, c: string)
    requires Less(a, b) && Less(b, c)
    ensures Less(a, c)
  {
    if a != [] && b != [] && c != [] && a[0] == b[0] && b[0] == c[0] {
      LessTransitive(a[1..], b[1..], c[1..]);
    }
  }

  lemma {:induction false} LessTrichotomy(a: string, b: string)
    ensures a == b || Less(a, b) || Less(b, a)
  {
    if a != [] && b != [] && a[0] == b[0] {
      LessTrichotomy(a[1..], b[1..]);
      assert a == [a[0]] + a[1..] && b == [b[0]] + b[1..];
    }
  }

  lemma LessAsymmetric(a: string, b: string)
    requires Less(a, b)
    ensures !Less(b, a)
  {
    if Less(b, a) {
      LessTransitive(a, b, a);
      LessIrreflexive(a);
    }
  }
}
