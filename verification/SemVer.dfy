/** Versions and their precedence, by section 11 of Semantic Versioning 2.0.0. */
module SemVer {
  // ----- comparing lists -----

  /** A three-way comparison that orders all values, ties included. */
  ghost predicate Comparison<T(!new)>(cmp: (T, T) -> int) {
    && (forall a, b :: -1 <= cmp(a, b) <= 1 && cmp(a, b) == -cmp(b, a))
    && (forall a, b, c :: cmp(a, b) <= 0 && cmp(b, c) <= 0 ==> cmp(a, c) <= 0)
  }

  /** Element by element; if one list is a beginning of the other, it comes first. */
  function CompareLists<T>(cmp: (T, T) -> int, a: seq<T>, b: seq<T>): int {
    if a == [] then (if b == [] then 0 else -1)
    else if b == [] then 1
    else
      var c := cmp(a[0], b[0]);
      if c != 0 then c else CompareLists(cmp, a[1..], b[1..])
  }

  lemma {:induction false} ListsAntisymmetric<T(!new)>(cmp: (T, T) -> int, a: seq<T>, b: seq<T>)
    requires Comparison(cmp)
    ensures -1 <= CompareLists(cmp, a, b) <= 1
    ensures CompareLists(cmp, a, b) == -CompareLists(cmp, b, a)
  {
    if a == [] || b == [] {
    } else {
      ListsAntisymmetric(cmp, a[1..], b[1..]);
      assert cmp(a[0], b[0]) == -cmp(b[0], a[0]);
    }
  }

  lemma {:induction false} ListsTransitive<T(!new)>(cmp: (T, T) -> int, a: seq<T>, b: seq<T>, c: seq<T>)
    requires Comparison(cmp)
    requires CompareLists(cmp, a, b) <= 0 && CompareLists(cmp, b, c) <= 0
    ensures CompareLists(cmp, a, c) <= 0
  {
    if a == [] || b == [] || c == [] {
    } else {
      assert cmp(a[0], b[0]) <= 0 && cmp(b[0], c[0]) <= 0;
      if cmp(a[0], c[0]) == 0 {
        assert cmp(c[0], a[0]) == 0;
        assert cmp(c[0], b[0]) <= 0 && cmp(b[0], a[0]) <= 0;
        ListsTransitive(cmp, a[1..], b[1..], c[1..]);
      }
    }
  }

  /** At the first difference a is lower, or a ends where b goes on. */
  ghost predicate BeforeAt<T>(lower: (T, T) -> bool, a: seq<T>, b: seq<T>, k: int) {
    && 0 <= k <= |a| && k <= |b| && a[..k] == b[..k]
    && (if k == |a| then k < |b| else k < |b| && lower(a[k], b[k]))
  }

  ghost predicate Before<T>(lower: (T, T) -> bool, a: seq<T>, b: seq<T>) {
    exists k :: BeforeAt(lower, a, b, k)
  }

  /** The comparison is the given strict order, and its ties are equalities. */
  ghost predicate Compares<T(!new)>(cmp: (T, T) -> int, lower: (T, T) -> bool) {
    forall x, y :: (cmp(x, y) < 0 <==> lower(x, y)) && (cmp(x, y) == 0 <==> x == y)
  }

  lemma BeforeRest<T(!new)>(lower: (T, T) -> bool, a: seq<T>, b: seq<T>)
    requires a != [] && b != []
    requires !lower(a[0], a[0])
    ensures Before(lower, a, b) <==> lower(a[0], b[0]) || (a[0] == b[0] && Before(lower, a[1..], b[1..]))
  {
    if k :| BeforeAt(lower, a, b, k) {
      if k == 0 {
        assert lower(a[0], b[0]);
      } else {
        assert a[0] == a[..k][0] == b[..k][0] == b[0];
        assert a[1..][..k - 1] == a[..k][1..] && b[1..][..k - 1] == b[..k][1..];
        assert BeforeAt(lower, a[1..], b[1..], k - 1);
      }
    }
    if lower(a[0], b[0]) {
      assert BeforeAt(lower, a, b, 0);
    }
    if a[0] == b[0] {
      if k :| BeforeAt(lower, a[1..], b[1..], k) {
        assert a[..k + 1] == [a[0]] + a[1..][..k] && b[..k + 1] == [b[0]] + b[1..][..k];
        assert BeforeAt(lower, a, b, k + 1);
      }
    }
  }

  lemma {:induction false} CompareListsIsBefore<T(!new)>(cmp: (T, T) -> int, lower: (T, T) -> bool,
                                                       a: seq<T>, b: seq<T>)
    requires Compares(cmp, lower)
    ensures CompareLists(cmp, a, b) < 0 <==> Before(lower, a, b)
  {
    if a == [] {
      if b != [] {
        assert BeforeAt(lower, a, b, 0);
      }
    } else if b != [] {
      assert cmp(a[0], a[0]) == 0;
      assert cmp(a[0], b[0]) < 0 <==> lower(a[0], b[0]);
      BeforeRest(lower, a, b);
      CompareListsIsBefore(cmp, lower, a[1..], b[1..]);
    }
  }

  // ----- identifiers and versions -----

  function CompareChars(a: char, b: char): int {
    if a == b then 0 else if a > b then 1 else -1
  }

  function CompareNumbers(a: nat, b: nat): int {
    if a == b then 0 else if a > b then 1 else -1
  }

  datatype Identifier = Numeric(n: nat) | Alphanumeric(s: string)

  /** Numeric identifiers come before all others. */
  function CompareIdentifiers(a: Identifier, b: Identifier): int {
    match (a, b)
    case (Numeric(m), Numeric(n)) => CompareNumbers(m, n)
    case (Numeric(_), Alphanumeric(_)) => -1
    case (Alphanumeric(_), Numeric(_)) => 1
    case (Alphanumeric(s), Alphanumeric(t)) => CompareLists(CompareChars, s, t)
  }

  datatype Version = Version(major: nat, minor: nat, patch: nat, pre: seq<Identifier>, build: seq<string>)

  function Compare(v: Version, o: Version): int {
    if v.major != o.major then CompareNumbers(v.major, o.major)
    else if v.minor != o.minor then CompareNumbers(v.minor, o.minor)
    else if v.patch != o.patch then CompareNumbers(v.patch, o.patch)
    else if v.pre == [] && o.pre == [] then 0
    else if v.pre == [] then 1
    else if o.pre == [] then -1
    else CompareLists(CompareIdentifiers, v.pre, o.pre)
  }

  lemma IdentifiersCompare()
    ensures Comparison(CompareIdentifiers)
  {
    forall a: string, b: string
      ensures -1 <= CompareLists(CompareChars, a, b) <= 1
      ensures CompareLists(CompareChars, a, b) == -CompareLists(CompareChars, b, a)
    {
      ListsAntisymmetric(CompareChars, a, b);
    }
    forall a: Identifier, b: Identifier, c: Identifier | CompareIdentifiers(a, b) <= 0 && CompareIdentifiers(b, c) <= 0
      ensures CompareIdentifiers(a, c) <= 0
    {
      if a.Alphanumeric? && b.Alphanumeric? && c.Alphanumeric? {
        ListsTransitive(CompareChars, a.s, b.s, c.s);
      }
    }
  }

  lemma {:induction false} EqualLists<T(!new)>(cmp: (T, T) -> int, a: seq<T>, b: seq<T>)
    requires forall x, y :: cmp(x, y) == 0 ==> x == y
    requires CompareLists(cmp, a, b) == 0
    ensures a == b
  {
    if a == [] || b == [] {
    } else {
      EqualLists(cmp, a[1..], b[1..]);
      assert a == [a[0]] + a[1..] && b == [b[0]] + b[1..];
    }
  }

  // ----- section 11 in its own words -----

  predicate CharLower(a: char, b: char) {
    a < b
  }

  /** Numbers by value and below texts, texts by their first different character. */
  ghost predicate IdentifierLower(a: Identifier, b: Identifier) {
    if a.Numeric? && b.Numeric? then a.n < b.n
    else if a.Numeric? || b.Numeric? then a.Numeric?
    else Before(CharLower, a.s, b.s)
  }

  lemma CompareIdentifiersIsLower(a: Identifier, b: Identifier)
    ensures CompareIdentifiers(a, b) < 0 <==> IdentifierLower(a, b)
    ensures CompareIdentifiers(a, b) == 0 <==> a == b
  {
    if a.Alphanumeric? && b.Alphanumeric? {
      CompareListsIsBefore(CompareChars, CharLower, a.s, b.s);
      if CompareIdentifiers(a, b) == 0 {
        EqualLists(CompareChars, a.s, b.s);
      }
      if a == b {
        ListsAntisymmetric(CompareChars, a.s, a.s);
      }
    }
  }

  lemma IdentifiersAreCompared()
    ensures Compares(CompareIdentifiers, IdentifierLower)
  {
    forall a, b
      ensures (CompareIdentifiers(a, b) < 0 <==> IdentifierLower(a, b)) && (CompareIdentifiers(a, b) == 0 <==> a == b)
    {
      CompareIdentifiersIsLower(a, b);
    }
  }

  /** v has lower precedence than o. */
  ghost predicate Lower(v: Version, o: Version) {
    || v.major < o.major
    || (v.major == o.major && v.minor < o.minor)
    || (v.major == o.major && v.minor == o.minor && v.patch < o.patch)
    || (v.major == o.major && v.minor == o.minor && v.patch == o.patch && v.pre != [] && o.pre == [])
    || (v.major == o.major && v.minor == o.minor && v.patch == o.patch && v.pre != [] && o.pre != []
        && Before(IdentifierLower, v.pre, o.pre))
  }

  lemma CompareIsPrecedence(v: Version, o: Version)
    ensures Compare(v, o) < 0 <==> Lower(v, o)
    ensures Compare(v, o) > 0 <==> Lower(o, v)
  {
    IdentifiersAreCompared();
    CompareListsIsBefore(CompareIdentifiers, IdentifierLower, v.pre, o.pre);
    CompareListsIsBefore(CompareIdentifiers, IdentifierLower, o.pre, v.pre);
    IdentifiersCompare();
    ListsAntisymmetric(CompareIdentifiers, v.pre, o.pre);
  }

  /** Precedence orders all versions; versions of equal precedence differ in nothing but build metadata. */
  lemma PrecedenceIsTotalPreorder(u: Version, v: Version, w: Version)
    ensures Compare(v, v) == 0
    ensures -1 <= Compare(u, v) <= 1 && Compare(u, v) == -Compare(v, u)
    ensures Compare(u, v) <= 0 || Compare(v, u) <= 0
    ensures Compare(u, v) <= 0 && Compare(v, w) <= 0 ==> Compare(u, w) <= 0
  {
    IdentifiersCompare();
    ListsAntisymmetric(CompareIdentifiers, v.pre, v.pre);
    ListsAntisymmetric(CompareIdentifiers, u.pre, v.pre);
    if CompareLists(CompareIdentifiers, u.pre, v.pre) <= 0 && CompareLists(CompareIdentifiers, v.pre, w.pre) <= 0 {
      ListsTransitive(CompareIdentifiers, u.pre, v.pre, w.pre);
    }
  }

  lemma EqualPrecedence(v: Version, o: Version)
    requires Compare(v, o) == 0
    ensures v == o.(build := v.build)
  {
    if v.pre != [] && o.pre != [] {
      forall x, y | CompareIdentifiers(x, y) == 0 ensures x == y {
        if x.Alphanumeric? && y.Alphanumeric? {
          EqualLists(CompareChars, x.s, y.s);
        }
      }
      EqualLists(CompareIdentifiers, v.pre, o.pre);
    }
  }

  // ----- the examples of section 11 -----

  function Release(major: nat, minor: nat, patch: nat): Version {
    Version(major, minor, patch, [], [])
  }

  function Candidate(pre: seq<Identifier>): Version {
    Version(1, 0, 0, pre, [])
  }

  /** 1.0.0 < 2.0.0 < 2.1.0 < 2.1.1 */
  lemma ReleaseExamples()
    ensures Compare(Release(1, 0, 0), Release(2, 0, 0)) < 0
    ensures Compare(Release(2, 0, 0), Release(2, 1, 0)) < 0
    ensures Compare(Release(2, 1, 0), Release(2, 1, 1)) < 0
  {
  }

  lemma FirstDifference(a: Identifier, b: Identifier, rest: seq<Identifier>, more: seq<Identifier>)
    requires CompareIdentifiers(a, b) < 0
    ensures Compare(Candidate([a] + rest), Candidate([b] + more)) < 0
  {
    var p, q := [a] + rest, [b] + more;
    assert p[0] == a && q[0] == b;
    assert CompareLists(CompareIdentifiers, p, q) < 0;
  }

  lemma SecondDifference(first: Identifier, a: Identifier, b: Identifier)
    requires CompareIdentifiers(a, b) < 0
    ensures Compare(Candidate([first, a]), Candidate([first, b])) < 0
  {
    var p, q := [first, a], [first, b];
    CompareIdentifiersIsLower(first, first);
    assert p[1..] == [a] && q[1..] == [b];
    assert CompareLists(CompareIdentifiers, p[1..], q[1..]) < 0;
    assert CompareLists(CompareIdentifiers, p, q) < 0;
  }

  lemma MissingRest(first: Identifier, second: Identifier)
    ensures Compare(Candidate([first]), Candidate([first, second])) < 0
  {
    var p, q := [first], [first, second];
    CompareIdentifiersIsLower(first, first);
    assert p[1..] == [] && q[1..] == [second];
    assert CompareLists(CompareIdentifiers, p[1..], q[1..]) < 0;
    assert CompareLists(CompareIdentifiers, p, q) < 0;
  }

  /** 1.0.0-alpha < -alpha.1 < -alpha.beta < -beta < -beta.2 < -beta.11 < -rc.1 < 1.0.0 */
  lemma CandidateExamples()
    ensures var alpha, beta, rc := Alphanumeric("alpha"), Alphanumeric("beta"), Alphanumeric("rc");
            && Compare(Candidate([alpha]), Candidate([alpha, Numeric(1)])) < 0
            && Compare(Candidate([alpha, Numeric(1)]), Candidate([alpha, beta])) < 0
            && Compare(Candidate([alpha, beta]), Candidate([beta])) < 0
            && Compare(Candidate([beta]), Candidate([beta, Numeric(2)])) < 0
            && Compare(Candidate([beta, Numeric(2)]), Candidate([beta, Numeric(11)])) < 0
            && Compare(Candidate([beta, Numeric(11)]), Candidate([rc, Numeric(1)])) < 0
            && Compare(Candidate([rc, Numeric(1)]), Release(1, 0, 0)) < 0
  {
    var alpha, beta, rc := Alphanumeric("alpha"), Alphanumeric("beta"), Alphanumeric("rc");
    assert CompareIdentifiers(alpha, beta) < 0 by { assert "alpha"[0] == 'a' && "beta"[0] == 'b'; }
    assert CompareIdentifiers(beta, rc) < 0 by { assert "beta"[0] == 'b' && "rc"[0] == 'r'; }
    MissingRest(alpha, Numeric(1));
    SecondDifference(alpha, Numeric(1), beta);
    FirstDifference(alpha, beta, [beta], []);
    assert [alpha] + [beta] == [alpha, beta] && [beta] + [] == [beta];
    MissingRest(beta, Numeric(2));
    SecondDifference(beta, Numeric(2), Numeric(11));
    FirstDifference(beta, rc, [Numeric(11)], [Numeric(1)]);
    assert [beta] + [Numeric(11)] == [beta, Numeric(11)] && [rc] + [Numeric(1)] == [rc, Numeric(1)];
  }
}
