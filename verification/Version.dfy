/** Comparisons as total orders: text, and version precedence after section 11 of SemVer 2.0.0. */
module Version {

  datatype Ordering = Lt | Eq | Gt

  function Flip(o: Ordering): Ordering {
    match o case Lt => Gt case Eq => Eq case Gt => Lt
  }

  /** A comparison of a strict total order. */
  ghost predicate Total<T(!new)>(cmp: (T, T) -> Ordering) {
    && (forall a, b :: cmp(a, b) == Eq <==> a == b)
    && (forall a, b :: cmp(a, b) == Flip(cmp(b, a)))
    && (forall a, b, c :: cmp(a, b) == Lt && cmp(b, c) == Lt ==> cmp(a, c) == Lt)
  }

  // ---------------------------------------------------------------- sequences

  /** Element by element; a proper prefix comes first. */
  function Lex<T>(a: seq<T>, b: seq<T>, cmp: (T, T) -> Ordering): Ordering {
    if a == [] && b == [] then Eq
    else if a == [] then Lt
    else if b == [] then Gt
    else if cmp(a[0], b[0]) == Eq then Lex(a[1..], b[1..], cmp)
    else cmp(a[0], b[0])
  }

  lemma {:induction false} LexEq<T(!new)>(a: seq<T>, b: seq<T>, cmp: (T, T) -> Ordering)
    requires Total(cmp)
    ensures Lex(a, b, cmp) == Eq <==> a == b
  {
    if a != [] && b != [] {
      LexEq(a[1..], b[1..], cmp);
      assert a == [a[0]] + a[1..] && b == [b[0]] + b[1..];
    }
  }

  lemma {:induction false} LexFlip<T(!new)>(a: seq<T>, b: seq<T>, cmp: (T, T) -> Ordering)
    requires Total(cmp)
    ensures Lex(a, b, cmp) == Flip(Lex(b, a, cmp))
  {
    if a != [] && b != [] { LexFlip(a[1..], b[1..], cmp); }
  }

  lemma {:induction false} LexTrans<T(!new)>(a: seq<T>, b: seq<T>, c: seq<T>, cmp: (T, T) -> Ordering)
    requires Total(cmp) && Lex(a, b, cmp) == Lt && Lex(b, c, cmp) == Lt
    ensures Lex(a, c, cmp) == Lt
  {
    if a != [] && cmp(a[0], b[0]) == Eq && cmp(b[0], c[0]) == Eq {
      LexTrans(a[1..], b[1..], c[1..], cmp);
    }
  }

  // ---------------------------------------------------------------- text

  function CompareChar(a: char, b: char): Ordering {
    if a < b then Lt else if a == b then Eq else Gt
  }

  function CompareText(a: string, b: string): Ordering {
    Lex(a, b, CompareChar)
  }

  lemma TextTotal()
    ensures Total(CompareText)
  {
    assert Total(CompareChar);
    forall a, b
      ensures CompareText(a, b) == Eq <==> a == b
      ensures CompareText(a, b) == Flip(CompareText(b, a))
    {
      LexEq(a, b, CompareChar);
      LexFlip(a, b, CompareChar);
    }
    forall a, b, c | CompareText(a, b) == Lt && CompareText(b, c) == Lt
      ensures CompareText(a, c) == Lt
    {
      LexTrans(a, b, c, CompareChar);
    }
  }

  /** Text compares by the first different character; a proper prefix comes first. */
  lemma {:induction false} TextOrder(a: string, b: string)
    ensures CompareText(a, b) == Lt <==> exists k :: 0 <= k <= |a| && k < |b| && TextDiffersAt(a, b, k)
  {
    if a != [] && b != [] && a[0] == b[0] {
      TextOrder(a[1..], b[1..]);
      if k :| 0 <= k <= |a[1..]| && k < |b[1..]| && TextDiffersAt(a[1..], b[1..], k) {
        assert a[..k + 1] == [a[0]] + a[1..][..k] && b[..k + 1] == [b[0]] + b[1..][..k];
        assert TextDiffersAt(a, b, k + 1);
      }
      if k :| 0 <= k <= |a| && k < |b| && TextDiffersAt(a, b, k) {
        assert a[1..][..k - 1] == a[..k][1..] && b[1..][..k - 1] == b[..k][1..];
        assert TextDiffersAt(a[1..], b[1..], k - 1);
      }
    } else if b != [] {
      if a == [] || a[0] < b[0] { assert TextDiffersAt(a, b, 0); }
      if k :| 0 < k <= |a| && k < |b| && TextDiffersAt(a, b, k) { SameFront(a, b, k); }
    }
  }

  lemma SameFront(a: string, b: string, k: int)
    requires 0 < k <= |a| && k <= |b| && a[..k] == b[..k]
    ensures a[0] == b[0]
  {
    assert a[0] == a[..k][0] && b[0] == b[..k][0];
  }

  predicate TextDiffersAt(a: string, b: string, k: int)
    requires 0 <= k <= |a| && k < |b|
  {
    a[..k] == b[..k] && (k == |a| || a[k] < b[k])
  }

  // ---------------------------------------------------------------- precedence

  /** An identifier of a pre-release: numeric ones come first and compare as numbers. */
  datatype Identifier = Numeric(n: nat) | Alphanumeric(s: string)

  /** A version without its build metadata. */
  datatype SemVer = SemVer(major: nat, minor: nat, patch: nat, pre: seq<Identifier>)

  function CompareNat(a: nat, b: nat): Ordering {
    if a < b then Lt else if a == b then Eq else Gt
  }

  function CompareIdentifier(a: Identifier, b: Identifier): Ordering {
    match (a, b)
    case (Numeric(m), Numeric(n)) => CompareNat(m, n)
    case (Numeric(_), Alphanumeric(_)) => Lt
    case (Alphanumeric(_), Numeric(_)) => Gt
    case (Alphanumeric(s), Alphanumeric(t)) => CompareText(s, t)
  }

  /** A release has higher precedence than each of its pre-releases. */
  function ComparePre(a: seq<Identifier>, b: seq<Identifier>): Ordering {
    if a == [] || b == [] then CompareNat(|b|, |a|) else Lex(a, b, CompareIdentifier)
  }

  /** The first comparison that decides. */
  function Then(o: Ordering, p: Ordering): Ordering {
    if o == Eq then p else o
  }

  function CompareVersion(a: SemVer, b: SemVer): Ordering {
    Then(CompareNat(a.major, b.major), Then(CompareNat(a.minor, b.minor),
        Then(CompareNat(a.patch, b.patch), ComparePre(a.pre, b.pre))))
  }

  lemma IdentifierTotal()
    ensures Total(CompareIdentifier)
  {
    TextTotal();
  }

  lemma PreTotal()
    ensures Total(ComparePre)
  {
    IdentifierTotal();
    forall a, b
      ensures ComparePre(a, b) == Eq <==> a == b
      ensures ComparePre(a, b) == Flip(ComparePre(b, a))
    {
      LexEq(a, b, CompareIdentifier);
      LexFlip(a, b, CompareIdentifier);
    }
    forall a, b, c | ComparePre(a, b) == Lt && ComparePre(b, c) == Lt
      ensures ComparePre(a, c) == Lt
    {
      if a != [] && b != [] && c != [] { LexTrans(a, b, c, CompareIdentifier); }
    }
  }

  /** Precedence is a strict total order on versions. */
  lemma VersionTotal()
    ensures Total(CompareVersion)
  {
    PreTotal();
  }

  // ---------------------------------------------------------------- the rules of section 11

  lemma {:induction false} LexPrefix<T(!new)>(p: seq<T>, a: seq<T>, b: seq<T>, cmp: (T, T) -> Ordering)
    requires Total(cmp)
    ensures Lex(p + a, p + b, cmp) == Lex(a, b, cmp)
  {
    if p == [] {
      assert p + a == a && p + b == b;
    } else {
      assert (p + a)[1..] == p[1..] + a && (p + b)[1..] == p[1..] + b;
      LexPrefix(p[1..], a, b, cmp);
    }
  }

  /** Pre-releases compare by their first different identifier, and a longer one wins when all
      identifiers of the shorter one are equal. */
  lemma FirstDifference(p: seq<Identifier>, a: seq<Identifier>, b: seq<Identifier>)
    ensures a != [] && b != [] && a[0] != b[0] ==> ComparePre(p + a, p + b) == CompareIdentifier(a[0], b[0])
    ensures p != [] && b != [] ==> ComparePre(p, p + b) == Lt
  {
    IdentifierTotal();
    LexPrefix(p, a, b, CompareIdentifier);
    LexPrefix(p, [], b, CompareIdentifier);
    assert p + [] == p;
  }

  /** Major, minor and patch decide before anything else, in this order. */
  lemma CoreDecides(a: SemVer, b: SemVer)
    ensures a.major < b.major ==> CompareVersion(a, b) == Lt
    ensures a.major == b.major && a.minor < b.minor ==> CompareVersion(a, b) == Lt
    ensures a.major == b.major && a.minor == b.minor && a.patch < b.patch ==> CompareVersion(a, b) == Lt
    ensures a.(pre := []) == b.(pre := []) ==> CompareVersion(a, b) == ComparePre(a.pre, b.pre)
  {
  }

  function OneZeroZero(pre: seq<Identifier>): SemVer {
    SemVer(1, 0, 0, pre)
  }

  const ALPHA := Alphanumeric("alpha")
  const BETA := Alphanumeric("beta")
  const RC := Alphanumeric("rc")

  lemma WordsInOrder()
    ensures CompareIdentifier(ALPHA, BETA) == Lt && CompareIdentifier(BETA, RC) == Lt
    ensures ALPHA != BETA && BETA != RC
  {
    assert "alpha"[0] == 'a' && "beta"[0] == 'b' && "rc"[0] == 'r';
  }

  /** The example of section 11: 1.0.0-alpha, 1.0.0-alpha.1, 1.0.0-alpha.beta, 1.0.0-beta,
      1.0.0-beta.2, 1.0.0-beta.11, 1.0.0-rc.1, 1.0.0, 2.0.0, 2.1.0, 2.1.1 in rising order. */
  const SECTION_11: seq<SemVer> := [
    OneZeroZero([ALPHA]), OneZeroZero([ALPHA, Numeric(1)]), OneZeroZero([ALPHA, BETA]), OneZeroZero([BETA]),
    OneZeroZero([BETA, Numeric(2)]), OneZeroZero([BETA, Numeric(11)]), OneZeroZero([RC, Numeric(1)]), OneZeroZero([]),
    SemVer(2, 0, 0, []), SemVer(2, 1, 0, []), SemVer(2, 1, 1, [])]

  lemma PreReleasesRise()
    ensures ComparePre([ALPHA], [ALPHA, Numeric(1)]) == Lt
    ensures ComparePre([ALPHA, Numeric(1)], [ALPHA, BETA]) == Lt
    ensures ComparePre([ALPHA, BETA], [BETA]) == Lt
    ensures ComparePre([BETA], [BETA, Numeric(2)]) == Lt
    ensures ComparePre([BETA, Numeric(2)], [BETA, Numeric(11)]) == Lt
    ensures ComparePre([BETA, Numeric(11)], [RC, Numeric(1)]) == Lt
    ensures ComparePre([RC, Numeric(1)], []) == Lt
  {
    WordsInOrder();
    FirstDifference([ALPHA], [], [Numeric(1)]);
    FirstDifference([ALPHA], [Numeric(1)], [BETA]);
    FirstDifference([], [ALPHA, BETA], [BETA]);
    FirstDifference([BETA], [], [Numeric(2)]);
    FirstDifference([BETA], [Numeric(2)], [Numeric(11)]);
    FirstDifference([], [BETA, Numeric(11)], [RC, Numeric(1)]);
    assert [] + [ALPHA, BETA] == [ALPHA, BETA] && [] + [BETA] == [BETA];
    assert [] + [BETA, Numeric(11)] == [BETA, Numeric(11)] && [] + [RC, Numeric(1)] == [RC, Numeric(1)];
  }

  lemma NeighboursRise(i: nat)
    requires i + 1 < |SECTION_11|
    ensures CompareVersion(SECTION_11[i], SECTION_11[i + 1]) == Lt
  {
    PreReleasesRise();
    CoreDecides(SECTION_11[i], SECTION_11[i + 1]);
  }

  lemma VersionTransitive(a: SemVer, b: SemVer, c: SemVer)
    requires CompareVersion(a, b) == Lt && CompareVersion(b, c) == Lt
    ensures CompareVersion(a, c) == Lt
  {
    VersionTotal();
  }

  lemma {:induction false} SectionElevenRises(i: nat, j: nat)
    requires i < j < |SECTION_11|
    ensures CompareVersion(SECTION_11[i], SECTION_11[j]) == Lt
    decreases j - i
  {
    NeighboursRise(i);
    if i + 1 < j {
      SectionElevenRises(i + 1, j);
      VersionTransitive(SECTION_11[i], SECTION_11[i + 1], SECTION_11[j]);
    }
  }
}
