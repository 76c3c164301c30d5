/** What several components share. */
module Common {

  datatype Option<T> = None | Some(value: T)

  type Byte = x: int | 0 <= x < 256

  /** Station types. */
  const DISPATCHER := 1
  const PUBLISH := 2
  const API := 3
  const VOTE := 4
  const ROUTE_API := 5
  const SPECIAL := 0xA0
  const PLAN := 0xFF

  function FoldChar(c: char): char {
    if 'A' <= c <= 'Z' then (c as int + 32) as char else c
  }

  /** Two strings are equal up to case exactly when they fold to the same string. */
  function Fold(s: string): string {
    seq(|s|, i requires 0 <= i < |s| => FoldChar(s[i]))
  }

  /** The same character, or one ASCII letter in both cases. */
  predicate SameLetter(a: char, b: char) {
    a == b || ('A' <= a <= 'Z' && b as int == a as int + 32) || ('A' <= b <= 'Z' && a as int == b as int + 32)
  }

  predicate EqualUpToCase(a: string, b: string) {
    |a| == |b| && forall i | 0 <= i < |a| :: SameLetter(a[i], b[i])
  }

  lemma FoldCharIff(a: char, b: char)
    ensures FoldChar(a) == FoldChar(b) <==> SameLetter(a, b)
  {
  }

  /** Two strings fold to the same exactly when they are equal but for the case of ASCII letters. */
  lemma FoldIff(a: string, b: string)
    ensures Fold(a) == Fold(b) <==> EqualUpToCase(a, b)
  {
    forall i | 0 <= i < |a| && |a| == |b|
      ensures FoldChar(a[i]) == FoldChar(b[i]) <==> SameLetter(a[i], b[i])
    {
      FoldCharIff(a[i], b[i]);
    }
    hide FoldChar, SameLetter;
    if Fold(a) == Fold(b) {
      assert |a| == |b|;
      forall i | 0 <= i < |a|
        ensures SameLetter(a[i], b[i])
      {
        assert Fold(a)[i] == Fold(b)[i];
      }
    }
  }
}
