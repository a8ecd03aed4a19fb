/** Just enough of ECMAScript regular expressions to state the supplier form's
    three field patterns as written: anchors, character classes and counted
    repetition. `RegExp.prototype.test` succeeds when some match exists;
    for patterns without look-around or back-references that is what the
    backtracking matcher decides. */
module Regex {
  import opened Text

  datatype CharClass =
    | Digit            // \d
    | Space            // \s
    | NotSpaceNorAt    // [^\s@]
    | Literal(c: char) // an escaped or plain single character

  predicate InClass(k: CharClass, c: char)
  {
    match k
    case Digit => IsDigit(c)
    case Space => IsSpace(c)
    case NotSpaceNorAt => !IsSpace(c) && c != '@'
    case Literal(x) => c == x
  }

  datatype Bound = Unbounded | AtMost(n: nat)

  datatype Atom =
    | Start                                      // ^
    | End                                        // $
    | Repeat(k: CharClass, min: nat, max: Bound) // class{min,max}, class+, ...

  /** A pattern is a sequence of atoms matched left to right. */
  datatype Pattern = Empty | Then(head: Atom, rest: Pattern)

  /** `c` */
  function Lit(c: char): Atom { Repeat(Literal(c), 1, AtMost(1)) }
  /** `k{n}` */
  function Exactly(k: CharClass, n: nat): Atom { Repeat(k, n, AtMost(n)) }
  /** `k+` */
  function OneOrMore(k: CharClass): Atom { Repeat(k, 1, Unbounded) }

  predicate Within(b: Bound, n: nat)
  {
    match b
    case Unbounded => true
    case AtMost(m) => n <= m
  }

  /** Every character of `s[i..j]` is in class `k`. */
  predicate Run(k: CharClass, s: string, i: nat, j: nat)
    requires i <= j <= |s|
  {
    forall t :: i <= t < j ==> InClass(k, s[t])
  }

  /** Pattern `p` matches a piece of `s` that starts at position `i`. */
  predicate MatchAt(p: Pattern, s: string, i: nat)
    requires i <= |s|
  {
    match p
    case Empty => true
    case Then(Start, r) => i == 0 && MatchAt(r, s, i)
    case Then(End, r) => i == |s| && MatchAt(r, s, i)
    case Then(Repeat(k, lo, hi), r) =>
      exists j :: i + lo <= j <= |s| && Within(hi, j - i) && Run(k, s, i, j) && MatchAt(r, s, j)
  }

  /** `/p/.test(s)`: a match starts somewhere in `s`. */
  predicate Test(p: Pattern, s: string)
  {
    exists i :: 0 <= i <= |s| && MatchAt(p, s, i)
  }

  /** A pattern that begins with `^` can only match from position 0. */
  lemma {:induction false} TestAnchored(r: Pattern, s: string)
    ensures Test(Then(Start, r), s) <==> MatchAt(r, s, 0)
  {
    if MatchAt(r, s, 0) {
      assert MatchAt(Then(Start, r), s, 0);
    }
  }

  /** A fixed count `k{n}` consumes exactly `n` characters of class `k`. */
  lemma {:induction false} ExactlyStep(k: CharClass, n: nat, r: Pattern, s: string, i: nat)
    requires i <= |s|
    ensures MatchAt(Then(Exactly(k, n), r), s, i) <==>
            i + n <= |s| && Run(k, s, i, i + n) && MatchAt(r, s, i + n)
  {
    if i + n <= |s| && Run(k, s, i, i + n) && MatchAt(r, s, i + n) {
      assert Within(AtMost(n), (i + n) - i);
    }
  }

  /** Nothing of positive width can follow the end of the input. */
  lemma {:induction false} NoRoomAfterEnd(k: CharClass, n: nat, r: Pattern, s: string)
    requires n > 0
    ensures !MatchAt(Then(Exactly(k, n), r), s, |s|)
  {
  }
}
