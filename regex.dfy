/** The model of the source's regular expressions.

    A pattern of the exact shape "word boundary, a group of literal
    alternatives, word boundary" (optional characters such as `s?` or `-?`
    written out as separate alternatives) is judged concretely here. Every
    other pattern is opaque: an `Engine` supplied by the caller says whether
    and where it matches, so the model keeps each list's order but does not
    verify the pattern itself. */
module Regex {
  import opened Wrappers
  import opened Text

  /** A match of an opaque pattern: the whole matched text and capture group 1. */
  datatype Match = Match(whole: string, group1: string)

  /** The opaque regular-expression engine, keyed by the pattern's source text:
      `first` is the leftmost match (`String.prototype.match` without the g
      flag), `all` the successive whole matches of a global pattern
      (repeated `RegExp.prototype.exec`). */
  datatype Engine = Engine(first: (string, string) -> Option<Match>,
                           all: (string, string) -> seq<string>)

  /** `Words(alts, ci)` is `\b(alt1|alt2|...)\b`, with the `i` flag when `ci`
      (its alternatives then written in lower case). */
  datatype Pattern =
    | Words(alts: seq<string>, ignoreCase: bool)
    | Opaque(source: string)

  /** A regular-expression word character: `[A-Za-z0-9_]`. */
  predicate IsWordChar(c: char) {
    'a' <= c <= 'z' || 'A' <= c <= 'Z' || '0' <= c <= '9' || c == '_'
  }

  /** `\b` holds at position `i` of `s` (0 <= i <= |s|). */
  predicate Boundary(s: string, i: nat)
    requires i <= |s|
  {
    (0 < i && IsWordChar(s[i - 1])) != (i < |s| && IsWordChar(s[i]))
  }

  /** Case-insensitive alternatives are written in lower case, so the text is
      lower-cased and compared with them. */
  predicate SameText(a: string, w: string, ignoreCase: bool) {
    if ignoreCase then Lower(a) == w else a == w
  }

  /** The alternative `w`, bounded by `\b` on both sides, matches at `i`. */
  predicate WordAt(s: string, w: string, i: nat, ignoreCase: bool) {
    i + |w| <= |s| && SameText(s[i..i + |w|], w, ignoreCase)
    && Boundary(s, i) && Boundary(s, i + |w|)
  }

  /** `w` matches as a whole word at some position not before `from`. */
  predicate WordFrom(s: string, w: string, from: nat, ignoreCase: bool)
    decreases |s| - from
  {
    if from + |w| > |s| then false
    else WordAt(s, w, from, ignoreCase) || WordFrom(s, w, from + 1, ignoreCase)
  }

  /** `RegExp.prototype.test`: concrete for word alternations, the engine's
      verdict for opaque patterns. */
  predicate Test(eng: Engine, p: Pattern, s: string) {
    match p
    case Words(alts, ci) => exists k | 0 <= k < |alts| :: WordFrom(s, alts[k], 0, ci)
    case Opaque(src) => eng.first(src, s).Some?
  }

  lemma {:induction false} WordFromWitness(s: string, w: string, from: nat, i: nat, ci: bool)
    requires from <= i && WordAt(s, w, i, ci)
    ensures WordFrom(s, w, from, ci)
    decreases i - from
  {
    if from < i {
      WordFromWitness(s, w, from + 1, i, ci);
    }
  }

  lemma {:induction false} WordFromSound(s: string, w: string, from: nat, ci: bool)
    requires WordFrom(s, w, from, ci)
    ensures exists i :: from <= i && WordAt(s, w, i, ci)
    decreases |s| - from
  {
    if !WordAt(s, w, from, ci) {
      WordFromSound(s, w, from + 1, ci);
    }
  }

  /** A word alternation matches exactly when one of its alternatives occurs
      in the text between two word boundaries. */
  lemma WordsTest(eng: Engine, alts: seq<string>, ci: bool, s: string)
    ensures Test(eng, Words(alts, ci), s) <==>
            exists k, i :: 0 <= k < |alts| && WordAt(s, alts[k], i, ci)
  {
    if Test(eng, Words(alts, ci), s) {
      var k :| 0 <= k < |alts| && WordFrom(s, alts[k], 0, ci);
      WordFromSound(s, alts[k], 0, ci);
    }
    if exists k, i :: 0 <= k < |alts| && WordAt(s, alts[k], i, ci) {
      var k, i :| 0 <= k < |alts| && WordAt(s, alts[k], i, ci);
      WordFromWitness(s, alts[k], 0, i, ci);
    }
  }

  /** One occurrence of an alternative as a whole word suffices for a match. */
  lemma WordsMatch(eng: Engine, alts: seq<string>, ci: bool, s: string, k: nat, i: nat)
    requires k < |alts| && WordAt(s, alts[k], i, ci)
    ensures Test(eng, Words(alts, ci), s)
  {
    WordFromWitness(s, alts[k], 0, i, ci);
  }
}
