/** String helpers shared by the whole model: ASCII case folding, substring
    search, whitespace trimming and splitting, truncation and joining. */
module Text {
  import opened Wrappers

  /** ASCII lower-casing of one character; every other character is kept. */
  function LowerChar(c: char): char {
    if 'A' <= c <= 'Z' then (c as int + 32) as char else c
  }

  /** Lower-cases the ASCII letters of `s` and keeps everything else. */
  function Lower(s: string): (r: string)
    ensures |r| == |s|
    ensures forall i :: 0 <= i < |s| ==> r[i] == LowerChar(s[i])
  {
    if s == [] then [] else [LowerChar(s[0])] + Lower(s[1..])
  }

  lemma LowerAppend(a: string, b: string)
    ensures Lower(a + b) == Lower(a) + Lower(b)
  {
    assert forall i :: 0 <= i < |a + b| ==> Lower(a + b)[i] == (Lower(a) + Lower(b))[i];
  }

  /** Lower-casing is idempotent. */
  lemma LowerIdempotent(s: string)
    ensures Lower(Lower(s)) == Lower(s)
  {
    assert forall i :: 0 <= i < |s| ==> Lower(Lower(s))[i] == Lower(s)[i];
  }

  /** `sub` occurs in `s` at a position not before `from`. */
  predicate ContainsFrom(s: string, sub: string, from: nat)
    decreases |s| - from
  {
    if from + |sub| > |s| then false
    else s[from..from + |sub|] == sub || ContainsFrom(s, sub, from + 1)
  }

  /** JavaScript's `includes` / Python's `in` on strings. */
  predicate Contains(s: string, sub: string) {
    ContainsFrom(s, sub, 0)
  }

  lemma {:induction false} ContainsFromWitness(s: string, sub: string, from: nat, i: nat)
    requires from <= i && i + |sub| <= |s| && s[i..i + |sub|] == sub
    ensures ContainsFrom(s, sub, from)
    decreases i - from
  {
    if from < i {
      ContainsFromWitness(s, sub, from + 1, i);
    }
  }

  /** Any occurrence of `sub` in `s` makes `Contains(s, sub)` hold. */
  lemma ContainsWitness(s: string, sub: string, i: nat)
    requires i + |sub| <= |s| && s[i..i + |sub|] == sub
    ensures Contains(s, sub)
  {
    ContainsFromWitness(s, sub, 0, i);
  }

  /** `sub` occurs in `s` starting at index `j`. */
  predicate OccursAt(s: string, sub: string, j: nat) {
    j + |sub| <= |s| && s[j..j + |sub|] == sub
  }

  /** Conversely, a successful search has found an occurrence. */
  lemma {:induction false} ContainsFromOccurrence(s: string, sub: string, from: nat)
    requires ContainsFrom(s, sub, from)
    ensures exists j :: from <= j && OccursAt(s, sub, j)
    decreases |s| - from
  {
    if s[from..from + |sub|] == sub {
      assert OccursAt(s, sub, from);
    } else {
      ContainsFromOccurrence(s, sub, from + 1);
    }
  }

  /** The empty string occurs in every string. */
  lemma ContainsEmpty(s: string)
    ensures Contains(s, "")
  {
    ContainsWitness(s, "", 0);
  }

  /** The number of entries of `words` that occur in `text`: one point per
      entry, so an entry listed twice counts twice. */
  function CountIn(words: seq<string>, text: string): (n: nat)
    ensures n <= |words|
  {
    if words == [] then 0
    else CountIn(words[..|words| - 1], text) + (if Contains(text, words[|words| - 1]) then 1 else 0)
  }

  /** Counts add up over concatenated word lists. */
  lemma {:induction false} CountInAppend(a: seq<string>, b: seq<string>, text: string)
    ensures CountIn(a + b, text) == CountIn(a, text) + CountIn(b, text)
    decreases |b|
  {
    if b == [] {
      assert a + b == a;
    } else {
      var init := b[..|b| - 1];
      CountInAppend(a, init, text);
      assert (a + b)[..|a + b| - 1] == a + init;
    }
  }

  /** No entry counts exactly when none of them occurs in the text. */
  lemma {:induction false} CountInZero(words: seq<string>, text: string)
    ensures CountIn(words, text) == 0 <==> forall k :: 0 <= k < |words| ==> !Contains(text, words[k])
    decreases |words|
  {
    if words != [] {
      var front := words[..|words| - 1];
      CountInZero(front, text);
      if CountIn(words, text) == 0 {
        forall k | 0 <= k < |words|
          ensures !Contains(text, words[k])
        {
          if k < |front| {
            assert words[k] == front[k];
          }
        }
      }
    }
  }

  /** The counting loop over a word list: one increment per entry found. */
  method CountOccurring(words: seq<string>, text: string) returns (n: nat)
    ensures n == CountIn(words, text)
  {
    n := 0;
    for i := 0 to |words|
      invariant n == CountIn(words[..i], text)
    {
      assert words[..i + 1][..i] == words[..i];
      if Contains(text, words[i]) {
        n := n + 1;
      }
    }
    assert words[..|words|] == words;
  }

  /** JavaScript's `startsWith` and Python's `startswith`. */
  predicate StartsWith(s: string, p: string) {
    |p| <= |s| && s[..|p|] == p
  }

  /** JavaScript's `endsWith`. */
  predicate EndsWith(s: string, p: string) {
    |p| <= |s| && s[|s| - |p|..] == p
  }

  /** JavaScript's `substring(0, n)` and Python's `s[:n]`. */
  function Take(s: string, n: nat): (r: string)
    ensures |r| <= n && |r| <= |s|
    ensures |s| <= n ==> r == s
    ensures |s| > n ==> |r| == n
    ensures StartsWith(s, r)
  {
    if |s| <= n then s else s[..n]
  }

  /** The characters JavaScript's `trim` and `\s` treat as white space. */
  predicate IsJsSpace(c: char) {
    c == ' ' || c == '\t' || c == '\n' || c == '\r' || c == '\U{000B}' || c == '\U{000C}'
    || c == '\U{00A0}' || c == '\U{1680}' || ('\U{2000}' <= c <= '\U{200A}')
    || c == '\U{2028}' || c == '\U{2029}' || c == '\U{202F}' || c == '\U{205F}'
    || c == '\U{3000}' || c == '\U{FEFF}'
  }

  /** The characters Python's `str.split()` with no argument splits on. */
  predicate IsPySpace(c: char) {
    c == ' ' || c == '\t' || c == '\n' || c == '\r' || c == '\U{000B}' || c == '\U{000C}'
    || ('\U{001C}' <= c <= '\U{001F}') || c == '\U{0085}'
    || c == '\U{00A0}' || c == '\U{1680}' || ('\U{2000}' <= c <= '\U{200A}')
    || c == '\U{2028}' || c == '\U{2029}' || c == '\U{202F}' || c == '\U{205F}'
    || c == '\U{3000}'
  }

  function TrimStart(s: string): (r: string)
    ensures |r| <= |s| && s[|s| - |r|..] == r
    ensures r == [] || !IsJsSpace(r[0])
  {
    if s != [] && IsJsSpace(s[0]) then TrimStart(s[1..]) else s
  }

  function TrimEnd(s: string): (r: string)
    ensures |r| <= |s| && s[..|r|] == r
    ensures r == [] || !IsJsSpace(r[|r| - 1])
  {
    if s != [] && IsJsSpace(s[|s| - 1]) then TrimEnd(s[..|s| - 1]) else s
  }

  /** JavaScript's `trim`: no white space at either end remains. */
  function Trim(s: string): (r: string)
    ensures |r| <= |s|
    ensures r == [] || (!IsJsSpace(r[0]) && !IsJsSpace(r[|r| - 1]))
  {
    TrimEnd(TrimStart(s))
  }

  /** The number of occurrences of `c` in `s`. */
  function CountChar(s: string, c: char): (n: nat)
    ensures n <= |s|
  {
    if s == [] then 0 else (if s[0] == c then 1 else 0) + CountChar(s[1..], c)
  }

  /** The leading run of non-space characters of `s`. */
  function Run(s: string, isSpace: char -> bool): (r: string)
    ensures StartsWith(s, r)
    ensures forall i :: 0 <= i < |r| ==> !isSpace(r[i])
    ensures s != [] && !isSpace(s[0]) ==> r != []
  {
    if s == [] || isSpace(s[0]) then [] else [s[0]] + Run(s[1..], isSpace)
  }

  /** The maximal runs of non-space characters, in order: Python's
      `str.split()` with no argument. */
  function Tokens(s: string, isSpace: char -> bool): (ws: seq<string>)
    ensures forall k :: 0 <= k < |ws| ==> ws[k] != []
    decreases |s|
  {
    if s == [] then []
    else if isSpace(s[0]) then Tokens(s[1..], isSpace)
    else
      var w := Run(s, isSpace);
      [w] + Tokens(s[|w|..], isSpace)
  }

  /** The tokens longer than `n` characters, in order. */
  function LongerThan(ws: seq<string>, n: nat): (r: seq<string>)
    ensures |r| <= |ws|
    ensures forall k :: 0 <= k < |r| ==> |r[k]| > n
  {
    if ws == [] then []
    else (if |ws[0]| > n then [ws[0]] else []) + LongerThan(ws[1..], n)
  }

  /** JavaScript's `join` / Python's `str.join`. */
  function Join(parts: seq<string>, sep: string): (r: string)
    ensures parts != [] ==> StartsWith(r, parts[0])
    ensures parts == [] ==> r == ""
  {
    if parts == [] then ""
    else if |parts| == 1 then parts[0]
    else parts[0] + sep + Join(parts[1..], sep)
  }

  /** Concatenation of all the parts, in order. */
  function Concat(parts: seq<string>): string {
    if parts == [] then "" else parts[0] + Concat(parts[1..])
  }

  /** Joining strings is associative. */
  lemma AppendAssoc(a: string, b: string, c: string)
    ensures a + b + c == a + (b + c)
  {
  }

  /** A concatenation starts with its first part and ends with its second. */
  lemma AppendEnds(a: string, b: string)
    ensures StartsWith(a + b, a) && EndsWith(a + b, b)
  {
    assert (a + b)[..|a|] == a;
    assert (a + b)[|a + b| - |b|..] == b;
  }

  lemma ConcatAppend(a: seq<string>, b: seq<string>)
    ensures Concat(a + b) == Concat(a) + Concat(b)
  {
    if a != [] {
      assert (a + b)[0] == a[0];
      assert (a + b)[1..] == a[1..] + b;
      ConcatAppend(a[1..], b);
    } else {
      assert a + b == b;
    }
  }

  /** Decimal digits of a natural number, as JavaScript's `toString` and
      Python's `str` write it. */
  function NatToString(n: nat): (r: string)
    ensures r != []
    ensures forall i :: 0 <= i < |r| ==> '0' <= r[i] <= '9'
    decreases n
  {
    if n < 10 then [Digit(n)] else NatToString(n / 10) + [Digit(n % 10)]
  }

  function Digit(d: nat): (c: char)
    requires d < 10
    ensures '0' <= c <= '9'
  {
    ('0' as int + d) as char
  }

  /** The value of a string of decimal digits. */
  function DigitsValue(s: string): nat
    requires forall i :: 0 <= i < |s| ==> '0' <= s[i] <= '9'
  {
    if s == [] then 0 else DigitsValue(s[..|s| - 1]) * 10 + (s[|s| - 1] as int - '0' as int)
  }

  /** Reading back the digits gives the number: `NatToString` is injective. */
  lemma {:induction false} NatToStringValue(n: nat)
    ensures DigitsValue(NatToString(n)) == n
    decreases n
  {
    if n >= 10 {
      var s := NatToString(n);
      assert s[..|s| - 1] == NatToString(n / 10);
      NatToStringValue(n / 10);
    }
  }

  /** Python's `str` of an integer: a minus sign, then the digits. */
  function IntToString(i: int): string {
    if i < 0 then "-" + NatToString(-i) else NatToString(i)
  }

  /** A JavaScript value interpolated into a template literal: an absent
      value is written "undefined". */
  function Interp(o: Option<string>): string {
    match o
    case Some(s) => s
    case None => "undefined"
  }

  /** JavaScript truthiness of an optional string: present and non-empty. */
  predicate Truthy(o: Option<string>) {
    o.Some? && o.value != ""
  }

  /** JavaScript's `a || b` on optional strings. */
  function Or(a: Option<string>, b: string): (r: string)
    ensures Truthy(a) ==> r == a.value
    ensures !Truthy(a) ==> r == b
  {
    if Truthy(a) then a.value else b
  }
}
