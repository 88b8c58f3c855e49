/**
 Regular expressions as Go's regexp package gives them meaning, reduced to what the rule table needs:
 which stretches of a text an expression matches. Texts are sequences of runes.
 */
module Regex {

  datatype CharSet = Space | Digit | WordChar | NotNewline | OneOf(members: string)

  /** `Fold` is the flag (?i); `Invalid` is a pattern that does not compile, which matches nothing. */
  datatype Re =
    | Lit(text: string)
    | Class(members: CharSet)
    | Cat(parts: seq<Re>)
    | Alt(options: seq<Re>)
    | Rep(item: Re, min: nat)
    | EndOfText
    | Fold(re: Re)
    | Invalid

  predicate InClass(k: CharSet, c: char) {
    match k
    case Space => c == ' ' || c == '\t' || c == '\n' || c == '\U{000C}' || c == '\r'
    case Digit => '0' <= c <= '9'
    case WordChar => '0' <= c <= '9' || 'A' <= c <= 'Z' || 'a' <= c <= 'z' || c == '_'
    case NotNewline => c != '\n'
    case OneOf(members) => c in members
  }

  /** The classes \s, \d and \w as Go documents them. */
  lemma ClassMembers(c: char)
    ensures InClass(Space, c) <==> c in " \t\n\U{000C}\r"
    ensures InClass(Digit, c) <==> c in "0123456789"
    ensures InClass(WordChar, c) <==>
      c in "ABCDEFGHIJKLMNOPQRSTUVWXYZ" || c in "abcdefghijklmnopqrstuvwxyz" || c in "0123456789" || c == '_'
  {
    InRange(c, "0123456789", '0');
    UpperCase(c);
    LowerCase(c);
  }

  lemma UpperCase(c: char)
    ensures c in "ABCDEFGHIJKLMNOPQRSTUVWXYZ" <==> 'A' <= c <= 'Z'
  {
    InRange(c, "ABCDEFGHIJKLMNOPQRSTUVWXYZ", 'A');
  }

  lemma LowerCase(c: char)
    ensures c in "abcdefghijklmnopqrstuvwxyz" <==> 'a' <= c <= 'z'
  {
    InRange(c, "abcdefghijklmnopqrstuvwxyz", 'a');
  }

  lemma InRange(c: char, range: string, first: char)
    requires |range| >= 1 && first as int + |range| <= 128
    requires forall k :: 0 <= k < |range| ==> range[k] as int == first as int + k
    ensures c in range <==> first <= c && c as int < first as int + |range|
  {
    if first <= c && c as int < first as int + |range| {
      assert range[c as int - first as int] == c;
    }
  }

  /** The representative under simple case folding of the runes that fold to an ASCII letter. */
  function FoldKey(c: char): char {
    if 'A' <= c <= 'Z' then c + 32 as char
    else if c == '\U{212A}' then 'k'
    else if c == '\U{017F}' then 's'
    else c
  }

  /** `c` is accepted where the pattern, whose literals are ASCII, says `p`. */
  predicate SameChar(p: char, c: char, fold: bool) {
    p == c || (fold && FoldKey(p) == FoldKey(c))
  }

  /** Under (?i) a small letter also accepts its capital, and k and s their two look-alikes outside ASCII. */
  lemma FoldedLetters(p: char, c: char)
    requires 'a' <= p <= 'z'
    ensures SameChar(p, c, true) <==>
      c == p || c as int == p as int - 32 || (p == 'k' && c == '\U{212A}') || (p == 's' && c == '\U{017F}')
  {
  }

  ghost predicate Accepts(k: CharSet, c: char, fold: bool) {
    InClass(k, c) || (fold && exists p :: InClass(k, p) && FoldKey(p) == FoldKey(c))
  }

  /** `re` matches the stretch of `s` from `i` up to `j`. */
  ghost predicate Matches(re: Re, fold: bool, s: string, i: nat, j: nat)
    decreases re, 0
  {
    i <= j <= |s| &&
    match re
    case Lit(text) => j == i + |text| && forall k :: 0 <= k < |text| ==> SameChar(text[k], s[i + k], fold)
    case Class(k) => j == i + 1 && Accepts(k, s[i], fold)
    case Cat(parts) => MatchesAll(parts, fold, s, i, j)
    case Alt(options) => exists o | o in options :: Matches(o, fold, s, i, j)
    case Rep(item, min) => exists n: nat :: min <= n && MatchesTimes(item, n, fold, s, i, j)
    case EndOfText => i == j == |s|
    case Fold(inner) => Matches(inner, true, s, i, j)
    case Invalid => false
  }

  /** The parts match one after the other. */
  ghost predicate MatchesAll(parts: seq<Re>, fold: bool, s: string, i: nat, j: nat)
    decreases parts, 0
  {
    i <= j <= |s| &&
    if parts == [] then i == j
    else exists k: nat :: Matches(parts[0], fold, s, i, k) && MatchesAll(parts[1..], fold, s, k, j)
  }

  /** `n` matches of the same item in a row. */
  ghost predicate MatchesTimes(item: Re, n: nat, fold: bool, s: string, i: nat, j: nat)
    decreases item, n + 1
  {
    i <= j <= |s| &&
    if n == 0 then i == j
    else exists k: nat :: Matches(item, fold, s, i, k) && MatchesTimes(item, n - 1, fold, s, k, j)
  }

  /** Unanchored search, as regexp.MatchString does it. */
  ghost predicate Found(re: Re, s: string) {
    exists i: nat, j: nat :: Matches(re, false, s, i, j)
  }

  // ---------------------------------------------------------------- inclusions between expressions

  /** Ignoring case only widens what is matched. */
  lemma {:induction false} FoldWidens(re: Re, s: string, i: nat, j: nat)
    requires Matches(re, false, s, i, j)
    ensures Matches(re, true, s, i, j)
    decreases re, 0
  {
    match re
    case Cat(parts) => FoldWidensAll(parts, s, i, j);
    case Alt(options) =>
      var o :| o in options && Matches(o, false, s, i, j);
      FoldWidens(o, s, i, j);
    case Rep(item, min) =>
      var n: nat :| min <= n && MatchesTimes(item, n, false, s, i, j);
      FoldWidensTimes(item, n, s, i, j);
    case _ =>
  }

  lemma {:induction false} FoldWidensAll(parts: seq<Re>, s: string, i: nat, j: nat)
    requires MatchesAll(parts, false, s, i, j)
    ensures MatchesAll(parts, true, s, i, j)
    decreases parts, 0
  {
    if parts != [] {
      var k: nat :| Matches(parts[0], false, s, i, k) && MatchesAll(parts[1..], false, s, k, j);
      FoldWidens(parts[0], s, i, k);
      FoldWidensAll(parts[1..], s, k, j);
    }
  }

  lemma {:induction false} FoldWidensTimes(item: Re, n: nat, s: string, i: nat, j: nat)
    requires MatchesTimes(item, n, false, s, i, j)
    ensures MatchesTimes(item, n, true, s, i, j)
    decreases item, n + 1
  {
    if n > 0 {
      var k: nat :| Matches(item, false, s, i, k) && MatchesTimes(item, n - 1, false, s, k, j);
      FoldWidens(item, s, i, k);
      FoldWidensTimes(item, n - 1, s, k, j);
    }
  }

  /** A match of a concatenation splits at every point of the list of parts. */
  lemma {:induction false} SplitAll(a: seq<Re>, b: seq<Re>, fold: bool, s: string, i: nat, j: nat) returns (k: nat)
    requires MatchesAll(a + b, fold, s, i, j)
    ensures MatchesAll(a, fold, s, i, k) && MatchesAll(b, fold, s, k, j)
    decreases |a|
  {
    if a == [] {
      assert a + b == b;
      k := i;
    } else {
      assert (a + b)[0] == a[0] && (a + b)[1..] == a[1..] + b;
      var m: nat :| Matches(a[0], fold, s, i, m) && MatchesAll(a[1..] + b, fold, s, m, j);
      k := SplitAll(a[1..], b, fold, s, m, j);
    }
  }

  lemma {:induction false} JoinAll(a: seq<Re>, b: seq<Re>, fold: bool, s: string, i: nat, k: nat, j: nat)
    requires MatchesAll(a, fold, s, i, k) && MatchesAll(b, fold, s, k, j)
    ensures MatchesAll(a + b, fold, s, i, j)
    decreases |a|
  {
    if a == [] {
      assert a + b == b;
    } else {
      assert (a + b)[0] == a[0] && (a + b)[1..] == a[1..] + b;
      var m: nat :| Matches(a[0], fold, s, i, m) && MatchesAll(a[1..], fold, s, m, k);
      JoinAll(a[1..], b, fold, s, m, k, j);
    }
  }

  /** An item that may be repeated zero times can be put anywhere into a concatenation. */
  lemma InsertOptional(a: seq<Re>, item: Re, b: seq<Re>, fold: bool, s: string, i: nat, j: nat)
    requires MatchesAll(a + b, fold, s, i, j)
    ensures MatchesAll(a + [Rep(item, 0)] + b, fold, s, i, j)
  {
    var k := SplitAll(a, b, fold, s, i, j);
    assert MatchesTimes(item, 0, fold, s, k, k);
    assert Matches(Rep(item, 0), fold, s, k, k);
    var optional := [Rep(item, 0)];
    assert optional[0] == Rep(item, 0) && optional[1..] == [];
    assert MatchesAll(optional[1..], fold, s, k, k);
    assert MatchesAll(optional, fold, s, k, k);
    JoinAll(a, [Rep(item, 0)], fold, s, i, k, k);
    JoinAll(a + [Rep(item, 0)], b, fold, s, i, k, j);
  }

  /** Wherever a concatenation is found, each contiguous group of its parts is found, with or without (?i) around it. */
  lemma FoundPart(before: seq<Re>, group: seq<Re>, after: seq<Re>, s: string)
    requires Found(Cat(before + group + after), s)
    ensures Found(Cat(group), s) && Found(Fold(Cat(group)), s)
  {
    var i: nat, j: nat :| Matches(Cat(before + group + after), false, s, i, j);
    var m := SplitAll(before + group, after, false, s, i, j);
    var k := SplitAll(before, group, false, s, i, m);
    assert Matches(Cat(group), false, s, k, m);
    FoldWidens(Cat(group), s, k, m);
    assert Matches(Fold(Cat(group)), false, s, k, m);
  }

  /** The same for a concatenation under (?i). */
  lemma FoundFoldedPart(before: seq<Re>, group: seq<Re>, after: seq<Re>, s: string)
    requires Found(Fold(Cat(before + group + after)), s)
    ensures Found(Fold(Cat(group)), s)
  {
    var i: nat, j: nat :| Matches(Fold(Cat(before + group + after)), false, s, i, j);
    assert Matches(Cat(before + group + after), true, s, i, j);
    var m := SplitAll(before + group, after, true, s, i, j);
    var k := SplitAll(before, group, true, s, i, m);
    assert Matches(Cat(group), true, s, k, m);
    assert Matches(Fold(Cat(group)), false, s, k, m);
  }

  lemma FoundOption(option: Re, options: seq<Re>, s: string)
    requires option in options && Found(Fold(option), s)
    ensures Found(Fold(Alt(options)), s)
  {
    var i: nat, j: nat :| Matches(Fold(option), false, s, i, j);
    assert Matches(option, true, s, i, j);
    assert Matches(Alt(options), true, s, i, j);
    assert Matches(Fold(Alt(options)), false, s, i, j);
  }

  predicate ContainsAt(s: string, i: nat, text: string) {
    i + |text| <= |s| && s[i..i + |text|] == text
  }

  /** A literal is found exactly in the texts that contain it. */
  lemma FoundLiteral(text: string, s: string)
    ensures Found(Lit(text), s) <==> exists i: nat :: ContainsAt(s, i, text)
  {
    if Found(Lit(text), s) {
      var i: nat, j: nat :| Matches(Lit(text), false, s, i, j);
      assert ContainsAt(s, i, text);
    }
    if i: nat :| ContainsAt(s, i, text) {
      forall k | 0 <= k < |text| ensures SameChar(text[k], s[i + k], false) {
        assert s[i..i + |text|][k] == text[k];
      }
      assert Matches(Lit(text), false, s, i, i + |text|);
    }
  }
}
