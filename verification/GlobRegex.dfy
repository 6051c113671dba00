/**
  Model-name patterns of the router (internal/proxy/router.go:126-162).  A
  pattern that does not look like a regular expression is a glob: it is quoted
  with regexp.QuoteMeta, the escaped `*` and `?` are replaced textually, and the
  result is compiled as a regular expression.

  The regular expressions such strings denote are parsed and matched here: text
  anchors, literals, escaped literals, `.` (anything but a newline) and a
  starred atom.
 */
module GlobRegex {
  import opened Options

  // ----- Building the expression -----

  const META := "\\.+*?()|[]{}^$"

  predicate HasPrefix(s: string, prefix: string) {
    |s| >= |prefix| && s[..|prefix|] == prefix
  }

  predicate Contains(s: string, sub: string) {
    HasPrefix(s, sub) || (s != "" && Contains(s[1..], sub))
  }

  /** strings.ReplaceAll: the leftmost occurrences, without overlap. */
  function ReplaceAll(s: string, from: string, to: string): string
    requires from != ""
  {
    if s == "" then ""
    else if HasPrefix(s, from) then to + ReplaceAll(s[|from|..], from, to)
    else [s[0]] + ReplaceAll(s[1..], from, to)
  }

  /** regexp.QuoteMeta */
  function Quote(s: string): string {
    if s == "" then "" else QuoteChar(s[0]) + Quote(s[1..])
  }

  function QuoteChar(c: char): string {
    if c in META then ['\\', c] else [c]
  }

  predicate LooksLikeRegex(s: string) {
    Contains(s, ".*") || Contains(s, "^") || Contains(s, "$") || Contains(s, "(") || Contains(s, "|")
  }

  function GlobExpression(pattern: string): string {
    "^" + ReplaceAll(ReplaceAll(Quote(pattern), "\\*", ".*"), "\\?", ".") + "$"
  }

  /** The expression compilePattern ends up compiling; `compiles` is regexp.Compile succeeding. */
  function Expression(pattern: string, compiles: string -> bool): string {
    if LooksLikeRegex(pattern) && compiles(pattern) then pattern else GlobExpression(pattern)
  }

  // ----- Regular expressions -----

  datatype Item =
    | Begin
    | End
    | Lit(c: char)
    | Dot
    | Star(atom: Item)

  /** The atom at the front of `s` and how many characters it takes. */
  function ParseAtom(s: string): Option<(Item, nat)>
    requires s != ""
  {
    if s[0] == '\\' then
      if |s| > 1 && s[1] in META then Some((Lit(s[1]), 2)) else None
    else if s[0] == '.' then Some((Dot, 1))
    else if s[0] == '^' then Some((Begin, 1))
    else if s[0] == '$' then Some((End, 1))
    else if s[0] in META then None
    else Some((Lit(s[0]), 1))
  }

  function Parse(s: string): Option<seq<Item>> {
    if s == "" then Some([])
    else
      match ParseAtom(s)
      case None => None
      case Some((atom, n)) =>
        if n < |s| && s[n] == '*' then
          if atom.Begin? || atom.End? then None
          else
            match Parse(s[n + 1..])
            case None => None
            case Some(rest) => Some([Star(atom)] + rest)
        else
          match Parse(s[n..])
          case None => None
          case Some(rest) => Some([atom] + rest)
  }

  predicate Accepts(atom: Item, c: char) {
    match atom
    case Lit(x) => c == x
    case Dot => c != '\n'
    case _ => false
  }

  /** The items match from position `i` of `text`. */
  predicate MatchesFrom(items: seq<Item>, text: string, i: nat)
    requires i <= |text|
    decreases |items|, |text| - i
  {
    if items == [] then true
    else
      match items[0]
      case Begin => i == 0 && MatchesFrom(items[1..], text, i)
      case End => i == |text| && MatchesFrom(items[1..], text, i)
      case Star(atom) =>
        || MatchesFrom(items[1..], text, i)
        || (i < |text| && Accepts(atom, text[i]) && MatchesFrom(items, text, i + 1))
      case atom => i < |text| && Accepts(atom, text[i]) && MatchesFrom(items[1..], text, i + 1)
  }

  /** Regexp.MatchString: a match anywhere in the text. */
  predicate Matches(items: seq<Item>, text: string) {
    exists i :: 0 <= i <= |text| && MatchesFrom(items, text, i)
  }

  // ----- What a glob means -----

  predicate Wild(c: char) {
    c == '*' || c == '?'
  }

  /** The characters a wildcard may stand for. */
  type Alphabet = char -> bool

  ghost predicate All(text: string, allowed: Alphabet) {
    forall i :: 0 <= i < |text| ==> allowed(text[i])
  }

  /** `piece` is what one pattern character may stand for. */
  ghost predicate StandsFor(c: char, piece: string, allowed: Alphabet) {
    if c == '*' then All(piece, allowed)
    else if c == '?' then |piece| == 1 && All(piece, allowed)
    else piece == [c]
  }

  function Concat(pieces: seq<string>): string {
    if pieces == [] then "" else pieces[0] + Concat(pieces[1..])
  }

  ghost predicate Split(pattern: string, pieces: seq<string>, allowed: Alphabet) {
    && |pieces| == |pattern|
    && forall i :: 0 <= i < |pattern| ==> StandsFor(pattern[i], pieces[i], allowed)
  }

  /** `name` is the pattern with each `*` replaced by some text and each `?` by some character. */
  ghost predicate Glob(pattern: string, name: string, allowed: Alphabet) {
    exists pieces: seq<string> :: Split(pattern, pieces, allowed) && Concat(pieces) == name
  }

  function Anything(): Alphabet {
    (c: char) => true
  }

  function NoNewline(): Alphabet {
    (c: char) => c != '\n'
  }

  // ----- The textual replacements act character by character -----

  function Translated(c: char): string {
    if c == '*' then ".*" else if c == '?' then "." else QuoteChar(c)
  }

  function Translation(pattern: string): string {
    if pattern == "" then "" else Translated(pattern[0]) + Translation(pattern[1..])
  }

  /** The text after the first replacement. */
  function Starred(pattern: string): string {
    if pattern == "" then "" else (if pattern[0] == '*' then ".*" else QuoteChar(pattern[0])) + Starred(pattern[1..])
  }

  /** Skips over text in which `from` cannot start. */
  lemma ReplaceSkips(a: char, s: string, from: string, to: string)
    requires |from| == 2 && !HasPrefix([a] + s, from)
    ensures ReplaceAll([a] + s, from, to) == [a] + ReplaceAll(s, from, to)
  {
    assert ([a] + s)[1..] == s;
  }

  lemma ReplaceHits(s: string, from: string, to: string)
    requires |from| == 2
    ensures ReplaceAll(from + s, from, to) == to + ReplaceAll(s, from, to)
  {
    assert (from + s)[..2] == from && (from + s)[2..] == s;
  }

  lemma PairDiffers(a: char, s: string, from: string)
    requires |from| == 2 && (a != from[0] || s == "" || s[0] != from[1])
    ensures !HasPrefix([a] + s, from)
  {
    if |s| > 0 {
      assert ([a] + s)[..2][0] == a && ([a] + s)[..2][1] == s[0];
    }
  }

  /** Replacing `\x`, x a metacharacter other than `c`, leaves the quoted `c` alone. */
  lemma ReplaceKeepsQuoted(c: char, s: string, x: char, to: string)
    requires x in META && x != '\\' && c != x && (s == "" || s[0] != x)
    ensures ReplaceAll(QuoteChar(c) + s, ['\\', x], to) == QuoteChar(c) + ReplaceAll(s, ['\\', x], to)
  {
    var from := ['\\', x];
    PairDiffers(c, s, from);
    ReplaceSkips(c, s, from, to);
    if c in META {
      assert QuoteChar(c) + s == ['\\'] + ([c] + s);
      PairDiffers('\\', [c] + s, from);
      ReplaceSkips('\\', [c] + s, from, to);
      assert QuoteChar(c) + ReplaceAll(s, from, to) == ['\\'] + ([c] + ReplaceAll(s, from, to));
    }
  }

  lemma {:induction false} FirstReplacement(pattern: string)
    ensures ReplaceAll(Quote(pattern), "\\*", ".*") == Starred(pattern)
  {
    if pattern != "" {
      var c, rest := pattern[0], pattern[1..];
      FirstReplacement(rest);
      if c == '*' {
        ReplaceHits(Quote(rest), "\\*", ".*");
      } else {
        ReplaceKeepsQuoted(c, Quote(rest), '*', ".*");
      }
    }
  }

  lemma ReplaceKeepsStar(s: string, from: string, to: string)
    requires |from| == 2 && from[0] == '\\'
    ensures ReplaceAll(".*" + s, from, to) == ".*" + ReplaceAll(s, from, to)
  {
    PairDiffers('*', s, from);
    ReplaceSkips('*', s, from, to);
    PairDiffers('.', ['*'] + s, from);
    ReplaceSkips('.', ['*'] + s, from, to);
    assert ".*" + s == ['.'] + (['*'] + s);
  }

  lemma {:induction false} SecondReplacement(pattern: string)
    ensures ReplaceAll(Starred(pattern), "\\?", ".") == Translation(pattern)
  {
    if pattern != "" {
      var c, rest := pattern[0], pattern[1..];
      var s := Starred(rest);
      SecondReplacement(rest);
      if c == '*' {
        ReplaceKeepsStar(s, "\\?", ".");
      } else if c == '?' {
        ReplaceHits(s, "\\?", ".");
      } else {
        ReplaceKeepsQuoted(c, s, '?', ".");
      }
    }
  }

  // ----- What the expression parses to -----

  function ItemOf(c: char): Item {
    if c == '*' then Star(Dot) else if c == '?' then Dot else Lit(c)
  }

  function Items(pattern: string): seq<Item> {
    if pattern == "" then [End] else [ItemOf(pattern[0])] + Items(pattern[1..])
  }

  /** Parsing goes on after an atom that no star follows. */
  lemma ParseAfterAtom(t: string, s: string, atom: Item, items: seq<Item>)
    requires t != "" && (s == "" || s[0] != '*')
    requires ParseAtom(t + s) == Some((atom, |t|)) && Parse(s) == Some(items)
    ensures Parse(t + s) == Some([atom] + items)
  {
    assert (t + s)[|t|..] == s;
    assert s != "" ==> (t + s)[|t|] == s[0];
  }

  lemma ParseDotStar(s: string, items: seq<Item>)
    requires Parse(s) == Some(items)
    ensures Parse(".*" + s) == Some([Star(Dot)] + items)
  {
    var t := ".*" + s;
    assert ParseAtom(t) == Some((Dot, 1));
    assert t[1] == '*' && t[2..] == s;
  }

  lemma ParseQuoted(c: char, s: string)
    ensures ParseAtom(QuoteChar(c) + s) == Some((Lit(c), |QuoteChar(c)|))
  {
    var t := QuoteChar(c) + s;
    if c in META {
      assert t[0] == '\\' && t[1] == c;
    } else {
      assert t[0] == c;
    }
  }

  lemma ParseTranslated(c: char, s: string, items: seq<Item>)
    requires s == "" || s[0] != '*'
    requires Parse(s) == Some(items)
    ensures Parse(Translated(c) + s) == Some([ItemOf(c)] + items)
  {
    if c == '*' {
      ParseDotStar(s, items);
    } else if c == '?' {
      assert ("." + s)[0] == '.';
      ParseAfterAtom(".", s, Dot, items);
    } else {
      ParseQuoted(c, s);
      ParseAfterAtom(QuoteChar(c), s, Lit(c), items);
    }
  }

  lemma {:induction false} ParseTranslation(pattern: string)
    ensures Parse(Translation(pattern) + "$") == Some(Items(pattern))
    ensures (Translation(pattern) + "$")[0] != '*'
  {
    if pattern == "" {
      var t := Translation(pattern) + "$";
      assert t == ['$'] && t[1..] == "";
      assert Parse(t[1..]) == Some([]) && [End] + [] == [End];
    } else {
      ParseTranslation(pattern[1..]);
      var rest := Translation(pattern[1..]) + "$";
      ParseTranslated(pattern[0], rest, Items(pattern[1..]));
      assert Translation(pattern) + "$" == Translated(pattern[0]) + rest;
    }
  }

  lemma GlobExpressionParses(pattern: string)
    ensures Parse(GlobExpression(pattern)) == Some([Begin] + Items(pattern))
  {
    FirstReplacement(pattern);
    SecondReplacement(pattern);
    ParseTranslation(pattern);
    var rest := Translation(pattern) + "$";
    assert GlobExpression(pattern) == ['^'] + rest;
    assert (['^'] + rest)[1..] == rest;
  }

  // ----- What it matches -----

  lemma {:induction false} SplitCons(c: char, pattern: string, piece: string, name: string, allowed: Alphabet)
    requires StandsFor(c, piece, allowed) && Glob(pattern, name, allowed)
    ensures Glob([c] + pattern, piece + name, allowed)
  {
    var pieces :| Split(pattern, pieces, allowed) && Concat(pieces) == name;
    var all := [piece] + pieces;
    assert all[0] == piece && all[1..] == pieces;
    forall i | 0 <= i < |all|
      ensures StandsFor(([c] + pattern)[i], all[i], allowed)
    {
      if i > 0 {
        assert ([c] + pattern)[i] == pattern[i - 1] && all[i] == pieces[i - 1];
      }
    }
    assert Split([c] + pattern, all, allowed);
    assert Concat(all) == piece + name;
  }

  lemma SplitHead(pattern: string, name: string, allowed: Alphabet) returns (piece: string, rest: string)
    requires pattern != "" && Glob(pattern, name, allowed)
    ensures name == piece + rest && StandsFor(pattern[0], piece, allowed) && Glob(pattern[1..], rest, allowed)
  {
    var pieces :| Split(pattern, pieces, allowed) && Concat(pieces) == name;
    assert Split(pattern[1..], pieces[1..], allowed);
    piece, rest := pieces[0], Concat(pieces[1..]);
  }

  lemma GlobEmpty(name: string, allowed: Alphabet)
    ensures Glob("", name, allowed) <==> name == ""
  {
    assert Split("", [], allowed) && Concat([]) == "";
  }

  lemma {:induction false} MatchImpliesGlob(pattern: string, text: string, i: nat)
    requires i <= |text| && MatchesFrom(Items(pattern), text, i)
    ensures Glob(pattern, text[i..], NoNewline())
    decreases |pattern|, |text| - i
  {
    if pattern == "" {
      GlobEmpty(text[i..], NoNewline());
    } else {
      var c, rest, items := pattern[0], pattern[1..], Items(pattern);
      assert items[1..] == Items(rest) && pattern == [c] + rest;
      if c == '*' {
        if MatchesFrom(Items(rest), text, i) {
          MatchImpliesGlob(rest, text, i);
          SplitCons(c, rest, "", text[i..], NoNewline());
          assert "" + text[i..] == text[i..];
        } else {
          MatchImpliesGlob(pattern, text, i + 1);
          var piece, tail := SplitHead(pattern, text[i + 1..], NoNewline());
          SplitCons(c, rest, [text[i]] + piece, tail, NoNewline());
          assert text[i..] == [text[i]] + piece + tail;
        }
      } else {
        MatchImpliesGlob(rest, text, i + 1);
        SplitCons(c, rest, [text[i]], text[i + 1..], NoNewline());
        assert text[i..] == [text[i]] + text[i + 1..];
      }
    }
  }

  /** A starred `.` can consume any newline-free piece. */
  lemma {:induction false} StarConsumes(items: seq<Item>, text: string, i: nat, j: nat)
    requires items != [] && items[0] == Star(Dot)
    requires i <= j <= |text| && All(text[i..j], NoNewline())
    requires MatchesFrom(items[1..], text, j)
    ensures MatchesFrom(items, text, i)
    decreases j - i
  {
    if i < j {
      assert text[i..j][0] == text[i];
      assert text[i + 1..j] == text[i..j][1..];
      StarConsumes(items, text, i + 1, j);
    }
  }

  lemma {:induction false} GlobImpliesMatch(pattern: string, text: string, i: nat)
    requires i <= |text| && Glob(pattern, text[i..], NoNewline())
    ensures MatchesFrom(Items(pattern), text, i)
    decreases |pattern|
  {
    if pattern == "" {
      GlobEmpty(text[i..], NoNewline());
    } else {
      var items := Items(pattern);
      assert items[1..] == Items(pattern[1..]);
      var piece, rest := SplitHead(pattern, text[i..], NoNewline());
      var j := i + |piece|;
      assert text[i..j] == text[i..][..|piece|] == piece;
      assert text[j..] == text[i..][|piece|..] == rest;
      GlobImpliesMatch(pattern[1..], text, j);
      if pattern[0] == '*' {
        StarConsumes(items, text, i, j);
      } else {
        assert text[i] == piece[0];
      }
    }
  }

  /** The compiled expression matches exactly what the glob matches with newline-free wildcards. */
  lemma CompiledMatchesGlob(pattern: string, name: string)
    ensures Parse(GlobExpression(pattern)).Some?
    ensures Matches(Parse(GlobExpression(pattern)).value, name) <==> Glob(pattern, name, NoNewline())
  {
    GlobExpressionParses(pattern);
    var items := [Begin] + Items(pattern);
    assert items[1..] == Items(pattern);
    assert name[0..] == name;
    if Glob(pattern, name, NoNewline()) {
      GlobImpliesMatch(pattern, name, 0);
      assert MatchesFrom(items, name, 0);
    }
    if Matches(items, name) {
      var i :| 0 <= i <= |name| && MatchesFrom(items, name, i);
      MatchImpliesGlob(pattern, name, 0);
    }
  }

  lemma {:induction false} ConcatAll(pieces: seq<string>, allowed: Alphabet, k: nat)
    requires All(Concat(pieces), allowed) && k < |pieces|
    ensures All(pieces[k], allowed)
  {
    var name, rest := Concat(pieces), Concat(pieces[1..]);
    assert name == pieces[0] + rest;
    if k == 0 {
      assert forall i :: 0 <= i < |pieces[0]| ==> pieces[0][i] == name[i];
    } else {
      assert forall i :: 0 <= i < |rest| ==> rest[i] == name[|pieces[0]| + i];
      ConcatAll(pieces[1..], allowed, k - 1);
    }
  }

  /** On newline-free names, limiting the wildcards to newline-free text changes nothing. */
  lemma NewlineFreeName(pattern: string, name: string)
    requires All(name, NoNewline())
    ensures Glob(pattern, name, NoNewline()) <==> Glob(pattern, name, Anything())
  {
    if Glob(pattern, name, Anything()) {
      var pieces :| Split(pattern, pieces, Anything()) && Concat(pieces) == name;
      forall k | 0 <= k < |pieces|
        ensures StandsFor(pattern[k], pieces[k], NoNewline())
      {
        ConcatAll(pieces, NoNewline(), k);
      }
      assert Split(pattern, pieces, NoNewline());
    }
    if Glob(pattern, name, NoNewline()) {
      var pieces :| Split(pattern, pieces, NoNewline()) && Concat(pieces) == name;
      assert Split(pattern, pieces, Anything());
    }
  }

  /**
    A pattern that is not taken as a regular expression compiles to one that
    matches exactly the newline-free names the glob matches, every character
    but `*` and `?` standing for itself.
   */
  lemma PatternMeansGlob(pattern: string, compiles: string -> bool, name: string)
    requires !(LooksLikeRegex(pattern) && compiles(pattern))
    requires All(name, NoNewline())
    ensures Parse(Expression(pattern, compiles)).Some?
    ensures Matches(Parse(Expression(pattern, compiles)).value, name) <==> Glob(pattern, name, Anything())
  {
    CompiledMatchesGlob(pattern, name);
    NewlineFreeName(pattern, name);
  }

  // ----- Which patterns are taken as globs -----

  lemma {:induction false} ContainsChar(s: string, c: char)
    ensures Contains(s, [c]) <==> c in s
  {
    assert s != "" ==> s[..1] == [s[0]];
    if s != "" && s[0] != c {
      ContainsChar(s[1..], c);
      assert c in s <==> c in s[1..];
    }
  }

  /** A `*` right after a `.`, at position `i`. */
  predicate DotStarAt(s: string, i: int) {
    0 <= i < |s| - 1 && s[i] == '.' && s[i + 1] == '*'
  }

  lemma {:induction false} ContainsDotStar(s: string)
    ensures Contains(s, ".*") <==> exists i :: DotStarAt(s, i)
  {
    if |s| >= 2 {
      assert s[..2] == [s[0], s[1]];
    }
    if DotStarAt(s, 0) {
      assert HasPrefix(s, ".*");
    } else if s != "" {
      assert !HasPrefix(s, ".*");
      ContainsDotStar(s[1..]);
      if i :| DotStarAt(s, i) {
        assert DotStarAt(s[1..], i - 1);
      }
      if i :| DotStarAt(s[1..], i) {
        assert DotStarAt(s, i + 1);
      }
    }
  }

  /** No anchor, group or alternative, and no `*` right after a `.`. */
  ghost predicate Simple(pattern: string) {
    && (forall i :: 0 <= i < |pattern| ==> pattern[i] !in {'^', '$', '(', '|'})
    && (forall i :: !DotStarAt(pattern, i))
  }

  lemma SimpleIsNoRegex(pattern: string)
    ensures LooksLikeRegex(pattern) <==> !Simple(pattern)
  {
    ContainsDotStar(pattern);
    ContainsChar(pattern, '^');
    ContainsChar(pattern, '$');
    ContainsChar(pattern, '(');
    ContainsChar(pattern, '|');
  }

  /** Every simple pattern is a glob, whatever the expression compiler would say of it. */
  lemma SimplePatternMeansGlob(pattern: string, compiles: string -> bool, name: string)
    requires Simple(pattern) && All(name, NoNewline())
    ensures Parse(Expression(pattern, compiles)).Some?
    ensures Matches(Parse(Expression(pattern, compiles)).value, name) <==> Glob(pattern, name, Anything())
  {
    SimpleIsNoRegex(pattern);
    PatternMeansGlob(pattern, compiles, name);
  }

  // ----- Names with newlines -----

  function Newlines(s: string): nat {
    if s == "" then 0 else (if s[0] == '\n' then 1 else 0) + Newlines(s[1..])
  }

  lemma {:induction false} NewlinesConcat(a: string, b: string)
    ensures Newlines(a + b) == Newlines(a) + Newlines(b)
  {
    if a == "" {
      assert a + b == b;
    } else {
      assert (a + b)[1..] == a[1..] + b;
      NewlinesConcat(a[1..], b);
    }
  }

  lemma {:induction false} NoNewlines(a: string)
    requires All(a, NoNewline())
    ensures Newlines(a) == 0
  {
    if a != "" {
      NoNewlines(a[1..]);
    }
  }

  /** The compiled expression only matches names with as many newlines as the pattern spells out. */
  lemma {:induction false} MatchFixesNewlines(pattern: string, name: string)
    requires Glob(pattern, name, NoNewline())
    ensures Newlines(name) == Newlines(pattern)
    decreases |pattern|
  {
    if pattern == "" {
      GlobEmpty(name, NoNewline());
    } else {
      var piece, rest := SplitHead(pattern, name, NoNewline());
      MatchFixesNewlines(pattern[1..], rest);
      NewlinesConcat(piece, rest);
      if Wild(pattern[0]) {
        NoNewlines(piece);
      }
    }
  }

  /** A name the glob matches: a newline for each wildcard. */
  function Sample(pattern: string): string {
    if pattern == "" then "" else [if Wild(pattern[0]) then '\n' else pattern[0]] + Sample(pattern[1..])
  }

  lemma {:induction false} SampleMatchesGlob(pattern: string)
    ensures Glob(pattern, Sample(pattern), Anything())
    ensures Newlines(Sample(pattern)) >= Newlines(pattern)
    ensures (exists i :: 0 <= i < |pattern| && Wild(pattern[i])) ==> Newlines(Sample(pattern)) > Newlines(pattern)
  {
    if pattern == "" {
      GlobEmpty("", Anything());
    } else {
      var c, rest := pattern[0], pattern[1..];
      SampleMatchesGlob(rest);
      SplitCons(c, rest, [if Wild(c) then '\n' else c], Sample(rest), Anything());
      assert pattern == [c] + rest;
      assert Sample(pattern)[1..] == Sample(rest);
      if Wild(c) {
      } else if i :| 0 <= i < |pattern| && Wild(pattern[i]) {
        assert rest[i - 1] == pattern[i];
      }
    }
  }

  lemma {:induction false} LiteralGlob(pattern: string, name: string, allowed: Alphabet)
    requires forall i :: 0 <= i < |pattern| ==> !Wild(pattern[i])
    ensures Glob(pattern, name, allowed) <==> name == pattern
    decreases |pattern|
  {
    if pattern == "" {
      GlobEmpty(name, allowed);
    } else {
      var c, rest := pattern[0], pattern[1..];
      assert pattern == [c] + rest;
      if Glob(pattern, name, allowed) {
        var piece, tail := SplitHead(pattern, name, allowed);
        LiteralGlob(rest, tail, allowed);
      }
      if name == pattern {
        LiteralGlob(rest, rest, allowed);
        SplitCons(c, rest, [c], rest, allowed);
      }
    }
  }

  /** With newlines in names the expression and the glob agree on all names exactly when there is no wildcard. */
  lemma NewlinesBreakWildcards(pattern: string)
    ensures Parse(GlobExpression(pattern)).Some?
    ensures (forall name :: Matches(Parse(GlobExpression(pattern)).value, name) <==> Glob(pattern, name, Anything()))
            <==> (forall i :: 0 <= i < |pattern| ==> !Wild(pattern[i]))
  {
    GlobExpressionParses(pattern);
    forall name
      ensures Matches(Parse(GlobExpression(pattern)).value, name) <==> Glob(pattern, name, NoNewline())
    {
      CompiledMatchesGlob(pattern, name);
    }
    if forall i :: 0 <= i < |pattern| ==> !Wild(pattern[i]) {
      forall name
        ensures Glob(pattern, name, NoNewline()) <==> Glob(pattern, name, Anything())
      {
        LiteralGlob(pattern, name, NoNewline());
        LiteralGlob(pattern, name, Anything());
      }
    } else {
      SampleMatchesGlob(pattern);
      if Glob(pattern, Sample(pattern), NoNewline()) {
        MatchFixesNewlines(pattern, Sample(pattern));
      }
    }
  }
}
