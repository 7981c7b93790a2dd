/**
  The pattern language of rules: `_glob_regex`, `matches_glob` and `is_under`
  (ember_armor/ledger/paths.py) on the POSIX flavour.  Character classes are left to two
  functions: which bodies are a class, and what is in it.
 */
module Globs {
  import opened Prelude

  datatype Classes = Classes(valid: string -> bool, has: (string, char) -> bool)

  /** One piece of a pattern, by what it matches. */
  datatype Token =
    | Deep                 // "**/": nothing, or anything that ends in a slash
    | Any                  // "**": anything
    | Star                 // "*": anything without a slash
    | One                  // "?": one character that is no slash
    | Class(body: string)
    | Lit(c: char)

  /** Index of the first `c` at or after `from`, as `str.find`. */
  function Find(s: string, c: char, from: nat): (r: Option<nat>)
    ensures r.Some? ==> from <= r.value < |s| && s[r.value] == c
    decreases |s| - from
  {
    if from >= |s| then None else if s[from] == c then Some(from) else Find(s, c, from + 1)
  }

  predicate Bracket(k: Classes, s: string) {
    s != [] && s[0] == '[' && Find(s, ']', 2).Some? && k.valid(s[1..Find(s, ']', 2).value])
  }

  /** The first piece of a pattern, and how many characters it takes. */
  function First(k: Classes, s: string): (r: (Token, nat))
    requires s != []
    ensures 0 < r.1 <= |s|
  {
    if "**/" <= s then (Deep, 3)
    else if "**" <= s then (Any, 2)
    else if s[0] == '*' then (Star, 1)
    else if s[0] == '?' then (One, 1)
    else if Bracket(k, s) then
      var close := Find(s, ']', 2).value;
      (Class(s[1..close]), close + 1)
    else (Lit(s[0]), 1)
  }

  function Tokens(k: Classes, s: string): seq<Token> {
    if s == [] then [] else [First(k, s).0] + Tokens(k, s[First(k, s).1..])
  }

  /** Without the slashes at its end. */
  function Trimmed(s: string): (r: string)
    ensures r == [] || Last(r) != '/'
    ensures r <= s
  {
    if s != [] && Last(s) == '/' then Trimmed(Init(s)) else s
  }

  lemma NoTokens(k: Classes) ensures Tokens(k, []) == [] {}

  lemma CompileStep(k: Classes, out: seq<Token>, text: string, i: nat)
    requires i < |text|
    ensures var (piece, width) := First(k, text[i..]);
            i + width <= |text| && out + Tokens(k, text[i..]) == out + [piece] + Tokens(k, text[i + width..])
  {
    var (piece, width) := First(k, text[i..]);
    assert text[i..][width..] == text[i + width..];
  }

  /** The loop of `_glob_regex`, which looks at the pattern from index `i` on. */
  method Compile(k: Classes, pattern: string, under: bool) returns (out: seq<Token>)
    ensures out == Tokens(k, if under then Trimmed(pattern) else pattern)
  {
    hide Tokens;
    NoTokens(k);
    var text := if under then Trimmed(pattern) else pattern;
    out := [];
    var i := 0;
    assert text[0..] == text;
    while i < |text|
      invariant 0 <= i <= |text|
      invariant out + Tokens(k, text[i..]) == Tokens(k, text)
    {
      var rest := text[i..];
      var piece, width;
      if "**/" <= rest {
        piece, width := Deep, 3;
      } else if "**" <= rest {
        piece, width := Any, 2;
      } else if rest[0] == '*' {
        piece, width := Star, 1;
      } else if rest[0] == '?' {
        piece, width := One, 1;
      } else if Bracket(k, rest) {
        var close := Find(rest, ']', 2).value;
        piece, width := Class(rest[1..close]), close + 1;
      } else {
        piece, width := Lit(rest[0]), 1;
      }
      CompileStep(k, out, text, i);
      out := out + [piece];
      i := i + width;
    }
    assert text[i..] == [];
  }

  // ---- matching --------------------------------------------------------------------

  predicate NoSlash(s: string) { '/' !in s }

  /** The whole of `s` matches. */
  predicate Match(k: Classes, tokens: seq<Token>, s: string)
    decreases tokens
  {
    if tokens == [] then s == []
    else
      var rest := tokens[1..];
      match tokens[0]
      case Deep => Match(k, rest, s) || exists j :: 0 <= j < |s| && s[j] == '/' && Match(k, rest, s[j + 1..])
      case Any => exists j :: 0 <= j <= |s| && Match(k, rest, s[j..])
      case Star => exists j :: 0 <= j <= |s| && NoSlash(s[..j]) && Match(k, rest, s[j..])
      case One => s != [] && s[0] != '/' && Match(k, rest, s[1..])
      case Class(body) => s != [] && k.has(body, s[0]) && Match(k, rest, s[1..])
      case Lit(c) => s != [] && s[0] == c && Match(k, rest, s[1..])
  }

  predicate MatchesGlob(k: Classes, path: string, pattern: string) { Match(k, Tokens(k, pattern), path) }

  /** A name ends at `j`. */
  predicate Edge(path: string, j: nat) { j == |path| || (j < |path| && path[j] == '/') }

  /** `is_under`: the path, or a directory above it, matches the pattern. */
  predicate IsUnder(k: Classes, path: string, directory: string) {
    exists j :: 0 <= j <= |path| && Edge(path, j) && Match(k, Tokens(k, Trimmed(directory)), path[..j])
  }

  // ---- facts about matching ----------------------------------------------------------

  predicate Wild(s: string) { '*' in s || '?' in s || '[' in s }

  function Literals(s: string): seq<Token> { seq(|s|, i requires 0 <= i < |s| => Lit(s[i])) }

  lemma {:induction false} PlainTokens(k: Classes, s: string)
    requires !Wild(s)
    ensures Tokens(k, s) == Literals(s)
  {
    if s != [] {
      assert s[0] in s;
      assert forall c :: c in s[1..] ==> c in s;
      PlainTokens(k, s[1..]);
    }
  }

  lemma {:induction false} PlainMatch(k: Classes, text: string, s: string)
    ensures Match(k, Literals(text), s) <==> s == text
    decreases text
  {
    if text != [] {
      assert Literals(text)[1..] == Literals(text[1..]);
      if s != [] { PlainMatch(k, text[1..], s[1..]); }
    }
  }

  /** A pattern without wildcards matches itself only. */
  lemma PlainMatchesItself(k: Classes, pattern: string, s: string)
    requires !Wild(pattern)
    ensures MatchesGlob(k, s, pattern) <==> s == pattern
  {
    PlainTokens(k, pattern);
    PlainMatch(k, pattern, s);
  }

  lemma LastTakesMore(k: Classes, token: Token, s: string, more: string)
    requires (token.Star? || token.Any?) && NoSlash(more) && Match(k, [token], s)
    ensures Match(k, [token], s + more)
  {
    var t := s + more;
    if token.Star? {
      var j :| 0 <= j <= |s| && NoSlash(s[..j]) && Match(k, [token][1..], s[j..]);
      assert s[..j] == s;
    }
    assert t[..|t|] == t && t[|t|..] == [];
  }

  lemma NothingLeft(k: Classes, s: string) ensures Match(k, [], s) <==> s == [] {}

  /** What one token takes. */
  predicate Takes(k: Classes, token: Token, s: string) {
    match token
    case Deep => s == [] || Last(s) == '/'
    case Any => true
    case Star => NoSlash(s)
    case One => |s| == 1 && s[0] != '/'
    case Class(body) => |s| == 1 && k.has(body, s[0])
    case Lit(c) => s == [c]
  }

  /** The first token takes the first `j` characters, the other tokens the rest. */
  lemma FirstTakes(k: Classes, tokens: seq<Token>, s: string, j: nat)
    requires tokens != [] && j <= |s| && Takes(k, tokens[0], s[..j]) && Match(k, tokens[1..], s[j..])
    ensures Match(k, tokens, s)
  {
    if tokens[0].Deep? {
      if j == 0 { assert s[0..] == s; } else { assert s[j - 1..][1..] == s[j..]; }
    }
  }

  lemma FirstTook(k: Classes, tokens: seq<Token>, s: string) returns (j: nat)
    requires tokens != [] && Match(k, tokens, s)
    ensures j <= |s| && Takes(k, tokens[0], s[..j]) && Match(k, tokens[1..], s[j..])
  {
    var rest := tokens[1..];
    match tokens[0]
    case Deep =>
      if Match(k, rest, s) {
        j := 0;
        assert s[0..] == s;
      } else {
        var i :| 0 <= i < |s| && s[i] == '/' && Match(k, rest, s[i + 1..]);
        j := i + 1;
      }
    case Any => j :| 0 <= j <= |s| && Match(k, rest, s[j..]);
    case Star => j :| 0 <= j <= |s| && NoSlash(s[..j]) && Match(k, rest, s[j..]);
    case _ => j := 1;
  }

  /** A pattern that ends in a star takes more text without a slash. */
  lemma {:induction false} TailTakesMore(k: Classes, tokens: seq<Token>, s: string, more: string)
    requires tokens != [] && (Last(tokens).Star? || Last(tokens).Any?) && NoSlash(more)
    requires Match(k, tokens, s)
    ensures Match(k, tokens, s + more)
    decreases tokens
  {
    hide Match;
    var rest, t := tokens[1..], s + more;
    if rest == [] {
      assert tokens == [tokens[0]];
      LastTakesMore(k, tokens[0], s, more);
    } else {
      assert Last(rest) == Last(tokens);
      var j := FirstTook(k, tokens, s);
      TailTakesMore(k, rest, s[j..], more);
      assert t[j..] == s[j..] + more && t[..j] == s[..j];
      FirstTakes(k, tokens, t, j);
    }
  }

  // A leading Deep takes any directory in front of what it takes already.
  lemma DeepTakesMore(k: Classes, rest: seq<Token>, before: string, s: string)
    requires Match(k, [Deep] + rest, s)
    ensures Match(k, [Deep] + rest, before + "/" + s)
  {
    hide Match;
    var tokens, t := [Deep] + rest, before + "/" + s;
    assert tokens[1..] == rest;
    var j := FirstTook(k, tokens, s);
    var i := |before| + 1 + j;
    assert t[i..] == s[j..] && t[i - 1] == if j == 0 then '/' else s[j - 1];
    FirstTakes(k, tokens, t, i);
  }

  // ---- tokens at the end of a pattern --------------------------------------------------

  lemma {:induction false} TokensEnd(k: Classes, s: string)
    requires s != [] && Last(s) != '/'
    ensures var t := Tokens(k, s); t != [] && !Last(t).Deep? && Last(t) != Lit('/')
  {
    var (piece, width) := First(k, s);
    if width < |s| {
      assert Last(s[width..]) == Last(s);
      TokensEnd(k, s[width..]);
    } else {
      assert Tokens(k, s[width..]) == [];
    }
  }

  /** The last character of what matches is matched by the last token, if that takes one. */
  lemma {:induction false} LastMatched(k: Classes, tokens: seq<Token>, s: string)
    requires tokens != [] && Match(k, tokens, s)
    ensures Last(tokens).One? ==> s != [] && Last(s) != '/'
    ensures Last(tokens).Lit? ==> s != [] && Last(s) == Last(tokens).c
    ensures Last(tokens).Class? ==> s != [] && k.has(Last(tokens).body, Last(s))
    decreases tokens
  {
    hide Match;
    var rest := tokens[1..];
    var j := FirstTook(k, tokens, s);
    if rest == [] {
      NothingLeft(k, s[j..]);
    } else {
      LastMatched(k, rest, s[j..]);
    }
  }
}
