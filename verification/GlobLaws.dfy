/**
  What a pattern means, read off its text (`_glob_regex` in ember_armor/ledger/paths.py).
 */
module GlobLaws {
  import opened Prelude
  import opened Globs

  lemma Begins(k: Classes, first: Token, pattern: string, rest: string, s: string)
    requires pattern != [] && First(k, pattern) == (first, |pattern| - |rest|) && rest <= pattern[|pattern| - |rest|..]
    ensures MatchesGlob(k, s, pattern) <==> Match(k, [first] + Tokens(k, rest), s)
  {
    assert pattern[|pattern| - |rest|..] == rest;
  }

  lemma Rest(k: Classes, first: Token, tokens: seq<Token>)
    ensures ([first] + tokens)[0] == first && ([first] + tokens)[1..] == tokens
  {
  }

  predicate Begins1(pattern: string, c: char) { pattern != [] && pattern[0] == c }

  /** "*" stands for any text without a slash. */
  lemma StarMeans(k: Classes, rest: string, s: string)
    requires !Begins1(rest, '*')
    ensures MatchesGlob(k, s, "*" + rest) <==>
            exists j :: 0 <= j <= |s| && NoSlash(s[..j]) && MatchesGlob(k, s[j..], rest)
  {
    assert rest != [] ==> ("*" + rest)[1] == rest[0];
    assert ("*" + rest)[0] == '*' && ("*" + rest)[1..] == rest;
    Begins(k, Star, "*" + rest, rest, s);
    Rest(k, Star, Tokens(k, rest));
  }

  /** "**" stands for any text. */
  lemma AnyMeans(k: Classes, rest: string, s: string)
    requires !Begins1(rest, '/')
    ensures MatchesGlob(k, s, "**" + rest) <==> exists j :: 0 <= j <= |s| && MatchesGlob(k, s[j..], rest)
  {
    assert rest != [] ==> ("**" + rest)[2] == rest[0];
    assert ("**" + rest)[2..] == rest;
    Begins(k, Any, "**" + rest, rest, s);
    Rest(k, Any, Tokens(k, rest));
  }

  /** "**" with a slash behind it stands for nothing, or for whole segments. */
  lemma DeepMeans(k: Classes, rest: string, s: string)
    ensures MatchesGlob(k, s, "**/" + rest) <==>
            MatchesGlob(k, s, rest) || exists j :: 0 < j <= |s| && s[j - 1] == '/' && MatchesGlob(k, s[j..], rest)
  {
    assert ("**/" + rest)[3..] == rest;
    Begins(k, Deep, "**/" + rest, rest, s);
    Rest(k, Deep, Tokens(k, rest));
    if j :| 0 <= j < |s| && s[j] == '/' && MatchesGlob(k, s[j + 1..], rest) { assert s[j + 1 - 1] == '/'; }
    if j :| 0 < j <= |s| && s[j - 1] == '/' && MatchesGlob(k, s[j..], rest) { assert s[j - 1 + 1..] == s[j..]; }
  }

  /** "?" stands for one character that is no slash. */
  lemma OneMeans(k: Classes, rest: string, s: string)
    ensures MatchesGlob(k, s, "?" + rest) <==> s != [] && s[0] != '/' && MatchesGlob(k, s[1..], rest)
  {
    assert ("?" + rest)[0] == '?' && ("?" + rest)[1..] == rest;
    Begins(k, One, "?" + rest, rest, s);
    Rest(k, One, Tokens(k, rest));
  }

  /** A class stands for one of its characters; its first character may be a closing bracket. */
  lemma ClassMeans(k: Classes, body: string, rest: string, s: string)
    requires body != [] && k.valid(body) && forall i :: 1 <= i < |body| ==> body[i] != ']'
    ensures MatchesGlob(k, s, "[" + body + "]" + rest) <==>
            s != [] && k.has(body, s[0]) && MatchesGlob(k, s[1..], rest)
  {
    var pattern := "[" + body + "]" + rest;
    assert forall i :: 1 <= i <= |body| ==> pattern[i] == body[i - 1];
    Closes(pattern, |body| + 1, 2);
    assert pattern[1..|body| + 1] == body;
    assert pattern[|body| + 2..] == rest && pattern[0] == '[';
    assert Bracket(k, pattern);
    Begins(k, Class(body), pattern, rest, s);
    Rest(k, Class(body), Tokens(k, rest));
  }

  /** A bracket whose body is no class stands for itself. */
  lemma BadClassMeans(k: Classes, body: string, rest: string, s: string)
    requires body != [] && !k.valid(body) && forall i :: 1 <= i < |body| ==> body[i] != ']'
    ensures MatchesGlob(k, s, "[" + (body + "]" + rest)) <==>
            s != [] && s[0] == '[' && MatchesGlob(k, s[1..], body + "]" + rest)
  {
    var behind := body + "]" + rest;
    var pattern := "[" + behind;
    assert forall i :: 1 <= i <= |body| ==> pattern[i] == body[i - 1];
    Closes(pattern, |body| + 1, 2);
    assert pattern[1..|body| + 1] == body && pattern[0] == '[';
    assert !Bracket(k, pattern);
    Begins(k, Lit('['), pattern, behind, s);
    Rest(k, Lit('['), Tokens(k, behind));
  }

  lemma {:induction false} Closes(s: string, close: nat, from: nat)
    requires from <= close < |s| && s[close] == ']' && forall i :: from <= i < close ==> s[i] != ']'
    ensures Find(s, ']', from) == Some(close)
    decreases close - from
  {
    if from < close { Closes(s, close, from + 1); }
  }

  /** Any other character, and a bracket that opens no class, stands for itself. */
  lemma OthersMean(k: Classes, c: char, rest: string, s: string)
    requires c != '*' && c != '?' && (c == '[' ==> forall i :: 1 <= i < |rest| ==> rest[i] != ']')
    ensures MatchesGlob(k, s, [c] + rest) <==> s != [] && s[0] == c && MatchesGlob(k, s[1..], rest)
  {
    var pattern := [c] + rest;
    assert pattern[0] == c && pattern[1..] == rest;
    assert forall i :: 2 <= i < |pattern| ==> pattern[i] == rest[i - 1];
    Begins(k, Lit(c), pattern, rest, s);
    Rest(k, Lit(c), Tokens(k, rest));
  }

  /** The whole text is a match for nothing but the empty pattern behind everything that was matched. */
  lemma NothingMeans(k: Classes, s: string) ensures MatchesGlob(k, s, "") <==> s == [] {}
}
