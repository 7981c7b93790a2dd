/**
  Patterns that begin with wildcards only: which texts they take.  This decides what a
  pattern that takes "/" says of all other paths.
 */
module WildTokens {
  import opened Prelude
  import opened Globs

  /** Tokens that can take nothing. */
  predicate AllWild(tokens: seq<Token>) {
    forall i :: 0 <= i < |tokens| ==> tokens[i].Deep? || tokens[i].Any? || tokens[i].Star?
  }

  // A "**", or a "**/" with a "*" somewhere behind it.
  predicate TakesAnything(tokens: seq<Token>) {
    (exists i :: 0 <= i < |tokens| && tokens[i].Any?) ||
    (exists i, j :: 0 <= i < j < |tokens| && tokens[i].Deep? && tokens[j].Star?)
  }

  lemma {:induction false} MatchJoin(k: Classes, a: seq<Token>, b: seq<Token>, s: string, t: string)
    requires Match(k, a, s) && Match(k, b, t)
    ensures Match(k, a + b, s + t)
    decreases a
  {
    hide Match;
    if a == [] {
      NothingLeft(k, s);
      assert a + b == b && s + t == t;
    } else {
      var j := FirstTook(k, a, s);
      MatchJoin(k, a[1..], b, s[j..], t);
      assert (a + b)[1..] == a[1..] + b && (s + t)[j..] == s[j..] + t && (s + t)[..j] == s[..j];
      FirstTakes(k, a + b, s + t, j);
    }
  }

  lemma {:induction false} MatchSplit(k: Classes, a: seq<Token>, b: seq<Token>, s: string) returns (j: nat)
    requires Match(k, a + b, s)
    ensures j <= |s| && Match(k, a, s[..j]) && Match(k, b, s[j..])
    decreases a
  {
    hide Match;
    if a == [] {
      j := 0;
      NothingLeft(k, s[..0]);
      assert a + b == b && s[0..] == s;
    } else {
      assert (a + b)[1..] == a[1..] + b;
      var i := FirstTook(k, a + b, s);
      var n := MatchSplit(k, a[1..], b, s[i..]);
      j := i + n;
      assert s[i..][n..] == s[j..] && s[..j][i..] == s[i..][..n] && s[..j][..i] == s[..i];
      FirstTakes(k, a, s[..j], i);
    }
  }

  lemma {:induction false} TakesNothing(k: Classes, tokens: seq<Token>)
    ensures Match(k, tokens, "") <==> AllWild(tokens)
    decreases tokens
  {
    hide Match;
    NothingLeft(k, "");
    if tokens != [] {
      TakesNothing(k, tokens[1..]);
      if Match(k, tokens, "") {
        var j := FirstTook(k, tokens, "");
        assert ""[j..] == "";
        assert forall i :: 1 <= i < |tokens| ==> tokens[i] == tokens[1..][i - 1];
      }
      if AllWild(tokens) {
        FirstTakes(k, tokens, "", 0);
      }
    }
  }

  lemma OneToken(k: Classes, token: Token, s: string)
    requires Takes(k, token, s)
    ensures Match(k, [token], s)
  {
    hide Match;
    NothingLeft(k, "");
    assert s[|s|..] == "" && s[..|s|] == s && [token][1..] == [];
    FirstTakes(k, [token], s, |s|);
  }

  lemma AroundOne(k: Classes, tokens: seq<Token>, i: nat, s: string)
    requires AllWild(tokens) && i < |tokens| && Takes(k, tokens[i], s)
    ensures Match(k, tokens, s)
  {
    hide Match;
    TakesNothing(k, tokens[..i]);
    TakesNothing(k, tokens[i + 1..]);
    OneToken(k, tokens[i], s);
    MatchJoin(k, tokens[..i], [tokens[i]], "", s);
    MatchJoin(k, tokens[..i] + [tokens[i]], tokens[i + 1..], "" + s, "");
    assert tokens[..i] + [tokens[i]] + tokens[i + 1..] == tokens && "" + s + "" == s;
  }

  /** How far the directories of a text reach. */
  function Slashed(s: string): (n: nat)
    ensures n <= |s| && (n == 0 || s[n - 1] == '/') && NoSlash(s[n..])
  {
    if s == [] || Last(s) == '/' then |s|
    else
      var n := Slashed(Init(s));
      assert s[n..] == Init(s)[n..] + [Last(s)];
      n
  }

  lemma AnythingIsTaken(k: Classes, tokens: seq<Token>, s: string)
    requires AllWild(tokens) && TakesAnything(tokens)
    ensures Match(k, tokens, s)
  {
    hide Match;
    if i :| 0 <= i < |tokens| && tokens[i].Any? {
      AroundOne(k, tokens, i, s);
    } else {
      var i, j :| 0 <= i < j < |tokens| && tokens[i].Deep? && tokens[j].Star?;
      var n := Slashed(s);
      AroundOne(k, tokens[..j], i, s[..n]);
      AroundOne(k, tokens[j..], 0, s[n..]);
      MatchJoin(k, tokens[..j], tokens[j..], s[..n], s[n..]);
      assert tokens[..j] + tokens[j..] == tokens && s[..n] + s[n..] == s;
    }
  }

  lemma SlashInFront(s: string, j: nat)
    requires 0 < j <= |s| && s[0] == '/'
    ensures !NoSlash(s[..j])
  {
    assert s[..j][0] == '/';
  }

  // Without such tokens "/b" is not taken.
  lemma {:induction false} NameBehindSlash(k: Classes, tokens: seq<Token>)
    requires AllWild(tokens) && !TakesAnything(tokens)
    ensures !Match(k, tokens, "/b")
    decreases tokens
  {
    hide Match;
    var s := "/b";
    if Match(k, tokens, s) {
      if tokens == [] {
        NothingLeft(k, s);
      } else {
        var j := FirstTook(k, tokens, s);
        var rest := tokens[1..];
        assert forall i :: 0 <= i < |rest| ==> rest[i] == tokens[i + 1];
        if tokens[0].Star? {
          if j > 0 { SlashInFront(s, j); }
          assert s[0..] == s;
          NameBehindSlash(k, rest);
        } else {
          assert forall i :: 0 <= i < |rest| ==> rest[i].Deep?;
          DirectoriesOnly(k, rest, s[j..]);
        }
      }
    }
  }

  lemma {:induction false} DirectoriesOnly(k: Classes, tokens: seq<Token>, s: string)
    requires (forall i :: 0 <= i < |tokens| ==> tokens[i].Deep?) && Match(k, tokens, s)
    ensures s == "" || Last(s) == '/'
    decreases tokens
  {
    hide Match;
    if tokens == [] {
      NothingLeft(k, s);
    } else {
      var j := FirstTook(k, tokens, s);
      DirectoriesOnly(k, tokens[1..], s[j..]);
      if s[j..] == "" { assert s[..j] == s; }
    }
  }
}
