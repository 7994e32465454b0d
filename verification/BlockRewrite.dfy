/** Rewriting the inside of a comment or a string leaves a block's end where it was. */
module BlockRewrite {
  import opened Wrappers
  import opened Lexemes
  import opened BlockLexer

  /** A token of the text starts at `n`, or the text ends there. */
  predicate Boundary(s: string, n: nat)
    decreases |s|
  {
    n == 0 || (s != "" && !Lex(s).kind.Broken? && Lex(s).len <= n && Boundary(s[Lex(s).len..], n - Lex(s).len))
  }

  function Before(s: string, n: nat): seq<Token>
    requires Boundary(s, n)
    decreases |s|
  {
    if n == 0 then [] else [Lex(s)] + Before(s[Lex(s).len..], n - Lex(s).len)
  }

  /** A quote that opens no character literal: a lifetime. */
  predicate LoneQuote(s: string) {
    s != "" && s[0] == '\'' && Lex(s).kind.Other?
  }

  predicate QuoteWithin(v: string, n: nat) {
    exists i :: 0 <= i < n && i < |v| && v[i] == '\''
  }

  /** No lifetime before `n` would, with `v` put at `n`, find a quote within its four characters. */
  predicate Clear(s: string, n: nat, v: string)
    requires Boundary(s, n)
    decreases |s|
  {
    n == 0
    || ((LoneQuote(s) && n < 5 ==> !QuoteWithin(v, 5 - n)) && Clear(s[Lex(s).len..], n - Lex(s).len, v))
  }

  // ----- one token -----

  lemma MatchesQuote(s: string, q: nat)
    ensures Matches(s, "'", q) <==> q < |s| && s[q] == '\''
  {
    assert "'"[0] == '\'';
  }

  /** A quote is a lifetime exactly when no other quote follows within four characters. */
  lemma LoneExactly(s: string)
    requires s != "" && s[0] == '\''
    ensures Lex(s).kind.Other? <==> forall q :: 1 <= q <= 4 && q < |s| ==> s[q] != '\''
    ensures Lex(s).kind.Other? ==> Lex(s).len == 1
    ensures !Lex(s).kind.Other? ==> Lex(s).kind.CharLiteral?
    ensures forall q :: 1 <= q < |s| && s[q] == '\'' && !Lex(s).kind.Other? ==> Lex(s).len <= q + 1
  {
    IndexOfIsFirst(s, "'", 1);
    forall q: nat ensures Matches(s, "'", q) <==> q < |s| && s[q] == '\'' {
      MatchesQuote(s, q);
    }
  }

  /** The run of hashes at the front of `a` is over before, or at, whatever non-hash follows. */
  lemma RunAcross(a: string, u: string)
    requires a != "" && u != "" && u[0] != '#'
    ensures HashRun(a + u, 1) == HashRun(a, 1)
  {
    var s := a + u;
    assert forall i :: 0 <= i < |a| ==> s[i] == a[i];
    assert s[|a|] == u[0];
    var h, g := HashRun(s, 1), HashRun(a, 1);
    assert 1 + g <= |a|;
    assert s[1 + g] != '#';
  }

  /** Replacing what follows changes a token that is already complete in one way only: a lifetime
      may become a character literal. */
  lemma FirstTokenKept(a: string, u: string, v: string)
    requires a != "" && u != "" && v != "" && u[0] == v[0] && u[0] != '#'
    requires !Lex(a + u).kind.Broken? && Lex(a + u).len <= |a|
    requires LoneQuote(a + u) && |a| < 5 ==> !QuoteWithin(v, 5 - |a|)
    ensures Lex(a + v) == Lex(a + u)
  {
    var s, s', t := a + u, a + v, Lex(a + u);
    assert s[0] == a[0] == s'[0];
    assert forall i :: 0 <= i <= |a| ==> s[i] == s'[i];
    if Skipped(t.kind) {
      LexIsExact(s, t.kind, t.len);
      LexIsExact(s', t.kind, t.len);
      assert s[..t.len] == a[..t.len] == s'[..t.len];
    } else if a[0] == '\'' {
      LoneExactly(s);
      LoneExactly(s');
      forall q | 1 <= q <= 4 && q < |s'| ensures s'[q] != '\'' {
        if q < |a| {
          assert s[q] == a[q] == s'[q];
        } else {
          assert s'[q] == v[q - |a|];
        }
      }
    } else {
      RunAcross(a, u);
      RunAcross(a, v);
      PlainToken(s);
      PlainToken(s');
    }
  }

  /** A text that starts no skipped token. */
  lemma PlainToken(s: string)
    requires s != "" && s[0] != '\''
    ensures Lex(s).len == 1 && !Skipped(Lex(s).kind) && !Lex(s).kind.Broken?
       <==> s[0] != '"' && !StartsRaw(s) && !(s[0] == '/' && |s| > 1 && (s[1] == '/' || s[1] == '*'))
    ensures !Skipped(Lex(s).kind) && !Lex(s).kind.Broken? ==>
              Lex(s) == Token(if s[0] == '{' then Open else if s[0] == '}' then Close else Other, 1)
  {
  }

  /** A lifetime that finds a quote in what now follows swallows the boundary. */
  lemma FirstTokenLost(a: string, u: string, v: string)
    requires a != "" && u != "" && v != "" && u[0] == v[0]
    requires LoneQuote(a + u) && |a| < 5 && QuoteWithin(v, 5 - |a|)
    ensures !Boundary(a + v, |a|)
  {
    var s, s' := a + u, a + v;
    LoneExactly(s);
    LoneExactly(s');
    forall q | 1 <= q < |a| ensures a[q] != '\'' {
      assert s[q] == a[q];
    }
    assert forall q :: 1 <= q < |a| ==> s'[q] == a[q];
    var i :| 0 <= i < 5 - |a| && i < |v| && v[i] == '\'';
    assert s'[|a| + i] == '\'';
    assert Lex(s').kind.CharLiteral?;
    var n := Lex(s').len;
    LexIsExact(s', CharLiteral, n);
    MatchesQuote(s'[..n], n - 1);
    assert s'[n - 1] == '\'';
  }

  // ----- all tokens before the rewrite -----

  /** The boundary survives exactly when no lifetime just before it comes to see a quote. */
  lemma {:induction false} BoundaryKeptExactly(a: string, u: string, v: string)
    requires u != "" && v != "" && u[0] == v[0] && u[0] != '#' && Boundary(a + u, |a|)
    ensures Boundary(a + v, |a|) <==> Clear(a + u, |a|, v)
    ensures Clear(a + u, |a|, v) ==> Boundary(a + v, |a|) && Before(a + v, |a|) == Before(a + u, |a|)
    decreases |a|
  {
    if a != "" {
      if LoneQuote(a + u) && |a| < 5 && QuoteWithin(v, 5 - |a|) {
        FirstTokenLost(a, u, v);
      } else {
        FirstTokenKept(a, u, v);
        var rest := a[Lex(a + u).len..];
        Tail(a, u, Lex(a + u).len);
        Tail(a, v, Lex(a + u).len);
        BoundaryKeptExactly(rest, u, v);
        BoundaryKeptOn(a + u, a + v, |a|, rest + u, rest + v, v);
      }
    }
  }

  lemma Tail(a: string, u: string, n: nat)
    requires n <= |a|
    ensures (a + u)[n..] == a[n..] + u
  {
  }

  lemma BoundaryKeptOn(s: string, s': string, n: nat, tail: string, tail': string, v: string)
    requires n > 0 && s != "" && s' != "" && Boundary(s, n) && Lex(s') == Lex(s)
    requires tail == s[Lex(s).len..] && Lex(s).len <= |s'| && tail' == s'[Lex(s).len..]
    requires LoneQuote(s) && n < 5 ==> !QuoteWithin(v, 5 - n)
    requires Boundary(tail', n - Lex(s).len) <==> Clear(tail, n - Lex(s).len, v)
    requires Clear(tail, n - Lex(s).len, v) ==> Before(tail', n - Lex(s).len) == Before(tail, n - Lex(s).len)
    ensures Boundary(s', n) <==> Clear(s, n, v)
    ensures Clear(s, n, v) ==> Before(s', n) == Before(s, n)
  {
  }

  lemma {:induction false} TokensSplit(s: string, n: nat, rest: string)
    requires Boundary(s, n) && n <= |s| && rest == s[n..]
    ensures Tokens(s) == Before(s, n) + Tokens(rest)
    decreases |s|
  {
    if n == 0 {
      assert rest == s;
    } else {
      var tail, m := s[Lex(s).len..], n - Lex(s).len;
      assert tail[m..] == rest;
      TokensSplit(tail, m, rest);
      SplitStep(s, n, tail, rest);
    }
  }

  lemma SplitStep(s: string, n: nat, tail: string, rest: string)
    requires n > 0 && Boundary(s, n) && tail == s[Lex(s).len..]
    requires Tokens(tail) == Before(tail, n - Lex(s).len) + Tokens(rest)
    ensures Tokens(s) == Before(s, n) + Tokens(rest)
  {
  }

  lemma {:induction false} BeforeIsSolid(s: string, n: nat)
    requires Boundary(s, n)
    ensures Width(Before(s, n)) == n && Solid(Before(s, n))
    decreases |s|
  {
    if n > 0 {
      BeforeIsSolid(s[Lex(s).len..], n - Lex(s).len);
    }
  }

  /** A lexeme is the first token of any text it starts. */
  lemma LexemeFirst(t: string, k: Kind, b: string)
    requires Skipped(k) && Lexeme(t, k)
    ensures t != "" && Lex(t + b) == Token(k, |t|)
    ensures Tokens(t + b) == [Token(k, |t|)] + Tokens(b)
    ensures t[0] == (match k case LineComment => '/' case BlockComment => '/' case RawString => 'r'
                     case CharLiteral => '\'' case _ => '"')
  {
    assert (t + b)[..|t|] == t;
    LexIsExact(t + b, k, |t|);
    assert (t + b)[|t|..] == b;
  }

  // ----- where the block ends -----

  /** Where the end moves when `x` characters at `n` become `y`. */
  function Moved(r: Option<nat>, n: nat, x: nat, y: nat): Option<nat> {
    match r
    case None => None
    case Some(c) => if c < n + x then Some(c) else Some(c - x + y)
  }

  predicate Solid(ts: seq<Token>) {
    forall i :: 0 <= i < |ts| ==> ts[i].len >= 1
  }

  /** The two scans agree up to the move, and neither ends inside the token. */
  predicate Corresponds(c: Option<nat>, c': Option<nat>, n: nat, x: nat, y: nat) {
    c' == Moved(c, n, x, y) && (c.Some? ==> c.value < n || c.value >= n + x)
  }

  lemma {:induction false} CloseMoves(before: seq<Token>, k: Kind, x: nat, y: nat, after: seq<Token>, d: int)
    requires Skipped(k) && Solid(before) && x >= 1
    ensures Corresponds(CloseIn(before + ([Token(k, x)] + after), d),
                        CloseIn(before + ([Token(k, y)] + after), d), Width(before), x, y)
    decreases |before|
  {
    var xs, ys := [Token(k, x)] + after, [Token(k, y)] + after;
    if before == [] {
      assert before + xs == xs && before + ys == ys;
      CloseCons(Token(k, x), after, d);
      CloseCons(Token(k, y), after, d);
    } else {
      CloseMoves(before[1..], k, x, y, after, d + Delta(before[0].kind));
      CloseMovesOn(before[0], before[1..], xs, ys, d, x, y);
      assert before == [before[0]] + before[1..];
    }
  }

  lemma CloseMovesOn(t: Token, rest: seq<Token>, xs: seq<Token>, ys: seq<Token>, d: int, x: nat, y: nat)
    requires t.len >= 1
    requires Corresponds(CloseIn(rest + xs, d + Delta(t.kind)), CloseIn(rest + ys, d + Delta(t.kind)),
                         Width(rest), x, y)
    ensures Corresponds(CloseIn([t] + rest + xs, d), CloseIn([t] + rest + ys, d), Width([t] + rest), x, y)
  {
    assert [t] + rest + xs == [t] + (rest + xs) && [t] + rest + ys == [t] + (rest + ys);
    CloseCons(t, rest + xs, d);
    CloseCons(t, rest + ys, d);
    MovedLater(CloseIn(rest + xs, d + Delta(t.kind)), t.len, Width(rest), x, y);
    WidthCons(t, rest);
  }

  lemma WidthCons(t: Token, rest: seq<Token>)
    ensures Width([t] + rest) == t.len + Width(rest)
  {
  }

  lemma MovedLater(c: Option<nat>, len: nat, n: nat, x: nat, y: nat)
    ensures Moved(Later(c, len), len + n, x, y) == Later(Moved(c, n, x, y), len)
  {
  }

  lemma CloseCons(t: Token, rest: seq<Token>, d: int)
    ensures CloseIn([t] + rest, d)
         == if t.kind.Close? && d == 1 then Some(0) else Later(CloseIn(rest, d + Delta(t.kind)), t.len)
  {
  }

  /** Put any other comment, string, raw string or character literal of the same kind where one
      stood: as long as no lifetime in the three characters before it comes to see a quote, the
      block's end is the same brace, moved only by the change in length. */
  lemma RewriteKeepsTheEnd(a: string, t: string, t': string, b: string, k: Kind, d: int)
    requires Skipped(k) && Lexeme(t, k) && Lexeme(t', k)
    requires Boundary(a + (t + b), |a|) && Clear(a + (t + b), |a|, t' + b)
    ensures Corresponds(CloseIn(Tokens(a + (t + b)), d), CloseIn(Tokens(a + (t' + b)), d), |a|, |t|, |t'|)
  {
    LexemeFirst(t, k, b);
    LexemeFirst(t', k, b);
    BoundaryKeptExactly(a, t + b, t' + b);
    TokensSplit(a + (t + b), |a|, t + b);
    TokensSplit(a + (t' + b), |a|, t' + b);
    BeforeIsSolid(a + (t + b), |a|);
    CloseMoves(Before(a + (t + b), |a|), k, |t|, |t'|, Tokens(b), d);
  }

  /** Comments and double-quoted strings that follow no lifetime closely can be rewritten freely. */
  lemma FarQuotesAreClear(a: string, u: string, v: string)
    requires Boundary(a + u, |a|)
    requires forall i :: 0 <= i < |a| && |a| - i < 5 ==> a[i] != '\''
    ensures Clear(a + u, |a|, v)
    decreases |a|
  {
    if a != "" {
      var t := Lex(a + u);
      assert (a + u)[0] == a[0];
      assert (a + u)[t.len..] == a[t.len..] + u;
      FarQuotesAreClear(a[t.len..], u, v);
    }
  }

  /** So the body is the same text with the one token put for the other, or does not reach it. */
  lemma RewriteKeepsTheBody(a: string, t: string, t': string, b: string, k: Kind, s: string, s': string)
    requires s == a + (t + b) && s' == a + (t' + b)
    requires Skipped(k) && Lexeme(t, k) && Lexeme(t', k)
    requires Boundary(s, |a|) && Clear(s, |a|, t' + b)
    ensures Body(s) == "" == Body(s')
         || (|Body(s)| < |a| && Body(s') == Body(s))
         || (exists e :: 0 <= e <= |b| && Body(s) == a + t + b[..e] && Body(s') == a + t' + b[..e])
  {
    var c, c' := CloseIn(Tokens(s), 1), CloseIn(Tokens(s'), 1);
    RewriteKeepsTheEnd(a, t, t', b, k, 1);
    BodyFound(s, c);
    BodyFound(s', c');
    if c.Some? {
      SameCut(a, t, t', b, c.value, c'.value);
    }
  }

  lemma SameCut(a: string, t: string, t': string, b: string, c: nat, c': nat)
    requires c <= |a + (t + b)| && c' <= |a + (t' + b)|
    requires (c < |a| && c' == c) || (c >= |a| + |t| && c' == c - |t| + |t'|)
    ensures (c < |a| && (a + (t' + b))[..c'] == (a + (t + b))[..c])
         || (c >= |a| + |t| && c - |a| - |t| <= |b|
             && (a + (t + b))[..c] == a + t + b[..c - |a| - |t|]
             && (a + (t' + b))[..c'] == a + t' + b[..c - |a| - |t|])
  {
  }

  /** Without the proviso it is false: after a lifetime, a quote inside the string next to it turns
      the lifetime into a literal, and the string never closes. */
  lemma LifetimeSeesIntoTheString(t: string, t': string)
    requires t == "\"abc\"" && t' == "\"a'c\""
    ensures Lexeme(t, StringLiteral) && Lexeme(t', StringLiteral)
    ensures Body("'" + (t + "}")) == "'" + t
    ensures Body("'" + (t' + "}")) == ""
  {
    PlainString(t);
    PlainString(t');
    LifetimeThenToken(t, StringLiteral, "'" + (t + "}"));
    LiteralThenOpenString("'" + (t' + "}"), ['\'', '"', 'a', '\''], ['c', '"', '}'], ['"', '}']);
  }

  lemma PlainString(t: string)
    requires |t| == 5 && t[0] == '"' && t[4] == '"' && forall i :: 1 <= i < 4 ==> t[i] != '\\' && t[i] != '"'
    ensures Lexeme(t, StringLiteral)
  {
    var u := t[1..4];
    assert Escaped(u[1..][1..][1..]);
    assert Escaped(u[1..][1..]);
    assert Escaped(u[1..]);
  }

  lemma OnlyClose()
    ensures Tokens("}") == [Token(Close, 1)]
  {
  }

  lemma LifetimeThenToken(t: string, k: Kind, s: string)
    requires |t| == 5 && Skipped(k) && Lexeme(t, k) && s == "'" + (t + "}") && forall i :: 0 <= i < 4 ==> t[i] != '\''
    ensures Body(s) == "'" + t && Boundary(s, 1)
  {
    LoneExactly(s);
    assert s[1..] == t + "}";
    LexemeFirst(t, k, "}");
    OnlyClose();
    BodyOfThree(s, [Token(Other, 1), Token(k, 5), Token(Close, 1)]);
    assert s[..6] == "'" + t;
    assert Boundary(s[1..], 0);
  }

  /** For the end the proviso is sufficient, not necessary: here the lifetime swallows the start of the
      comment and the boundary is gone, yet the block ends at the same brace. */
  lemma EndMayStayThoughTheBoundaryMoves(t: string, t': string)
    requires t == "/*a*/" && t' == "/*'*/"
    ensures Lexeme(t, BlockComment) && Lexeme(t', BlockComment)
    ensures Boundary("'" + (t + "}"), 1) && !Boundary("'" + (t' + "}"), 1)
    ensures Body("'" + (t + "}")) == "'" + t && Body("'" + (t' + "}")) == "'" + t'
  {
    ShortComment(t);
    ShortComment(t');
    LifetimeThenToken(t, BlockComment, "'" + (t + "}"));
    LiteralThenRest("'" + (t' + "}"), ['\'', '/', '*', '\'']);
    assert ("'" + (t' + "}"))[..6] == "'" + t';
  }

  lemma ShortComment(t: string)
    requires |t| == 5 && t[0] == '/' && t[1] == '*' && t[2] != '*' && t[3] == '*' && t[4] == '/'
    ensures Lexeme(t, BlockComment)
  {
    assert Matches(t, "*/", 3);
    assert !Matches(t, "*/", 2) by {
      assert "*/"[0] == '*';
    }
  }

  lemma LiteralThenRest(s: string, x: string)
    requires x == ['\'', '/', '*', '\''] && s == x + "*/}"
    ensures Body(s) == s[..6] && !Boundary(s, 1)
  {
    forall q: nat ensures Matches(x, "'", q) <==> q < 4 && x[q] == '\'' {
      MatchesQuote(x, q);
    }
    LexemeFirst(x, CharLiteral, "*/}");
    OnlyClose();
    assert "*/}"[1..] == "/}" && "/}"[1..] == "}";
    assert Tokens("/}") == [Token(Other, 1)] + Tokens("}");
    assert Tokens("*/}") == [Token(Other, 1)] + Tokens("/}");
    var ts := [Token(CharLiteral, 4)] + Tokens("*/}");
    assert CloseIn(Tokens("}"), 1) == Some(0);
    CloseCons(Token(Other, 1), Tokens("}"), 1);
    CloseCons(Token(Other, 1), Tokens("/}"), 1);
    CloseCons(Token(CharLiteral, 4), Tokens("*/}"), 1);
    BodyFound(s, CloseIn(ts, 1));
  }

  lemma BodyOfThree(s: string, ts: seq<Token>)
    requires Tokens(s) == ts && |ts| == 3
    requires ts[0].kind.Other? && Skipped(ts[1].kind) && ts[2].kind.Close?
    ensures ts[0].len + ts[1].len <= |s| && Body(s) == s[..ts[0].len + ts[1].len]
  {
    CloseOfThree(ts[0], ts[1], ts[2]);
    assert ts == [ts[0], ts[1], ts[2]];
    BodyFound(s, CloseIn(ts, 1));
  }

  lemma CloseOfThree(t: Token, u: Token, v: Token)
    requires t.kind.Other? && Skipped(u.kind) && v.kind.Close?
    ensures CloseIn([t, u, v], 1) == Some(t.len + u.len)
  {
    assert CloseIn([v], 1) == Some(0);
    assert [u, v][1..] == [v];
    assert CloseIn([u, v], 1) == Some(u.len);
    assert [t, u, v][1..] == [u, v];
  }

  lemma LiteralThenOpenString(s: string, x: string, y: string, z: string)
    requires x == ['\'', '"', 'a', '\''] && y == ['c', '"', '}'] && z == ['"', '}'] && s == x + y
    ensures Body(s) == ""
  {
    forall q: nat ensures Matches(x, "'", q) <==> q < 4 && x[q] == '\'' {
      MatchesQuote(x, q);
    }
    LexemeFirst(x, CharLiteral, y);
    assert y[1..] == z;
    assert StringEnd(z, 1) == 2;
    assert Tokens(z) == [Token(Broken, 2)];
    assert Tokens(y) == [Token(Other, 1)] + [Token(Broken, 2)];
    NoCloseNoBody(s);
  }

  /** Without a closing brace there is no body. */
  lemma NoCloseNoBody(s: string)
    requires forall t :: t in Tokens(s) ==> !t.kind.Close?
    ensures Body(s) == ""
  {
    NoClose(Tokens(s), 1);
    BodyFound(s, None);
  }

  lemma {:induction false} NoClose(ts: seq<Token>, d: int)
    requires forall t :: t in ts ==> !t.kind.Close?
    ensures CloseIn(ts, d) == None
  {
    if ts != [] {
      NoClose(ts[1..], d + Delta(ts[0].kind));
    }
  }
}
