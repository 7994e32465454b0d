/** The tokens a brace counter must see: comments, strings, character literals, braces, and the rest. */
module Lexemes {
  import opened Wrappers

  // ----- searching -----

  predicate Matches(s: string, pat: string, p: nat) {
    p + |pat| <= |s| && forall i :: 0 <= i < |pat| ==> s[p + i] == pat[i]
  }

  /** The first occurrence of `pat` at or after `i`. */
  function IndexOf(s: string, pat: string, i: nat): (r: Option<nat>)
    ensures r.Some? ==> i <= r.value && r.value + |pat| <= |s|
    decreases if i <= |s| then |s| - i + 1 else 0
  {
    if i > |s| then None
    else if Matches(s, pat, i) then Some(i)
    else IndexOf(s, pat, i + 1)
  }

  /** It is an occurrence, and the first. */
  lemma {:induction false} IndexOfIsFirst(s: string, pat: string, i: nat)
    ensures var r := IndexOf(s, pat, i);
            && (r.Some? ==> Matches(s, pat, r.value) && forall q :: i <= q < r.value ==> !Matches(s, pat, q))
            && (r.None? ==> forall q: nat :: i <= q ==> !Matches(s, pat, q))
    decreases if i <= |s| then |s| - i + 1 else 0
  {
    if i <= |s| && !Matches(s, pat, i) {
      IndexOfIsFirst(s, pat, i + 1);
    }
  }

  function Later(r: Option<nat>, d: nat): Option<nat> {
    match r case None => None case Some(n) => Some(n + d)
  }

  /** Searching a suffix is searching the whole from further on. */
  lemma {:induction false} IndexOfSuffix(s: string, pat: string, d: nat, i: nat)
    requires d <= |s|
    ensures IndexOf(s, pat, d + i) == Later(IndexOf(s[d..], pat, i), d)
    decreases if i <= |s| then |s| - i + 1 else 0
  {
    if d + i <= |s| {
      assert Matches(s, pat, d + i) <==> Matches(s[d..], pat, i) by {
        if d + i + |pat| <= |s| {
          assert s[d..][i..i + |pat|] == s[d + i..d + i + |pat|];
        }
      }
      if !Matches(s, pat, d + i) {
        IndexOfSuffix(s, pat, d, i + 1);
      }
    }
  }

  /** `pat` ends the text and occurs nowhere in it from `i` on before that. */
  ghost predicate OnlyAtEnd(t: string, pat: string, i: nat) {
    && i + |pat| <= |t| && Matches(t, pat, |t| - |pat|)
    && forall q :: i <= q < |t| - |pat| ==> !Matches(t, pat, q)
  }

  lemma MatchesPrefix(s: string, n: nat, pat: string, q: nat)
    requires n <= |s|
    ensures Matches(s[..n], pat, q) <==> q + |pat| <= n && Matches(s, pat, q)
  {
  }

  /** The first occurrence is at `n - |pat|` exactly when the prefix of length `n` has it only at its end. */
  lemma FirstIsOnlyAtEnd(s: string, n: nat, pat: string, i: nat)
    requires n <= |s|
    ensures OnlyAtEnd(s[..n], pat, i) <==> IndexOf(s, pat, i).Some? && IndexOf(s, pat, i).value + |pat| == n
  {
    IndexOfIsFirst(s, pat, i);
    forall q: nat ensures Matches(s[..n], pat, q) <==> q + |pat| <= n && Matches(s, pat, q) {
      MatchesPrefix(s, n, pat, q);
    }
    if OnlyAtEnd(s[..n], pat, i) {
      var p := n - |pat|;
      assert Matches(s, pat, p);
      assert forall q :: i <= q < p ==> !Matches(s, pat, q);
    }
  }

  // ----- lexemes -----

  datatype Kind = LineComment | BlockComment | RawString | CharLiteral | StringLiteral | Open | Close | Other | Broken

  datatype Token = Token(kind: Kind, len: nat)

  /** Kinds whose inside the counter jumps over. */
  predicate Skipped(k: Kind) {
    k.LineComment? || k.BlockComment? || k.RawString? || k.CharLiteral? || k.StringLiteral?
  }

  function Hashes(n: nat): (h: string)
    ensures |h| == n && forall i :: 0 <= i < n ==> h[i] == '#'
  {
    seq(n, _ => '#')
  }

  /** How many `#` follow position `k`. */
  function HashRun(s: string, k: nat): (n: nat)
    ensures n > 0 ==> k + n <= |s|
    ensures forall i :: k <= i < k + n ==> s[i] == '#'
    ensures k + n < |s| ==> s[k + n] != '#'
    decreases if k < |s| then |s| - k else 0
  {
    if k < |s| && s[k] == '#' then 1 + HashRun(s, k + 1) else 0
  }

  function Terminator(hashes: nat): string {
    "\"" + Hashes(hashes)
  }

  /** The text between two quotes: escaped pairs, and characters that are neither quote nor backslash. */
  predicate Escaped(t: string) {
    t == ""
    || (t[0] == '\\' && |t| >= 2 && Escaped(t[2..]))
    || (t[0] != '\\' && t[0] != '"' && Escaped(t[1..]))
  }

  /** The whole text is one complete token of a skipped kind. */
  ghost predicate Lexeme(t: string, k: Kind) {
    match k
    case LineComment => |t| >= 2 && t[0] == '/' && t[1] == '/' && OnlyAtEnd(t, "\n", 0)
    case BlockComment => |t| >= 2 && t[0] == '/' && t[1] == '*' && OnlyAtEnd(t, "*/", 2)
    case RawString =>
      var h := HashRun(t, 1);
      h + 1 < |t| && t[0] == 'r' && t[1 + h] == '"' && OnlyAtEnd(t, Terminator(h), 2 + h)
    case CharLiteral => 2 <= |t| <= 5 && t[0] == '\'' && OnlyAtEnd(t, "'", 1)
    case StringLiteral => |t| >= 2 && t[0] == '"' && t[|t| - 1] == '"' && Escaped(t[1..|t| - 1])
    case _ => false
  }

  // ----- the lexer -----

  /** Where a string that is open at `k` closes; the length of the text when it does not. */
  function StringEnd(s: string, k: nat): (e: nat)
    ensures e <= |s| && (e < |s| ==> k <= e && s[e] == '"')
    decreases if k < |s| then |s| - k else 0
  {
    if k >= |s| then |s|
    else if s[k] == '\\' then StringEnd(s, k + 2)
    else if s[k] == '"' then k
    else StringEnd(s, k + 1)
  }

  /** A token that runs to `pat`, or breaks off. */
  function Until(s: string, k: Kind, pat: string, i: nat): (t: Token)
    requires s != "" && pat != ""
    ensures 1 <= t.len <= |s|
  {
    match IndexOf(s, pat, i)
    case None => Token(Broken, |s|)
    case Some(p) => Token(k, p + |pat|)
  }

  predicate StartsRaw(s: string) {
    s != "" && s[0] == 'r' && 1 + HashRun(s, 1) < |s| && s[1 + HashRun(s, 1)] == '"'
  }

  /** The first token of a text. */
  function Lex(s: string): (t: Token)
    requires s != ""
    ensures 1 <= t.len <= |s|
  {
    if |s| > 1 && s[0] == '/' && s[1] == '/' then Until(s, LineComment, "\n", 0)
    else if |s| > 1 && s[0] == '/' && s[1] == '*' then Until(s, BlockComment, "*/", 2)
    else if StartsRaw(s) then Until(s, RawString, Terminator(HashRun(s, 1)), 2 + HashRun(s, 1))
    else if s[0] == '\'' then
      var close := IndexOf(s, "'", 1);
      if close.Some? && close.value <= 4 then Token(CharLiteral, close.value + 1) else Token(Other, 1)
    else if s[0] == '"' then
      var end := StringEnd(s, 1);
      if end < |s| then Token(StringLiteral, end + 1) else Token(Broken, |s|)
    else Token(if s[0] == '{' then Open else if s[0] == '}' then Close else Other, 1)
  }

  /** All tokens of a text; an unterminated one is the last. */
  function Tokens(s: string): (ts: seq<Token>)
    decreases |s|
  {
    if s == "" then []
    else
      var t := Lex(s);
      if t.kind.Broken? then [t] else [t] + Tokens(s[t.len..])
  }

  // ----- the lexer recognises exactly the lexemes -----

  lemma {:induction false} StringEndIsFirst(s: string, k: nat, e: nat)
    requires e < |s|
    ensures StringEnd(s, k) == e <==> k <= e && s[e] == '"' && Escaped(s[k..e])
    decreases if k < |s| then |s| - k else 0
  {
    if k < e {
      var t := s[k..e];
      assert t[0] == s[k] && t[1..] == s[k + 1..e];
      if s[k] == '\\' {
        StringEndIsFirst(s, k + 2, e);
        if k + 2 <= e {
          assert t[2..] == s[k + 2..e];
        }
      } else if s[k] != '"' {
        StringEndIsFirst(s, k + 1, e);
      }
    } else if k == e {
      assert s[k..e] == "";
    }
  }

  lemma HashRunOfPrefix(s: string, n: nat)
    requires n <= |s|
    ensures 1 + HashRun(s, 1) < n ==> HashRun(s[..n], 1) == HashRun(s, 1)
    ensures 1 + HashRun(s[..n], 1) < n ==> HashRun(s[..n], 1) == HashRun(s, 1)
  {
  }

  /** The first token is a skipped one of length `n` exactly when the first `n` characters are such
      a lexeme: the lexer neither misses one nor stops early nor runs on. */
  lemma LexIsExact(s: string, k: Kind, n: nat)
    requires s != "" && n <= |s| && Skipped(k)
    ensures Lex(s) == Token(k, n) <==> Lexeme(s[..n], k)
  {
    var t := s[..n];
    match k {
      case LineComment =>
        FirstIsOnlyAtEnd(s, n, "\n", 0);
        IndexOfIsFirst(s, "\n", 0);
        assert IndexOf(s, "\n", 0).Some? ==> s[IndexOf(s, "\n", 0).value] == "\n"[0];
      case BlockComment => FirstIsOnlyAtEnd(s, n, "*/", 2);
      case RawString => RawIsExact(s, n);
      case CharLiteral => FirstIsOnlyAtEnd(s, n, "'", 1);
      case StringLiteral => StringIsExact(s, n);
    }
  }

  lemma StringIsExact(s: string, n: nat)
    requires s != "" && n <= |s|
    ensures Lex(s) == Token(StringLiteral, n) <==> Lexeme(s[..n], StringLiteral)
  {
    if n >= 2 {
      StringEndIsFirst(s, 1, n - 1);
      assert s[..n][1..n - 1] == s[1..n - 1];
    } else if n == 1 && s[0] == '"' {
      StringEndIsFirst(s, 1, 0);
    }
  }

  lemma RawIsExact(s: string, n: nat)
    requires s != "" && n <= |s|
    ensures Lex(s) == Token(RawString, n) <==> Lexeme(s[..n], RawString)
  {
    var h := HashRun(s, 1);
    HashRunOfPrefix(s, n);
    FirstIsOnlyAtEnd(s, n, Terminator(h), 2 + h);
  }

  /** The tokens tile the text: each starts where the one before ended, and they end where it ends. */
  lemma {:induction false} TokensTile(s: string)
    ensures Width(Tokens(s)) == |s|
    decreases |s|
  {
    if s != "" && !Lex(s).kind.Broken? {
      TokensTile(s[Lex(s).len..]);
    }
  }

  /** Each token is the first of what is left where it starts, and only the last may break off. */
  lemma {:induction false} TokensAreFirsts(s: string, i: nat)
    requires i < |Tokens(s)|
    ensures var at := Width(Tokens(s)[..i]);
      && at < |s| && Tokens(s)[i] == Lex(s[at..])
      && (Tokens(s)[i].kind.Broken? ==> i == |Tokens(s)| - 1)
    decreases |s|
  {
    var t := Lex(s);
    if i > 0 {
      TokensAreFirsts(s[t.len..], i - 1);
      assert Tokens(s) == [t] + Tokens(s[t.len..]);
      assert Tokens(s)[..i] == [t] + Tokens(s[t.len..])[..i - 1];
      assert s[t.len..][Width(Tokens(s[t.len..])[..i - 1])..] == s[Width(Tokens(s)[..i])..];
    }
  }

  /** The tokens that are not skipped: a brace is one wherever it starts a token, anything else is a
      single character, and a token breaks off exactly when one is begun that nothing completes. */
  lemma PlainTokensExactly(s: string)
    requires s != ""
    ensures Lex(s).kind.Open? <==> s[0] == '{'
    ensures Lex(s).kind.Close? <==> s[0] == '}'
    ensures !Skipped(Lex(s).kind) && !Lex(s).kind.Broken? ==> Lex(s).len == 1
    ensures Lex(s).kind.Broken? <==> BeginsSpan(s) && forall k, n :: Skipped(k) && 0 <= n <= |s| ==> !Lexeme(s[..n], k)
    ensures Lex(s).kind.Broken? ==> Lex(s).len == |s|
  {
    forall k, n | Skipped(k) && 0 <= n <= |s|
      ensures Lexeme(s[..n], k) <==> Lex(s) == Token(k, n)
    {
      LexIsExact(s, k, n);
    }
    StartsRawExactly(s);
    if StartsRaw(s) {
      assert RawStart(s, HashRun(s, 1));
    }
    if Skipped(Lex(s).kind) {
      assert Lexeme(s[..Lex(s).len], Lex(s).kind);
    }
  }

  /** A comment, a string or a raw string begins here. */
  ghost predicate BeginsSpan(s: string) {
    || (|s| > 1 && s[0] == '/' && (s[1] == '/' || s[1] == '*'))
    || (s != "" && s[0] == '"')
    || exists h: nat :: RawStart(s, h)
  }

  predicate RawStart(s: string, h: nat) {
    h + 1 < |s| && s[0] == 'r' && (forall i :: 1 <= i <= h ==> s[i] == '#') && s[h + 1] == '"'
  }

  predicate RawEnd(s: string, h: nat) {
    h + 1 <= |s| && s[|s| - 1 - h] == '"' && forall i :: |s| - h <= i < |s| ==> s[i] == '#'
  }

  lemma StartsRawExactly(s: string)
    ensures forall h: nat :: RawStart(s, h) <==> StartsRaw(s) && h == HashRun(s, 1)
  {
  }

  /** A raw string ends with a quote and as many `#` as it begins with, and not before. */
  predicate RawShape(t: string, h: nat) {
    && RawStart(t, h) && 2 * h + 3 <= |t| && RawEnd(t, h)
    && forall n :: 2 * h + 3 <= n < |t| ==> !RawEnd(t[..n], h)
  }

  lemma RawEndExactly(t: string, n: nat, h: nat)
    requires h + 1 <= n <= |t|
    ensures RawEnd(t[..n], h) <==> Matches(t, Terminator(h), n - h - 1)
  {
    var p := n - h - 1;
    assert Terminator(h)[0] == '"';
    forall i | 1 <= i <= h ensures Terminator(h)[i] == '#' {
    }
    if RawEnd(t[..n], h) {
      forall i | 0 <= i <= h ensures t[p + i] == Terminator(h)[i] {
        assert t[..n][p + i] == t[p + i];
      }
    }
    if Matches(t, Terminator(h), p) {
      forall i | n - h <= i < n ensures t[..n][i] == '#' {
        assert t[p + (i - p)] == Terminator(h)[i - p];
      }
    }
  }

  lemma RawStringShape(t: string)
    ensures Lexeme(t, RawString) <==> exists h: nat :: RawShape(t, h)
  {
    StartsRawExactly(t);
    var h := HashRun(t, 1);
    if StartsRaw(t) && 2 * h + 3 <= |t| {
      assert t[..|t|] == t;
      RawEndExactly(t, |t|, h);
      forall n | 2 * h + 3 <= n < |t| ensures RawEnd(t[..n], h) <==> Matches(t, Terminator(h), n - h - 1) {
        RawEndExactly(t, n, h);
      }
      if RawShape(t, h) {
        forall q | 2 + h <= q < |t| - h - 1 ensures !Matches(t, Terminator(h), q) {
          assert !RawEnd(t[..q + h + 1], h);
        }
      }
    }
    assert Lexeme(t, RawString) <==> RawShape(t, h);
  }

  function Width(ts: seq<Token>): nat {
    if ts == [] then 0 else ts[0].len + Width(ts[1..])
  }
}
