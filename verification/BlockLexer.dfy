/** The body of a brace block, counting only the braces that are code. */
module BlockLexer {
  import opened Wrappers
  import opened Lexemes

  // ----- what the block is -----

  function Delta(k: Kind): int {
    if k.Open? then 1 else if k.Close? then -1 else 0
  }

  function Depth(ts: seq<Token>): int {
    if ts == [] then 0 else Delta(ts[0].kind) + Depth(ts[1..])
  }

  /** Token `n` closes the block: the depth is positive before it and zero after it. */
  ghost predicate Ends(ts: seq<Token>, d: int, n: nat) {
    && n < |ts| && ts[n].kind.Close? && d + Depth(ts[..n + 1]) == 0
    && forall m :: 0 <= m <= n ==> d + Depth(ts[..m]) > 0
  }

  /** How far off the brace stands that brings the depth to zero. */
  function CloseIn(ts: seq<Token>, depth: int): (r: Option<nat>)
    ensures r.Some? ==> r.value <= Width(ts)
  {
    if ts == [] then None
    else if ts[0].kind.Close? && depth - 1 == 0 then Some(0)
    else Later(CloseIn(ts[1..], depth + Delta(ts[0].kind)), ts[0].len)
  }

  /** What stands between an opening brace just passed and its partner; nothing when the rest is
      unbalanced or breaks off in an unterminated token. */
  function Body(inner: string): string {
    TokensTile(inner);
    match CloseIn(Tokens(inner), 1)
    case None => ""
    case Some(c) => inner[..c]
  }

  lemma DepthCons(t: Token, ts: seq<Token>, m: nat)
    requires m <= |ts|
    ensures Depth(([t] + ts)[..m + 1]) == Delta(t.kind) + Depth(ts[..m])
    ensures Width(([t] + ts)[..m + 1]) == t.len + Width(ts[..m])
  {
    assert ([t] + ts)[..m + 1] == [t] + ts[..m];
  }

  lemma EndsCons(t: Token, ts: seq<Token>, d: int, n: nat)
    requires d >= 1
    ensures Ends([t] + ts, d, n + 1) <==> Ends(ts, d + Delta(t.kind), n)
  {
    if n < |ts| {
      DepthCons(t, ts, n + 1);
      forall m: nat | m <= n
        ensures Depth(([t] + ts)[..m + 1]) == Delta(t.kind) + Depth(ts[..m])
      {
        DepthCons(t, ts, m);
      }
      if Ends([t] + ts, d, n + 1) {
        forall m | 0 <= m <= n ensures d + Delta(t.kind) + Depth(ts[..m]) > 0 {
          assert d + Depth(([t] + ts)[..m + 1]) > 0;
        }
      }
      if Ends(ts, d + Delta(t.kind), n) {
        forall m | 0 <= m <= n + 1 ensures d + Depth(([t] + ts)[..m]) > 0 {
          if m > 0 {
            assert d + Delta(t.kind) + Depth(ts[..m - 1]) > 0;
          }
        }
      }
    }
  }

  lemma EndsHere(t: Token, ts: seq<Token>, d: int)
    requires d >= 1
    ensures Ends([t] + ts, d, 0) <==> t.kind.Close? && d == 1
  {
    DepthCons(t, ts, 0);
  }

  /** Nothing ends a block after its closing brace. */
  lemma NotPastTheEnd(t: Token, rest: seq<Token>, d: int, n: nat)
    requires d >= 1 && n > 0 && Ends([t] + rest, d, n)
    ensures !(t.kind.Close? && d == 1)
  {
    DepthCons(t, rest, 0);
    assert d + Depth(([t] + rest)[..1]) > 0;
  }

  lemma {:induction false} EndIsFound(ts: seq<Token>, d: int, n: nat)
    requires d >= 1 && Ends(ts, d, n)
    ensures CloseIn(ts, d) == Some(Width(ts[..n]))
    decreases n
  {
    var t, rest := ts[0], ts[1..];
    assert ts == [t] + rest;
    if n == 0 {
      EndsHere(t, rest, d);
    } else {
      NotPastTheEnd(t, rest, d, n);
      EndsCons(t, rest, d, n - 1);
      EndIsFound(rest, d + Delta(t.kind), n - 1);
      DepthCons(t, rest, n - 1);
    }
  }

  lemma {:induction false} FoundIsAnEnd(ts: seq<Token>, d: int) returns (n: nat)
    requires d >= 1 && CloseIn(ts, d).Some?
    ensures Ends(ts, d, n)
  {
    var t, rest := ts[0], ts[1..];
    assert ts == [t] + rest;
    if t.kind.Close? && d == 1 {
      EndsHere(t, rest, d);
      n := 0;
    } else {
      n := FoundIsAnEnd(rest, d + Delta(t.kind));
      EndsCons(t, rest, d, n);
      n := n + 1;
    }
  }

  /** The scan finds exactly the token at which the depth first returns to zero, having been
      positive all the way; it finds none exactly when there is none. */
  lemma CloseIsTheFirstBalance(ts: seq<Token>, d: int)
    requires d >= 1
    ensures forall n: nat :: Ends(ts, d, n) ==> CloseIn(ts, d) == Some(Width(ts[..n]))
    ensures CloseIn(ts, d).Some? <==> exists n: nat :: Ends(ts, d, n)
  {
    forall n: nat | Ends(ts, d, n) ensures CloseIn(ts, d) == Some(Width(ts[..n])) {
      EndIsFound(ts, d, n);
    }
    if CloseIn(ts, d).Some? {
      var n := FoundIsAnEnd(ts, d);
    }
  }

  /** The body ends at the first token at which the depth returns to zero; without such a token
      it is empty. */
  lemma BodyIsTheFirstBalancedText(inner: string)
    ensures forall n: nat :: Ends(Tokens(inner), 1, n) ==>
              Width(Tokens(inner)[..n]) <= |inner| && Body(inner) == inner[..Width(Tokens(inner)[..n])]
    ensures (forall n: nat :: !Ends(Tokens(inner), 1, n)) ==> Body(inner) == ""
  {
    TokensTile(inner);
    CloseIsTheFirstBalance(Tokens(inner), 1);
  }

  function Kinds(ts: seq<Token>): (ks: seq<Kind>)
    ensures |ks| == |ts| && forall i :: 0 <= i < |ts| ==> ks[i] == ts[i].kind
  {
    if ts == [] then [] else [ts[0].kind] + Kinds(ts[1..])
  }

  /** The depth is the number of opening braces less the number of closing ones. */
  lemma {:induction false} DepthCountsBraces(ts: seq<Token>)
    ensures Depth(ts) + multiset(Kinds(ts))[Close] == multiset(Kinds(ts))[Open]
  {
    if ts != [] {
      DepthCountsBraces(ts[1..]);
      assert multiset(Kinds(ts)) == multiset{ts[0].kind} + multiset(Kinds(ts[1..]));
    }
  }

  /** `o` is the first opening brace from `start` on. */
  predicate FirstBrace(src: string, start: nat, o: nat) {
    start <= o < |src| && src[o] == '{' && forall q :: start <= q < o ==> src[q] != '{'
  }

  /** Up to the token at which the depth, one to begin with, first returns to zero; nothing when
      there is no such token. */
  ghost predicate Balances(inner: string, body: string) {
    && (forall n: nat :: Ends(Tokens(inner), 1, n) ==>
          Width(Tokens(inner)[..n]) <= |inner| && body == inner[..Width(Tokens(inner)[..n])])
    && ((forall n: nat :: !Ends(Tokens(inner), 1, n)) ==> body == "")
  }

  lemma BodyBalances(inner: string)
    ensures Balances(inner, Body(inner))
  {
    BodyIsTheFirstBalancedText(inner);
  }

  lemma {:induction false} FirstBraceIsFound(src: string, start: nat, o: nat)
    requires FirstBrace(src, start, o)
    ensures IndexOf(src, "{", start) == Some(o)
    decreases o - start
  {
    assert "{"[0] == '{';
    if start < o {
      assert !Matches(src, "{", start) by {
        assert src[start + 0] != "{"[0];
      }
      FirstBraceIsFound(src, start + 1, o);
    }
  }

  lemma FoundIsFirstBrace(src: string, start: nat)
    ensures match IndexOf(src, "{", start)
            case Some(o) => FirstBrace(src, start, o)
            case None => forall q :: start <= q < |src| ==> src[q] != '{'
  {
    IndexOfIsFirst(src, "{", start);
    forall q: nat ensures Matches(src, "{", q) <==> q < |src| && src[q] == '{' {
      assert "{"[0] == '{';
    }
  }

  lemma BlockOf(src: string, start: nat, o: nat, body: string)
    requires FirstBrace(src, start, o) && IndexOf(src, "{", start) == Some(o) ==> body == Body(src[o + 1..])
    ensures FirstBrace(src, start, o) ==> Balances(src[o + 1..], body)
  {
    if FirstBrace(src, start, o) {
      FirstBraceIsFound(src, start, o);
      BodyBalances(src[o + 1..]);
    }
  }

  /** The block is that of the first opening brace at or after `start`, up to where the braces that
      are code first balance. */
  lemma BlockIsExact(src: string, start: nat, open: nat, body: string)
    requires IndexOf(src, "{", start) == Some(open) && open < |src| && body == Body(src[open + 1..])
    ensures forall o: nat :: FirstBrace(src, start, o) ==> Balances(src[o + 1..], body)
  {
    forall o: nat ensures FirstBrace(src, start, o) ==> Balances(src[o + 1..], body) {
      BlockOf(src, start, o, body);
    }
  }

  // ----- the scanner, by index -----

  method HashesAt(src: string, k: nat) returns (n: nat)
    ensures n == HashRun(src, k)
  {
    n := 0;
    while k + n < |src| && src[k + n] == '#'
      invariant HashRun(src, k) == n + HashRun(src, k + n)
      decreases |src| - (k + n)
    {
      n := n + 1;
    }
  }

  /** The inner loop over an ordinary string; an escape may carry it past the end. */
  method QuoteEnd(src: string, k: nat) returns (e: nat)
    ensures if e < |src| then StringEnd(src, k) == e else StringEnd(src, k) == |src|
  {
    e := k;
    while e < |src|
      invariant StringEnd(src, k) == StringEnd(src, e)
      decreases |src| - e
    {
      if src[e] == '\\' {
        e := e + 2;
      } else if src[e] == '"' {
        break;
      } else {
        e := e + 1;
      }
    }
  }

  lemma {:induction false} StringEndSuffix(s: string, d: nat, k: nat)
    requires d <= |s|
    ensures StringEnd(s, d + k) == d + StringEnd(s[d..], k)
    decreases if d + k < |s| then |s| - (d + k) else 0
  {
    if d + k < |s| {
      assert s[d..][k] == s[d + k];
      if s[d + k] == '\\' {
        StringEndSuffix(s, d, k + 2);
      } else if s[d + k] != '"' {
        StringEndSuffix(s, d, k + 1);
      }
    }
  }

  lemma {:induction false} HashRunSuffix(s: string, d: nat, k: nat)
    requires d <= |s|
    ensures HashRun(s, d + k) == HashRun(s[d..], k)
    decreases if d + k < |s| then |s| - (d + k) else 0
  {
  }

  /** From `j` through the first `pat` at or after `i`. */
  function SpanFrom(src: string, j: nat, k: Kind, pat: string, i: nat): Token
    requires j <= i && j < |src|
  {
    match IndexOf(src, pat, i)
    case None => Token(Broken, |src| - j)
    case Some(p) => Token(k, p - j + |pat|)
  }

  /** The token at `j`, in the scanner's index arithmetic. */
  function LexAt(src: string, j: nat): (t: Token)
    requires j < |src|
    ensures 1 <= t.len
  {
    var next := if j + 1 < |src| then src[j + 1] else ' ';
    var k := j + 1 + HashRun(src, j + 1);
    if src[j] == '/' && next == '/' then SpanFrom(src, j, LineComment, "\n", j)
    else if src[j] == '/' && next == '*' then SpanFrom(src, j, BlockComment, "*/", j + 2)
    else if src[j] == 'r' && k < |src| && src[k] == '"' then
      SpanFrom(src, j, RawString, Terminator(k - j - 1), k + 1)
    else if src[j] == '\'' then
      var close := IndexOf(src, "'", j + 1);
      if close.Some? && close.value - j <= 4 then Token(CharLiteral, close.value - j + 1) else Token(Other, 1)
    else if src[j] == '"' then
      var end := StringEnd(src, j + 1);
      if end < |src| then Token(StringLiteral, end - j + 1) else Token(Broken, |src| - j)
    else Token(if src[j] == '{' then Open else if src[j] == '}' then Close else Other, 1)
  }

  /** What `indexOf` finds from `j + i` on, as the token starting at `j` sees it. */
  lemma UntilSuffix(src: string, j: nat, k: Kind, pat: string, i: nat)
    requires j < |src| && pat != ""
    ensures Until(src[j..], k, pat, i) == SpanFrom(src, j, k, pat, j + i)
  {
    IndexOfSuffix(src, pat, j, i);
  }

  lemma CommentAt(src: string, j: nat)
    requires j + 1 < |src| && src[j] == '/'
    ensures src[j + 1] == '/' ==> Lex(src[j..]) == SpanFrom(src, j, LineComment, "\n", j)
    ensures src[j + 1] == '*' ==> Lex(src[j..]) == SpanFrom(src, j, BlockComment, "*/", j + 2)
  {
    UntilSuffix(src, j, LineComment, "\n", 0);
    UntilSuffix(src, j, BlockComment, "*/", 2);
  }

  lemma RawAt(src: string, j: nat)
    requires j < |src| && src[j] == 'r'
    ensures var k := j + 1 + HashRun(src, j + 1);
            if k < |src| && src[k] == '"'
            then Lex(src[j..]) == SpanFrom(src, j, RawString, Terminator(HashRun(src, j + 1)), k + 1)
            else Lex(src[j..]) == Token(Other, 1)
  {
    HashRunSuffix(src, j, 1);
    var h := HashRun(src[j..], 1);
    UntilSuffix(src, j, RawString, Terminator(h), 2 + h);
  }

  lemma QuoteAt(src: string, j: nat)
    requires j < |src| && src[j] == '\''
    ensures Lex(src[j..]) ==
      var close := IndexOf(src, "'", j + 1);
      if close.Some? && close.value - j <= 4 then Token(CharLiteral, close.value - j + 1) else Token(Other, 1)
  {
    IndexOfSuffix(src, "'", j, 1);
  }

  lemma StringAt(src: string, j: nat)
    requires j < |src| && src[j] == '"'
    ensures Lex(src[j..]) ==
      var end := StringEnd(src, j + 1);
      if end < |src| then Token(StringLiteral, end - j + 1) else Token(Broken, |src| - j)
  {
    StringEndSuffix(src, j, 1);
  }

  lemma PlainAt(src: string, j: nat)
    requires j < |src| && src[j] !in {'\'', '"', 'r'}
    requires src[j] == '/' && j + 1 < |src| ==> src[j + 1] !in {'/', '*'}
    ensures Lex(src[j..]) == Token(if src[j] == '{' then Open else if src[j] == '}' then Close else Other, 1)
  {
  }

  /** The index arithmetic finds the first token of the suffix. */
  lemma LexAtIsLex(src: string, j: nat)
    requires j < |src|
    ensures LexAt(src, j) == Lex(src[j..])
  {
    if src[j] == '/' && j + 1 < |src| && (src[j + 1] == '/' || src[j + 1] == '*') {
      CommentAt(src, j);
    } else if src[j] == 'r' {
      RawAt(src, j);
    } else if src[j] == '\'' {
      QuoteAt(src, j);
    } else if src[j] == '"' {
      StringAt(src, j);
    } else {
      PlainAt(src, j);
    }
  }

  /** The token at `j`, by the scanner's own tests in the scanner's own order. */
  method TokenAt(src: string, j: nat) returns (t: Token)
    requires j < |src|
    ensures t == LexAt(src, j)
  {
    var c := src[j];
    if c == '/' && j + 1 < |src| && src[j + 1] == '/' {
      t := Spanning(src, j, LineComment, "\n", j);
      return;
    }
    if c == '/' && j + 1 < |src| && src[j + 1] == '*' {
      t := Spanning(src, j, BlockComment, "*/", j + 2);
      return;
    }
    if c == 'r' && j + 1 < |src| && (src[j + 1] == '"' || src[j + 1] == '#') {
      var hashes := HashesAt(src, j + 1);
      var k := j + 1 + hashes;
      if k < |src| && src[k] == '"' {
        t := Spanning(src, j, RawString, Terminator(hashes), k + 1);
        return;
      }
    }
    if c == '\'' {
      var close := IndexOf(src, "'", j + 1);
      t := if close.Some? && close.value - j <= 4 then Token(CharLiteral, close.value - j + 1) else Token(Other, 1);
      return;
    }
    if c == '"' {
      var end := QuoteEnd(src, j + 1);
      t := if end < |src| then Token(StringLiteral, end - j + 1) else Token(Broken, |src| - j);
      return;
    }
    t := Token(if c == '{' then Open else if c == '}' then Close else Other, 1);
  }

  method Spanning(src: string, j: nat, k: Kind, pat: string, i: nat) returns (t: Token)
    requires j <= i && j < |src|
    ensures t == SpanFrom(src, j, k, pat, i)
  {
    var end := IndexOf(src, pat, i);
    t := if end.Some? then Token(k, end.value - j + |pat|) else Token(Broken, |src| - j);
  }

  /** The tokens from `j` on, by index. */
  function TokensAt(src: string, j: nat): seq<Token>
    decreases if j < |src| then |src| - j else 0
  {
    if j >= |src| then []
    else
      var t := LexAt(src, j);
      if t.kind.Broken? then [t] else [t] + TokensAt(src, j + t.len)
  }

  lemma {:induction false} TokensAtIsTokens(src: string, j: nat)
    requires j <= |src|
    ensures TokensAt(src, j) == Tokens(src[j..])
    decreases |src| - j
  {
    if j < |src| {
      LexAtIsLex(src, j);
      var t := LexAt(src, j);
      if !t.kind.Broken? {
        TokensAtIsTokens(src, j + t.len);
        assert src[j..][t.len..] == src[j + t.len..];
      }
    }
  }

  /** One turn of the scan: `goal` stays where it was. */
  lemma ScanStep(t: Token, rest: seq<Token>, depth: int, goal: Option<nat>, gone: nat)
    requires goal == Later(CloseIn([t] + rest, depth), gone)
    ensures t.kind.Close? && depth + Delta(t.kind) == 0 ==> goal == Some(gone)
    ensures !(t.kind.Close? && depth + Delta(t.kind) == 0) ==>
              goal == Later(CloseIn(rest, depth + Delta(t.kind)), gone + t.len)
  {
  }

  /** At `j` and this depth, the scan is still to find `goal`. */
  ghost predicate Pending(src: string, j: nat, depth: int, goal: Option<nat>) {
    goal == Later(CloseIn(TokensAt(src, j), depth), j)
  }

  lemma Turn(src: string, j: nat, t: Token, depth: int, goal: Option<nat>)
    requires j < |src| && t == LexAt(src, j) && Pending(src, j, depth, goal)
    ensures t.kind.Broken? ==> goal == None
    ensures t.kind.Close? && depth + Delta(t.kind) == 0 ==> goal == Some(j)
    ensures !t.kind.Broken? && !(t.kind.Close? && depth + Delta(t.kind) == 0) ==>
              Pending(src, j + t.len, depth + Delta(t.kind), goal)
  {
    if t.kind.Broken? {
      ScanStep(t, [], depth, goal, j);
    } else {
      ScanStep(t, TokensAt(src, j + t.len), depth, goal, j);
    }
  }

  lemma NothingLeft(src: string, j: nat, depth: int, goal: Option<nat>)
    requires |src| <= j && Pending(src, j, depth, goal)
    ensures goal == None
  {
  }

  /** The loop of `blockAt`: at every turn what the token scan finds from the start is what it finds
      from here. */
  method ScanFrom(src: string, open: nat, ghost goal: Option<nat>) returns (close: Option<nat>)
    requires open < |src| && Pending(src, open, 0, goal)
    ensures close == goal
  {
    var depth, j := 0, open;
    while j < |src|
      invariant Pending(src, j, depth, goal)
      decreases |src| - j
    {
      var t := TokenAt(src, j);
      Turn(src, j, t, depth, goal);
      if t.kind.Broken? { return None; }
      depth := depth + Delta(t.kind);
      if t.kind.Close? && depth == 0 {
        return Some(j);
      }
      j := j + t.len;
    }
    NothingLeft(src, j, depth, goal);
    return None;
  }

  method FindClose(src: string, open: nat) returns (close: Option<nat>)
    requires open < |src|
    ensures close == Later(CloseIn(TokensAt(src, open), 0), open)
  {
    close := ScanFrom(src, open, Later(CloseIn(TokensAt(src, open), 0), open));
  }

  /** The scan from the opening brace at depth zero finds what closes the text inside it. */
  lemma OpenFirst(src: string, open: nat)
    requires open < |src| && src[open] == '{'
    ensures Later(CloseIn(TokensAt(src, open), 0), open) == Later(CloseIn(Tokens(src[open + 1..]), 1), open + 1)
  {
    var goal := Later(CloseIn(TokensAt(src, open), 0), open);
    Turn(src, open, Token(Open, 1), 0, goal);
    assert Pending(src, open + 1, 1, goal);
    TokensAtIsTokens(src, open + 1);
  }

  lemma BodyFound(inner: string, r: Option<nat>)
    requires r == CloseIn(Tokens(inner), 1)
    ensures r.Some? ==> r.value <= |inner| && Body(inner) == inner[..r.value]
    ensures r.None? ==> Body(inner) == ""
  {
    TokensTile(inner);
  }

  lemma BlockFound(src: string, open: nat, close: Option<nat>)
    requires open < |src| && close == Later(CloseIn(Tokens(src[open + 1..]), 1), open + 1)
    ensures close.Some? ==> open < close.value <= |src| && Body(src[open + 1..]) == src[open + 1..close.value]
    ensures close.None? ==> Body(src[open + 1..]) == ""
  {
    var r := CloseIn(Tokens(src[open + 1..]), 1);
    BodyFound(src[open + 1..], r);
    if r.Some? {
      assert src[open + 1..][..r.value] == src[open + 1..open + 1 + r.value];
    }
  }

  lemma BraceIsThere(src: string, start: nat, open: nat)
    requires IndexOf(src, "{", start) == Some(open)
    ensures open < |src| && src[open] == '{'
  {
    FoundIsFirstBrace(src, start);
  }

  lemma Scanned(src: string, open: nat, close: Option<nat>)
    requires open < |src| && src[open] == '{' && close == Later(CloseIn(TokensAt(src, open), 0), open)
    ensures close.Some? ==> open < close.value <= |src|
    ensures Body(src[open + 1..]) == if close.Some? then src[open + 1..close.value] else ""
  {
    OpenFirst(src, open);
    BlockFound(src, open, close);
  }

  method Inside(src: string, open: nat) returns (body: string)
    requires open < |src| && src[open] == '{'
    ensures body == Body(src[open + 1..])
  {
    var close := FindClose(src, open);
    Scanned(src, open, close);
    body := if close.Some? then src[open + 1..close.value] else "";
  }

  /** `blockAt`. */
  method BlockAt(src: string, start: nat) returns (body: string)
    ensures (forall q :: start <= q < |src| ==> src[q] != '{') ==> body == ""
    ensures forall o: nat :: FirstBrace(src, start, o) ==> Balances(src[o + 1..], body)
  {
    var open := IndexOf(src, "{", start);
    if open.None? {
      FoundIsFirstBrace(src, start);
      return "";
    }
    BraceIsThere(src, start, open.value);
    body := Inside(src, open.value);
    BlockIsExact(src, start, open.value, body);
  }
}
