/** Removing test modules from a source text: from each header to its brace-counted close. */
module TestMods {
  import opened Wrappers

  /** A header: where it starts, and where its opening brace stands. */
  datatype Header = Header(at: nat, open: nat)

  /** The first header in a text at or after an index. */
  type Finder = (string, nat) -> Option<Header>

  /** A match lies inside the text searched and ends in the module's opening brace. */
  ghost predicate Sound(find: Finder) {
    forall s, i: nat :: find(s, i).Some? ==>
      var h := find(s, i).value;
      i <= h.at <= h.open < |s| && s[h.open] == '{'
  }

  // ----- counting braces -----

  function Sign(c: char): int {
    if c == '{' then 1 else if c == '}' then -1 else 0
  }

  /** Opening less closing braces from `a` up to `b`, wherever they stand. */
  function Net(src: string, a: nat, b: nat): int
    requires a <= b <= |src|
    decreases b
  {
    if a == b then 0 else Net(src, a, b - 1) + Sign(src[b - 1])
  }

  /** Where the count comes back to zero; the end of the text if it never does. */
  function BraceEnd(src: string, j: nat, depth: int): (e: nat)
    ensures j < |src| ==> j <= e <= |src|
    decreases if j < |src| then |src| - j else 0
  {
    if j >= |src| then |src|
    else if src[j] == '}' && depth - 1 == 0 then j
    else BraceEnd(src, j + 1, depth + Sign(src[j]))
  }

  /** The first place at or after `j` where the count, now `depth`, comes to zero. */
  lemma {:induction false} BraceEndIsFirst(src: string, open: nat, j: nat, depth: int)
    requires open < j <= |src| && depth == Net(src, open, j) && depth >= 1
    ensures var e := BraceEnd(src, j, depth);
            && j <= e <= |src|
            && (e < |src| ==> src[e] == '}' && Net(src, open, e + 1) == 0)
            && forall m :: j <= m <= e ==> Net(src, open, m) > 0
    decreases |src| - j
  {
    if j < |src| {
      assert Net(src, open, j + 1) == depth + Sign(src[j]);
      if !(src[j] == '}' && depth == 1) {
        BraceEndIsFirst(src, open, j + 1, depth + Sign(src[j]));
      }
    }
  }

  /** From an opening brace: the close is the first place where opened and closed braces balance. */
  lemma ModuleEndIsFirstBalance(src: string, open: nat)
    requires open < |src| && src[open] == '{'
    ensures var e := BraceEnd(src, open, 0);
            && open < e <= |src|
            && (e < |src| ==> src[e] == '}' && Net(src, open, e + 1) == 0)
            && forall m :: open < m <= e ==> Net(src, open, m) > 0
  {
    assert Net(src, open, open + 1) == Net(src, open, open) + 1;
    BraceEndIsFirst(src, open, open + 1, 1);
  }

  // ----- what is cut -----

  datatype Cut = Cut(from: nat, to: nat)

  function Least(a: nat, b: nat): nat { if a < b then a else b }

  /** The interval of one header. */
  function CutOf(src: string, h: Header): (c: Cut)
    requires h.at <= h.open < |src|
    ensures c.from == h.at && h.open < c.to <= |src|
  {
    Cut(h.at, Least(BraceEnd(src, h.open, 0) + 1, |src|))
  }

  /** Every interval removed, from `i` on. */
  ghost function Cuts(src: string, i: nat, find: Finder): seq<Cut>
    requires Sound(find) && i <= |src|
    decreases |src| - i
  {
    match find(src, i)
    case None => []
    case Some(h) =>
      var c := CutOf(src, h);
      [c] + Cuts(src, c.to, find)
  }

  /** `stripTestMods`, about to search from `i` on, with `out` already kept. */
  ghost function StripInto(src: string, i: nat, find: Finder, out: string): string
    requires Sound(find) && i <= |src|
    decreases |src| - i
  {
    match find(src, i)
    case None => out + src[i..]
    case Some(h) => StripInto(src, CutOf(src, h).to, find, out + src[i..h.at])
  }

  predicate InSome(cuts: seq<Cut>, i: nat) {
    exists k :: 0 <= k < |cuts| && cuts[k].from <= i < cuts[k].to
  }

  /** The characters from `i` on that no interval holds, in order. */
  function Kept(src: string, i: nat, cuts: seq<Cut>): string
    requires i <= |src|
    decreases |src| - i
  {
    if i == |src| then ""
    else (if InSome(cuts, i) then "" else [src[i]]) + Kept(src, i + 1, cuts)
  }

  /** Nonempty, in order, apart, and inside the text. */
  predicate Increasing(cuts: seq<Cut>, lo: nat, hi: nat) {
    && (forall k :: 0 <= k < |cuts| ==> lo <= cuts[k].from < cuts[k].to <= hi)
    && (forall k, l :: 0 <= k < l < |cuts| ==> cuts[k].to <= cuts[l].from)
  }

  lemma {:induction false} CutsIncrease(src: string, i: nat, find: Finder)
    requires Sound(find) && i <= |src|
    ensures Increasing(Cuts(src, i, find), i, |src|)
    decreases |src| - i
  {
    if find(src, i).Some? {
      var c := CutOf(src, find(src, i).value);
      CutsIncrease(src, c.to, find);
      var rest := Cuts(src, c.to, find);
      assert Cuts(src, i, find) == [c] + rest;
      assert forall k :: 0 < k < |[c] + rest| ==> ([c] + rest)[k] == rest[k - 1];
    }
  }

  /** Nothing between `i` and `j` is in an interval: all of it is kept. */
  lemma {:induction false} KeptOutside(src: string, i: nat, j: nat, cuts: seq<Cut>)
    requires i <= j <= |src| && forall m :: i <= m < j ==> !InSome(cuts, m)
    ensures Kept(src, i, cuts) == src[i..j] + Kept(src, j, cuts)
    decreases j - i
  {
    if i < j {
      KeptOutside(src, i + 1, j, cuts);
      assert Kept(src, i, cuts) == [src[i]] + Kept(src, i + 1, cuts);
      assert src[i..j] == [src[i]] + src[i + 1..j];
      Regroup([src[i]], src[i + 1..j], Kept(src, j, cuts));
    }
  }

  lemma Regroup(x: string, y: string, z: string)
    ensures x + (y + z) == x + y + z
  {
  }

  /** Everything between `i` and `j` is in an interval: none of it is kept. */
  lemma {:induction false} KeptInside(src: string, i: nat, j: nat, cuts: seq<Cut>)
    requires i <= j <= |src| && forall m :: i <= m < j ==> InSome(cuts, m)
    ensures Kept(src, i, cuts) == Kept(src, j, cuts)
    decreases j - i
  {
    if i < j {
      KeptInside(src, i + 1, j, cuts);
    }
  }

  /** An interval already passed no longer matters. */
  lemma {:induction false} KeptPast(src: string, i: nat, c: Cut, rest: seq<Cut>)
    requires c.to <= i <= |src|
    ensures Kept(src, i, [c] + rest) == Kept(src, i, rest)
    decreases |src| - i
  {
    if i < |src| {
      KeptPast(src, i + 1, c, rest);
      InSomeCons(c, rest, i);
    }
  }

  lemma InSomeCons(c: Cut, rest: seq<Cut>, i: nat)
    ensures InSome([c] + rest, i) <==> c.from <= i < c.to || InSome(rest, i)
  {
    var cuts := [c] + rest;
    if c.from <= i < c.to {
      assert cuts[0] == c;
    }
    if InSome(rest, i) {
      var k :| 0 <= k < |rest| && rest[k].from <= i < rest[k].to;
      assert cuts[k + 1] == rest[k];
    }
  }

  /** The output is the source without the intervals, every other character kept in order. */
  lemma {:induction false} StrippedIsTheRest(src: string, i: nat, find: Finder, out: string)
    requires Sound(find) && i <= |src|
    ensures StripInto(src, i, find, out) == out + Kept(src, i, Cuts(src, i, find))
    decreases |src| - i
  {
    if find(src, i).None? {
      KeptOutside(src, i, |src|, []);
      assert src[i..|src|] == src[i..];
    } else {
      var h := find(src, i).value;
      var c := CutOf(src, h);
      var rest := Cuts(src, c.to, find);
      StrippedIsTheRest(src, c.to, find, out + src[i..h.at]);
      CutsIncrease(src, c.to, find);
      KeptAround(src, i, c, rest);
      Regroup(out, src[i..h.at], Kept(src, c.to, rest));
    }
  }

  lemma KeptAround(src: string, i: nat, c: Cut, rest: seq<Cut>)
    requires i <= c.from < c.to <= |src| && Increasing(rest, c.to, |src|)
    ensures Kept(src, i, [c] + rest) == src[i..c.from] + Kept(src, c.to, rest)
  {
    forall m: nat ensures InSome([c] + rest, m) <==> c.from <= m < c.to || InSome(rest, m) {
      InSomeCons(c, rest, m);
    }
    KeptOutside(src, i, c.from, [c] + rest);
    KeptInside(src, c.from, c.to, [c] + rest);
    KeptPast(src, c.to, c, rest);
  }

  /** Each interval runs from a header, found in what follows the interval before it, to the close
      of its braces: the first place where they balance, or the end of the text. */
  ghost predicate FromHeaderToClose(src: string, i: nat, find: Finder, c: Cut) {
    && find(src, i).Some?
    && var h := find(src, i).value;
       && i <= c.from == h.at <= h.open < c.to <= |src| && src[h.open] == '{'
       && (forall m :: h.open < m < c.to ==> Net(src, h.open, m) > 0)
       && (Net(src, h.open, c.to) == 0 || (c.to == |src| && Net(src, h.open, c.to) > 0))
  }

  lemma CutRunsToClose(src: string, i: nat, find: Finder)
    requires Sound(find) && i <= |src| && find(src, i).Some?
    ensures FromHeaderToClose(src, i, find, CutOf(src, find(src, i).value))
  {
    ModuleEndIsFirstBalance(src, find(src, i).value.open);
  }

  lemma {:induction false} CutsRunToClose(src: string, i: nat, find: Finder, k: nat)
    requires Sound(find) && i <= |src| && k < |Cuts(src, i, find)|
    ensures var cuts := Cuts(src, i, find);
            var from := if k == 0 then i else cuts[k - 1].to;
            from <= |src| && FromHeaderToClose(src, from, find, cuts[k])
    decreases |src| - i
  {
    CutRunsToClose(src, i, find);
    if k > 0 {
      var c := CutOf(src, find(src, i).value);
      var rest := Cuts(src, c.to, find);
      CutsRunToClose(src, c.to, find, k - 1);
      assert Cuts(src, i, find) == [c] + rest;
      assert k > 1 ==> ([c] + rest)[k - 1] == rest[k - 2];
    }
  }

  /** No header is left standing behind the last interval. */
  lemma {:induction false} NoHeaderIsLeft(src: string, i: nat, find: Finder)
    requires Sound(find) && i <= |src|
    ensures var cuts := Cuts(src, i, find);
            var last := if cuts == [] then i else cuts[|cuts| - 1].to;
            find(src, last).None?
    decreases |src| - i
  {
    if find(src, i).Some? {
      var c := CutOf(src, find(src, i).value);
      NoHeaderIsLeft(src, c.to, find);
      var rest := Cuts(src, c.to, find);
      assert rest != [] ==> ([c] + rest)[|rest|] == rest[|rest| - 1];
    }
  }

  // ----- the loops -----

  /** The counting loop of one module. */
  method CloseOf(src: string, open: nat) returns (j: nat)
    requires open < |src|
    ensures j == BraceEnd(src, open, 0)
  {
    var depth := 0;
    j := open;
    while j < |src|
      invariant open <= j <= |src|
      invariant BraceEnd(src, open, 0) == BraceEnd(src, j, depth)
      decreases |src| - j
    {
      if src[j] == '{' {
        depth := depth + 1;
      } else if src[j] == '}' {
        depth := depth - 1;
        if depth == 0 { break; }
      }
      j := j + 1;
    }
  }

  /** `stripTestMods`. */
  method StripTestMods(src: string, find: Finder) returns (out: string)
    requires Sound(find)
    ensures out == Kept(src, 0, Cuts(src, 0, find)) && Increasing(Cuts(src, 0, find), 0, |src|)
  {
    StripKeepsEverythingElse(src, find);
    out := "";
    var i := 0;
    while true
      invariant i <= |src| && StripInto(src, 0, find, "") == StripInto(src, i, find, out)
      decreases |src| - i
    {
      var m := find(src, i);
      if m.None? {
        return out + src[i..];
      }
      out := out + src[i..m.value.at];
      var j := CloseOf(src, m.value.open);
      i := Least(j + 1, |src|);
    }
  }

  /** What is left of a source: the text outside its intervals, which are apart and in order. */
  lemma StripKeepsEverythingElse(src: string, find: Finder)
    requires Sound(find)
    ensures StripInto(src, 0, find, "") == Kept(src, 0, Cuts(src, 0, find))
    ensures Increasing(Cuts(src, 0, find), 0, |src|)
  {
    StrippedIsTheRest(src, 0, find, "");
    CutsIncrease(src, 0, find);
  }
}
