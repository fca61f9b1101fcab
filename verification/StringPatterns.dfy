/** Sinatra-style patterns (web/string_pattern.go): parsing, greedy matching, and
    the declarative decomposition of the path that the matching decides. */
module StringPatterns {
  import opened Bytes
  import opened Options
  import opened Sequences

  datatype RawStringPattern = RawStringPattern(
    raw: Str, pats: seq<Str>, breaks: seq<Byte>, literals: seq<Str>, wildcard: bool)

  /** Parameter i: a proper name, after a literal that ends in a break character,
      stopping at the first byte of the next literal (or at a slash when the
      pattern ends there). */
  ghost predicate ParameterOk(sp: RawStringPattern, i: nat)
    requires i < |sp.pats| && |sp.literals| == |sp.pats| + 1 && |sp.breaks| == |sp.pats|
  {
    && IsName(sp.pats[i])
    && sp.literals[i] != [] && IsBreak(sp.literals[i][|sp.literals[i]| - 1])
    && IsBreak(sp.breaks[i])
    && if sp.literals[i + 1] == []
       then i + 1 == |sp.pats| && !sp.wildcard && sp.breaks[i] == SLASH
       else sp.breaks[i] == sp.literals[i + 1][0]
  }

  /** What parsing guarantees and matching relies on. */
  ghost predicate WellFormed(sp: RawStringPattern) {
    && |sp.literals| == |sp.pats| + 1 && |sp.breaks| == |sp.pats|
    && (forall i: nat | i < |sp.pats| :: ParameterOk(sp, i))
    && (sp.wildcard ==> Tail(sp) != [] && Tail(sp)[|Tail(sp)| - 1] == SLASH)
  }

  type StringPattern = sp: RawStringPattern | WellFormed(sp)
    witness RawStringPattern([], [], [], [[]], false)

  predicate IsBreak(b: Byte) {
    b == SLASH || b == DOT || b == SEMICOLON || b == COMMA
  }

  predicate IsName(s: Str) {
    s != [] && forall k | 0 <= k < |s| :: !IsBreak(s[k])
  }

  function Tail(sp: RawStringPattern): Str
    requires |sp.literals| == |sp.pats| + 1
  {
    sp.literals[|sp.pats|]
  }

  /** Literals with something between neighbours, written out from the right. */
  function Woven(literals: seq<Str>, between: seq<Str>): Str
    requires |literals| == |between| + 1
  {
    var n := |between|;
    if n == 0 then literals[0] else Woven(literals[..n], between[..n - 1]) + between[n - 1] + literals[n]
  }

  /** The same, seen from the left. */
  lemma {:induction false} WovenFromLeft(literals: seq<Str>, between: seq<Str>)
    requires |literals| == |between| + 1 && between != []
    ensures Woven(literals, between) == literals[0] + between[0] + Woven(literals[1..], between[1..])
  {
    var n := |between|;
    if n == 1 {
      assert Woven(literals[..1], between[..0]) == literals[0];
    } else {
      WovenFromLeft(literals[..n], between[..n - 1]);
      assert literals[..n][1..] == literals[1..][..n - 1] && between[..n - 1][1..] == between[1..][..n - 2];
      var a, m, z := literals[0] + between[0], Woven(literals[1..][..n - 1], between[1..][..n - 2]), between[n - 1] + literals[n];
      assert Woven(literals, between) == a + m + between[n - 1] + literals[n];
      assert Woven(literals[1..], between[1..]) == m + between[n - 1] + literals[n];
      assert a + m + between[n - 1] + literals[n] == a + (m + between[n - 1] + literals[n]);
    }
  }

  /** The break characters are slash, dot, semicolon and comma. */
  lemma BreakCharacters(b: Byte)
    ensures IsBreak(b) <==> b == 47 || b == 46 || b == 59 || b == 44
    ensures SLASH == 47 && COLON == 58 && STAR == 42
  {}

  /** What a pattern that has been parsed looks like. */
  lemma PatternShape(sp: StringPattern)
    ensures |sp.literals| == |sp.pats| + 1 && |sp.breaks| == |sp.pats|
    ensures forall i: nat | i < |sp.pats| :: sp.pats[i] != [] && forall k: nat | k < |sp.pats[i]| :: !IsBreak(sp.pats[i][k])
    ensures forall i: nat | i < |sp.pats| :: sp.literals[i] != [] && IsBreak(sp.literals[i][|sp.literals[i]| - 1])
    ensures forall i: nat | i < |sp.pats| ::
              if sp.literals[i + 1] != [] then sp.breaks[i] == sp.literals[i + 1][0]
              else i + 1 == |sp.pats| && !sp.wildcard && sp.breaks[i] == 47
    ensures sp.wildcard ==> sp.literals[|sp.pats|] != [] && sp.literals[|sp.pats|][|sp.literals[|sp.pats|]| - 1] == 47
  {
    forall i: nat | i < |sp.pats|
      ensures IsName(sp.pats[i]) && sp.literals[i] != [] && IsBreak(sp.literals[i][|sp.literals[i]| - 1])
      ensures if sp.literals[i + 1] != [] then sp.breaks[i] == sp.literals[i + 1][0]
              else i + 1 == |sp.pats| && !sp.wildcard && sp.breaks[i] == 47
    {
      assert ParameterOk(sp, i);
    }
  }

  // ----- parsing -----

  /** A parameter begins at q: a break character, a colon, and one name byte. */
  predicate StartsAt(s: Str, q: nat) {
    q + 2 < |s| && IsBreak(s[q]) && s[q + 1] == COLON && !IsBreak(s[q + 2])
  }

  function NameEnd(s: Str, k: nat): (e: nat)
    requires k <= |s|
    ensures k <= e <= |s|
    ensures forall j | k <= j < e :: !IsBreak(s[j])
    ensures e == |s| || IsBreak(s[e])
    decreases |s| - k
  {
    if k < |s| && !IsBreak(s[k]) then NameEnd(s, k + 1) else k
  }

  /** The (start, end) of every name, as the regular expression of
      web/string_pattern.go:103 finds them: leftmost first, never overlapping. */
  function FindAll(s: Str, from: nat): seq<(nat, nat)>
    decreases |s| - from
  {
    if |s| <= from then []
    else if StartsAt(s, from) then
      var e := NameEnd(s, from + 2);
      [(from + 2, e)] + FindAll(s, e)
    else FindAll(s, from + 1)
  }

  /** Where the literal before name i starts: at the end of the previous name. */
  function LiteralStart(ms: seq<(nat, nat)>, i: nat, from: nat): nat
    requires i <= |ms|
  {
    if i == 0 then from else ms[i - 1].1
  }

  ghost predicate FoundAt(s: Str, ms: seq<(nat, nat)>, from: nat, i: nat)
    requires i < |ms|
  {
    && LiteralStart(ms, i, from) + 2 <= ms[i].0 < ms[i].1 <= |s|
    && StartsAt(s, ms[i].0 - 2)
    && ms[i].1 == NameEnd(s, ms[i].0)
  }

  ghost predicate Found(s: Str, ms: seq<(nat, nat)>, from: nat) {
    forall i: nat | i < |ms| :: FoundAt(s, ms, from, i)
  }

  ghost predicate HasHit(ms: seq<(nat, nat)>, q: nat) {
    exists i :: 0 <= i < |ms| && ms[i].0 == q + 2
  }

  /** The names found are exactly the maximal runs after a break character and a
      colon: none is invented and none is missed. */
  lemma {:induction false} FindAllIsExact(s: Str, from: nat)
    ensures Found(s, FindAll(s, from), from)
    ensures forall q: nat | from <= q && StartsAt(s, q) :: HasHit(FindAll(s, from), q)
    decreases |s| - from
  {
    if from < |s| {
      var ms := FindAll(s, from);
      if StartsAt(s, from) {
        var e := NameEnd(s, from + 2);
        var rest := FindAll(s, e);
        FindAllIsExact(s, e);
        forall i: nat | i < |ms|
          ensures FoundAt(s, ms, from, i)
        {
          if i > 0 {
            assert FoundAt(s, rest, e, i - 1);
          }
        }
        forall q: nat | from <= q && StartsAt(s, q)
          ensures HasHit(ms, q)
        {
          if q == from {
            assert ms[0].0 == q + 2;
          } else {
            assert e <= q by {
              assert q != from + 1;
            }
            assert HasHit(rest, q);
            var i :| 0 <= i < |rest| && rest[i].0 == q + 2;
            assert ms[i + 1].0 == q + 2;
          }
        }
      } else {
        FindAllIsExact(s, from + 1);
        forall i: nat | i < |ms|
          ensures FoundAt(s, ms, from, i)
        {
          assert FoundAt(s, ms, from + 1, i);
        }
      }
    }
  }

  /** The pattern written out again from literal i on. */
  function Render(sp: RawStringPattern, i: nat): Str
    requires i <= |sp.pats| && |sp.literals| == |sp.pats| + 1
    decreases |sp.pats| - i
  {
    if i == |sp.pats| then Tail(sp)
    else sp.literals[i] + [COLON] + sp.pats[i] + Render(sp, i + 1)
  }

  /** Piece i of a parsed pattern, cut out of s at the match ms[i]. */
  ghost predicate CutAt(s: Str, ms: seq<(nat, nat)>, literals: seq<Str>, pats: seq<Str>, breaks: seq<Byte>, i: nat)
    requires i < |ms| && i < |literals| && i < |pats| && i < |breaks|
  {
    && FoundAt(s, ms, 0, i)
    && literals[i] == s[LiteralStart(ms, i, 0)..ms[i].0 - 1]
    && pats[i] == s[ms[i].0..ms[i].1]
    && breaks[i] == if ms[i].1 == |s| then SLASH else s[ms[i].1]
  }

  ghost predicate Cut(s: Str, ms: seq<(nat, nat)>, sp: RawStringPattern) {
    && |sp.pats| == |sp.breaks| == |ms| && |sp.literals| == |ms| + 1
    && (forall i: nat | i < |ms| :: CutAt(s, ms, sp.literals, sp.pats, sp.breaks, i))
    && LiteralStart(ms, |ms|, 0) <= |s|
    && Tail(sp) == s[LiteralStart(ms, |ms|, 0)..]
    && (sp.wildcard ==> s != [] && s[|s| - 1] == SLASH)
  }

  lemma TailIsRendered(s: Str, ms: seq<(nat, nat)>, sp: RawStringPattern)
    requires Cut(s, ms, sp)
    ensures Render(sp, |ms|) == s[LiteralStart(ms, |ms|, 0)..]
  {}

  lemma {:induction false} CutRendersBack(s: Str, ms: seq<(nat, nat)>, sp: RawStringPattern, i: nat)
    requires Cut(s, ms, sp) && i <= |ms|
    ensures LiteralStart(ms, i, 0) <= |s| && Render(sp, i) == s[LiteralStart(ms, i, 0)..]
    decreases |ms| - i
  {
    hide NameEnd, Tail, Found;
    if i == |ms| {
      TailIsRendered(s, ms, sp);
    } else {
      CutRendersBack(s, ms, sp, i + 1);
      assert CutAt(s, ms, sp.literals, sp.pats, sp.breaks, i);
      var n, a, b := LiteralStart(ms, i, 0), ms[i].0, ms[i].1;
      assert StartsAt(s, a - 2);
      assert s[a - 1..a] == [COLON];
      SplitInFour(s, n, a - 1, a, b);
    }
  }

  lemma CutIsWellFormed(s: Str, ms: seq<(nat, nat)>, sp: RawStringPattern)
    requires Cut(s, ms, sp)
    ensures WellFormed(sp)
  {
    forall i: nat | i < |ms|
      ensures ParameterOk(sp, i)
    {
      assert CutAt(s, ms, sp.literals, sp.pats, sp.breaks, i);
      CutParameterOk(s, ms, sp, i);
    }
    if sp.wildcard {
      TailIsLeft(s, ms, sp);
    }
  }

  lemma TailIsLeft(s: Str, ms: seq<(nat, nat)>, sp: RawStringPattern)
    requires Cut(s, ms, sp) && sp.wildcard
    ensures LiteralStart(ms, |ms|, 0) < |s|
  {
    if |ms| > 0 {
      assert CutAt(s, ms, sp.literals, sp.pats, sp.breaks, |ms| - 1);
    }
  }

  lemma CutParameterOk(s: Str, ms: seq<(nat, nat)>, sp: RawStringPattern, i: nat)
    requires Cut(s, ms, sp) && i < |ms|
    ensures ParameterOk(sp, i)
  {
    assert CutAt(s, ms, sp.literals, sp.pats, sp.breaks, i);
    var a, b := ms[i].0, ms[i].1;
    assert StartsAt(s, a - 2);
    assert sp.literals[i][|sp.literals[i]| - 1] == s[a - 2];
    assert IsName(sp.pats[i]);
    if i + 1 < |ms| {
      assert CutAt(s, ms, sp.literals, sp.pats, sp.breaks, i + 1);
      assert sp.literals[i + 1][0] == s[b];
    } else if b < |s| {
      assert sp.literals[i + 1][0] == s[b];
    } else if sp.wildcard {
      TailIsLeft(s, ms, sp);
      assert false;
    }
  }

  lemma CutAtFrame(s: Str, ms: seq<(nat, nat)>, n: nat, l: seq<Str>, p: seq<Str>, b: seq<Byte>, l': seq<Str>, p': seq<Str>, b': seq<Byte>)
    requires n <= |ms| && n <= |l| && n <= |p| && n <= |b| && n <= |l'| && n <= |p'| && n <= |b'|
    requires l[..n] == l'[..n] && p[..n] == p'[..n] && b[..n] == b'[..n]
    requires forall j: nat | j < n :: CutAt(s, ms, l, p, b, j)
    ensures forall j: nat | j < n :: CutAt(s, ms, l', p', b', j)
  {
    forall j: nat | j < n
      ensures CutAt(s, ms, l', p', b', j)
    {
      assert CutAt(s, ms, l, p, b, j);
      assert l[..n][j] == l'[..n][j] && p[..n][j] == p'[..n][j] && b[..n][j] == b'[..n][j];
    }
  }

  /** The loop of web/string_pattern.go:114-129. */
  method CutPieces(s: Str, matches: seq<(nat, nat)>) returns (literals: seq<Str>, pats: seq<Str>, breaks: seq<Byte>)
    requires Found(s, matches, 0)
    ensures |pats| == |breaks| == |matches| && |literals| == |matches| + 1
    ensures LiteralStart(matches, |matches|, 0) <= |s|
    ensures forall i: nat | i < |matches| :: CutAt(s, matches, literals, pats, breaks, i)
    ensures literals[|matches|] == s[LiteralStart(matches, |matches|, 0)..]
  {
    pats := seq(|matches|, _ => []);
    breaks := seq(|matches|, _ => 0);
    literals := seq(|matches| + 1, _ => []);
    var n := 0;
    for i := 0 to |matches|
      invariant |pats| == |breaks| == |matches| && |literals| == |matches| + 1
      invariant n == LiteralStart(matches, i, 0) <= |s|
      invariant forall j: nat | j < i :: CutAt(s, matches, literals, pats, breaks, j)
    {
      ghost var l, p, b := literals, pats, breaks;
      assert FoundAt(s, matches, 0, i);
      var (start, end) := matches[i];
      literals := literals[i := s[n..start - 1]]; // the colon is left off
      pats := pats[i := s[start..end]];
      breaks := breaks[i := if end == |s| then SLASH else s[end]];
      n := end;
      CutAtFrame(s, matches, i, l, p, b, literals, pats, breaks);
    }
    ghost var l := literals;
    literals := literals[|matches| := s[n..]];
    CutAtFrame(s, matches, |matches|, l, pats, breaks, literals, pats, breaks);
  }

  /** web/string_pattern.go:105-137. Writing the result out again, with the star of
      a wildcard, gives the string back, so nothing is lost or moved. */
  method ParseStringPattern(raw: Str) returns (sp: StringPattern)
    ensures sp.raw == raw
    ensures sp.wildcard == (|raw| >= 2 && raw[|raw| - 2..] == [SLASH, STAR])
    ensures Render(sp, 0) + (if sp.wildcard then [STAR] else []) == raw
    ensures Woven(sp.literals, Coloned(sp.pats)) + (if sp.wildcard then [42] else []) == raw
    ensures var s := if sp.wildcard then raw[..|raw| - 1] else raw; Cut(s, FindAll(s, 0), sp)
  {
    hide FindAll, Found, Render, Woven, Coloned, CutAt, WellFormed;
    var s := raw;
    var wildcard := false;
    if |s| >= 2 && s[|s| - 2..] == [SLASH, STAR] {
      s := s[..|s| - 1];
      wildcard := true;
      assert raw[|raw| - 2..][0] == SLASH && raw[|raw| - 2..][1] == STAR;
    }
    FindAllIsExact(s, 0);
    var matches := FindAll(s, 0);
    var literals, pats, breaks := CutPieces(s, matches);
    var r := RawStringPattern(raw, pats, breaks, literals, wildcard);
    CutIsWellFormed(s, matches, r);
    CutRendersBack(s, matches, r, 0);
    RenderIsWoven(r, 0);
    assert r.literals[0..] == r.literals && r.pats[0..] == r.pats;
    sp := r;
  }

  function Start(ms: seq<(nat, nat)>, i: nat): nat
    requires i < |ms|
  {
    ms[i].0
  }

  function End(ms: seq<(nat, nat)>, i: nat): nat
    requires i < |ms|
  {
    ms[i].1
  }

  /** The names of s are cut out wherever a break character is followed by a colon and
      a byte that is none, and nowhere else; each goes on to the next break character
      or to the end. */
  lemma NamesOf(s: Str, ms: seq<(nat, nat)>, sp: RawStringPattern)
    requires ms == FindAll(s, 0) && Cut(s, ms, sp)
    ensures forall q: nat | q + 2 < |s| && IsBreak(s[q]) && s[q + 1] == 58 && !IsBreak(s[q + 2]) :: HasHit(ms, q)
    ensures forall i: nat | i < |ms| :: 2 <= Start(ms, i) < End(ms, i) <= |s|
    ensures forall i: nat | i < |ms| :: IsBreak(s[Start(ms, i) - 2]) && s[Start(ms, i) - 1] == 58
    ensures forall i: nat, j: nat | i < j < |ms| :: End(ms, i) + 2 <= Start(ms, j)
    ensures forall i: nat, k: nat | i < |ms| && Start(ms, i) <= k < End(ms, i) :: !IsBreak(s[k])
    ensures forall i: nat | i < |ms| :: End(ms, i) == |s| || IsBreak(s[End(ms, i)])
    ensures |sp.pats| == |ms| && forall i: nat | i < |ms| :: sp.pats[i] == s[Start(ms, i)..End(ms, i)]
  {
    hide Cut, FoundAt, StartsAt, NameEnd, FindAll;
    FindAllIsExact(s, 0);
    SameCount(s, ms, sp);
    forall i: nat | i < |ms|
      ensures 2 <= Start(ms, i) < End(ms, i) <= |s|
      ensures IsBreak(s[Start(ms, i) - 2]) && s[Start(ms, i) - 1] == 58
      ensures End(ms, i) == |s| || IsBreak(s[End(ms, i)])
      ensures sp.pats[i] == s[Start(ms, i)..End(ms, i)]
    {
      NameAt(s, ms, sp, i);
    }
    forall i: nat, k: nat | i < |ms| && Start(ms, i) <= k < End(ms, i)
      ensures !IsBreak(s[k])
    {
      NameAt(s, ms, sp, i);
    }
    forall i: nat, j: nat | i < j < |ms|
      ensures End(ms, i) + 2 <= Start(ms, j)
    {
      InOrder(s, ms, i, j);
    }
    forall q: nat | q + 2 < |s| && IsBreak(s[q]) && s[q + 1] == 58 && !IsBreak(s[q + 2])
      ensures HasHit(ms, q)
    {
      NameStarts(s, q);
    }
  }

  lemma SameCount(s: Str, ms: seq<(nat, nat)>, sp: RawStringPattern)
    requires Cut(s, ms, sp)
    ensures |sp.pats| == |ms|
  {}

  lemma NameStarts(s: Str, q: nat)
    requires q + 2 < |s| && IsBreak(s[q]) && s[q + 1] == 58 && !IsBreak(s[q + 2])
    ensures StartsAt(s, q)
  {}

  lemma NameAt(s: Str, ms: seq<(nat, nat)>, sp: RawStringPattern, i: nat)
    requires Cut(s, ms, sp) && i < |ms|
    ensures 2 <= Start(ms, i) < End(ms, i) <= |s|
    ensures IsBreak(s[Start(ms, i) - 2]) && s[Start(ms, i) - 1] == 58
    ensures forall k: nat | Start(ms, i) <= k < End(ms, i) :: !IsBreak(s[k])
    ensures End(ms, i) == |s| || IsBreak(s[End(ms, i)])
    ensures i < |sp.pats| && sp.pats[i] == s[Start(ms, i)..End(ms, i)]
  {
    assert CutAt(s, ms, sp.literals, sp.pats, sp.breaks, i);
  }

  lemma HitMeans(ms: seq<(nat, nat)>, q: nat)
    ensures HasHit(ms, q) <==> exists i: nat :: i < |ms| && Start(ms, i) == q + 2
  {
    if HasHit(ms, q) {
      var i :| 0 <= i < |ms| && ms[i].0 == q + 2;
      assert Start(ms, i) == q + 2;
    }
  }

  lemma {:induction false} InOrder(s: Str, ms: seq<(nat, nat)>, i: nat, j: nat)
    requires Found(s, ms, 0) && i < j < |ms|
    ensures End(ms, i) + 2 <= Start(ms, j)
  {
    assert FoundAt(s, ms, 0, j) && FoundAt(s, ms, 0, j - 1);
    if i < j - 1 {
      InOrder(s, ms, i, j - 1);
    }
  }

  function Coloned(names: seq<Str>): (r: seq<Str>)
    ensures |r| == |names| && forall i: nat | i < |r| :: r[i] == [58] + names[i]
  {
    if names == [] then [] else [[COLON] + names[0]] + Coloned(names[1..])
  }

  lemma WovenAlone(literals: seq<Str>, between: seq<Str>)
    requires |literals| == 1 && between == []
    ensures Woven(literals, between) == literals[0]
  {}

  lemma TailIsLast(sp: RawStringPattern)
    requires |sp.literals| == |sp.pats| + 1
    ensures Tail(sp) == sp.literals[|sp.pats|]
  {}

  /** Written out again means: literals and names, each with its colon, interleaved. */
  lemma {:induction false} RenderIsWoven(sp: RawStringPattern, i: nat)
    requires i <= |sp.pats| && |sp.literals| == |sp.pats| + 1
    ensures Render(sp, i) == Woven(sp.literals[i..], Coloned(sp.pats[i..]))
    decreases |sp.pats| - i
  {
    hide Woven, Tail;
    if i == |sp.pats| {
      WovenAlone(sp.literals[i..], Coloned(sp.pats[i..]));
      TailIsLast(sp);
    } else {
      RenderIsWoven(sp, i + 1);
      WovenFromLeft(sp.literals[i..], Coloned(sp.pats[i..]));
      assert sp.pats[i..][1..] == sp.pats[i + 1..];
      var a, b, c := sp.literals[i], [COLON], sp.pats[i];
      assert a + b + c + Render(sp, i + 1) == a + (b + c) + Render(sp, i + 1);
    }
  }

  // ----- matching -----

  /** A parameter's value: not empty, and free of slashes and of its break byte. */
  predicate ValueOk(v: Str, stop: Byte) {
    v != [] && forall k | 0 <= k < |v| :: v[k] != stop && v[k] != SLASH
  }

  /** The path a pattern spells, from parameter i on, under the given values. */
  function Fill(sp: StringPattern, i: nat, vals: seq<Str>): Str
    requires i + |vals| == |sp.pats|
    decreases |vals|
  {
    if vals == [] then Tail(sp) else sp.literals[i] + vals[0] + Fill(sp, i + 1, vals[1..])
  }

  ghost predicate ValuesOk(sp: StringPattern, i: nat, vals: seq<Str>)
    requires i + |vals| == |sp.pats|
    decreases |vals|
  {
    vals == [] || (ValueOk(vals[0], sp.breaks[i]) && ValuesOk(sp, i + 1, vals[1..]))
  }

  /** The declarative meaning of a pattern: the path splits into the literals with
      one value between neighbours; only a wildcard leaves a remainder. */
  ghost predicate Splits(sp: StringPattern, i: nat, path: Str, vals: seq<Str>, rest: Str) {
    && i + |vals| == |sp.pats|
    && ValuesOk(sp, i, vals)
    && path == Fill(sp, i, vals) + rest
    && (!sp.wildcard ==> rest == [])
  }

  /** First position at or after m of the break byte or of a slash. */
  function ValueEnd(path: Str, stop: Byte, m: nat): (e: nat)
    requires m <= |path|
    ensures m <= e <= |path|
    ensures forall k | m <= k < e :: path[k] != stop && path[k] != SLASH
    ensures e == |path| || path[e] == stop || path[e] == SLASH
    decreases |path| - m
  {
    if m == |path| || path[m] == stop || path[m] == SLASH then m else ValueEnd(path, stop, m + 1)
  }

  datatype Split = Split(vals: seq<Str>, rest: Str)

  /** The greedy walk of the matcher, from parameter i on. */
  function Greedy(sp: StringPattern, i: nat, path: Str): Option<Split>
    requires i <= |sp.pats|
    decreases |sp.pats| - i
  {
    if i == |sp.pats| then
      if sp.wildcard then if Tail(sp) <= path then Some(Split([], path[|Tail(sp)|..])) else None
      else if path == Tail(sp) then Some(Split([], [])) else None
    else if !(sp.literals[i] <= path) then None
    else
      var p := path[|sp.literals[i]|..];
      var m := ValueEnd(p, sp.breaks[i], 0);
      if m == 0 then None
      else match Greedy(sp, i + 1, p[m..])
        case None => None
        case Some(Split(vals, rest)) => Some(Split([p[..m]] + vals, rest))
  }

  lemma SplitHead(sp: StringPattern, i: nat, path: Str, v: Str, vals: seq<Str>, rest: Str)
    requires i < |sp.pats| && ValueOk(v, sp.breaks[i])
    requires sp.literals[i] + v <= path
    requires Splits(sp, i + 1, path[|sp.literals[i] + v|..], vals, rest)
    ensures Splits(sp, i, path, [v] + vals, rest)
  {
    var all := [v] + vals;
    assert all[0] == v && all[1..] == vals;
    assert path == sp.literals[i] + v + path[|sp.literals[i] + v|..];
    assert path == sp.literals[i] + v + (Fill(sp, i + 1, vals) + rest);
  }

  lemma {:induction false} GreedyIsSound(sp: StringPattern, i: nat, path: Str)
    requires i <= |sp.pats|
    ensures var g := Greedy(sp, i, path); g.Some? ==> Splits(sp, i, path, g.value.vals, g.value.rest)
    decreases |sp.pats| - i
  {
    var g := Greedy(sp, i, path);
    if g.Some? {
      if i == |sp.pats| {
        assert path == Tail(sp) + g.value.rest;
      } else {
        var p := path[|sp.literals[i]|..];
        var m := ValueEnd(p, sp.breaks[i], 0);
        GreedyIsSound(sp, i + 1, p[m..]);
        var g' := Greedy(sp, i + 1, p[m..]).value;
        assert sp.literals[i] + p[..m] <= path && path[|sp.literals[i] + p[..m]|..] == p[m..];
        SplitHead(sp, i, path, p[..m], g'.vals, g'.rest);
      }
    }
  }

  /** What follows a value begins with its break byte, or there is nothing. */
  lemma AfterValue(sp: StringPattern, i: nat, vals: seq<Str>, rest: Str)
    requires i < |sp.pats| && i + 1 + |vals| == |sp.pats|
    requires !sp.wildcard ==> rest == []
    ensures var follows := Fill(sp, i + 1, vals) + rest; follows == [] || follows[0] == sp.breaks[i]
  {
    assert ParameterOk(sp, i);
    if vals != [] {
      assert ParameterOk(sp, i + 1);
    }
  }

  lemma ValueEndIsForced(v: Str, follows: Str, stop: Byte)
    requires ValueOk(v, stop) && (follows == [] || follows[0] == stop)
    ensures ValueEnd(v + follows, stop, 0) == |v|
  {
    var p := v + follows;
    assert forall k | 0 <= k < |v| :: p[k] == v[k];
    if follows != [] {
      assert p[|v|] == follows[0];
    }
  }

  lemma SplitTail(sp: StringPattern, i: nat, path: Str, vals: seq<Str>, rest: Str) returns (p: Str)
    requires Splits(sp, i, path, vals, rest) && vals != []
    ensures sp.literals[i] <= path && p == path[|sp.literals[i]|..]
    ensures p == vals[0] + (Fill(sp, i + 1, vals[1..]) + rest)
    ensures p[..|vals[0]|] == vals[0] && p[|vals[0]|..] == Fill(sp, i + 1, vals[1..]) + rest
  {
    var follows := Fill(sp, i + 1, vals[1..]) + rest;
    assert path == sp.literals[i] + (vals[0] + follows);
    p := path[|sp.literals[i]|..];
    assert p == vals[0] + follows;
  }

  /** Every split of the path is the one the greedy walk finds. */
  lemma {:induction false} GreedyIsComplete(sp: StringPattern, i: nat, path: Str, vals: seq<Str>, rest: Str)
    requires Splits(sp, i, path, vals, rest)
    ensures Greedy(sp, i, path) == Some(Split(vals, rest))
    decreases |vals|
  {
    if vals == [] {
      assert path[|Tail(sp)|..] == rest;
    } else {
      var follows := Fill(sp, i + 1, vals[1..]) + rest;
      var p := SplitTail(sp, i, path, vals, rest);
      AfterValue(sp, i, vals[1..], rest);
      ValueEndIsForced(vals[0], follows, sp.breaks[i]);
      GreedyIsComplete(sp, i + 1, follows, vals[1..], rest);
      assert [vals[0]] + vals[1..] == vals;
    }
  }

  predicate Matches(sp: StringPattern, path: Str) {
    Greedy(sp, 0, path).Some?
  }

  /** The matcher decides the declarative meaning, and the split is unique. */
  lemma MatchDecidesSplits(sp: StringPattern, path: Str)
    ensures Matches(sp, path) <==> exists vals, rest :: Splits(sp, 0, path, vals, rest)
    ensures forall v, r, v', r' :: Splits(sp, 0, path, v, r) && Splits(sp, 0, path, v', r') ==> v == v' && r == r'
  {
    GreedyIsSound(sp, 0, path);
    forall v, r | Splits(sp, 0, path, v, r)
      ensures Greedy(sp, 0, path) == Some(Split(v, r))
    {
      GreedyIsComplete(sp, 0, path, v, r);
    }
  }

  /** The first literal is a sound prefix: what matches starts with it. */
  lemma MatchStartsWithPrefix(sp: StringPattern, path: Str)
    requires Matches(sp, path)
    ensures sp.literals[0] <= path
  {
    GreedyIsSound(sp, 0, path);
  }

  /** What a value may be. */
  lemma ValueMeans(v: Str, stop: Byte)
    ensures ValueOk(v, stop) <==> |v| > 0 && forall k: nat | k < |v| :: v[k] != 47 && v[k] != stop
  {
    if |v| > 0 && forall k: nat | k < |v| :: v[k] != 47 && v[k] != stop {
      assert forall k | 0 <= k < |v| :: v[k] != stop && v[k] != SLASH;
    }
  }

  /** A split, without recursion: values that are not empty and free of slashes and of
      their break bytes, woven between the literals, spell the path up to the rest. */
  lemma SplitsMeans(sp: StringPattern, path: Str, vals: seq<Str>, rest: Str)
    ensures Splits(sp, 0, path, vals, rest) <==>
            && |vals| == |sp.pats|
            && (forall i: nat | i < |vals| :: ValueOk(vals[i], sp.breaks[i]))
            && path == Woven(sp.literals, vals) + rest
            && (!sp.wildcard ==> rest == [])
  {
    if |vals| == |sp.pats| {
      FillIsWoven(sp, 0, vals);
      ValuesOneByOne(sp, 0, vals);
      assert sp.literals[0..] == sp.literals;
    }
  }

  lemma {:induction false} FillIsWoven(sp: StringPattern, i: nat, vals: seq<Str>)
    requires i + |vals| == |sp.pats|
    ensures Fill(sp, i, vals) == Woven(sp.literals[i..], vals)
    decreases |vals|
  {
    if vals != [] {
      FillIsWoven(sp, i + 1, vals[1..]);
      WovenFromLeft(sp.literals[i..], vals);
    }
  }

  lemma {:induction false} ValuesOneByOne(sp: StringPattern, i: nat, vals: seq<Str>)
    requires i + |vals| == |sp.pats|
    ensures ValuesOk(sp, i, vals) <==> forall j: nat | j < |vals| :: ValueOk(vals[j], sp.breaks[i + j])
    decreases |vals|
  {
    hide ValueOk;
    if vals != [] {
      ValuesOneByOne(sp, i + 1, vals[1..]);
      if ValuesOk(sp, i, vals) {
        forall j: nat | j < |vals|
          ensures ValueOk(vals[j], sp.breaks[i + j])
        {
          if j > 0 {
            assert ValueOk(vals[1..][j - 1], sp.breaks[i + 1 + (j - 1)]);
          }
        }
      }
      if forall j: nat | j < |vals| :: ValueOk(vals[j], sp.breaks[i + j]) {
        assert ValueOk(vals[0], sp.breaks[i + 0]);
        forall j: nat | j < |vals[1..]|
          ensures ValueOk(vals[1..][j], sp.breaks[i + 1 + j])
        {
          assert ValueOk(vals[j + 1], sp.breaks[i + (j + 1)]);
        }
      }
    }
  }

  // ----- binding -----

  /** Names bound to values in order, a later binding of a name replacing an
      earlier one. */
  function Bind(pats: seq<Str>, vals: seq<Str>): map<Str, Str>
    requires |pats| == |vals|
  {
    if pats == [] then map[]
    else Bind(pats[..|pats| - 1], vals[..|pats| - 1])[pats[|pats| - 1] := vals[|pats| - 1]]
  }

  /** A name is bound to the value at its last occurrence. */
  lemma {:induction false} BindTakesLast(pats: seq<Str>, vals: seq<Str>, k: nat)
    requires |pats| == |vals| && k < |pats|
    requires forall j | k < j < |pats| :: pats[j] != pats[k]
    ensures pats[k] in Bind(pats, vals) && Bind(pats, vals)[pats[k]] == vals[k]
  {
    var n := |pats| - 1;
    if k < n {
      assert pats[n] != pats[k];
      BindTakesLast(pats[..n], vals[..n], k);
    }
  }

  /** The parameters a match of this split stores: the values and, for a wildcard,
      the remainder with the slash before it. A pattern without parameters and
      without wildcard stores a nil map. */
  function Stored(sp: StringPattern, split: Split): Option<map<Str, Str>>
    requires |split.vals| == |sp.pats|
  {
    if sp.wildcard then Some(Bind(sp.pats, split.vals)[[STAR] := [SLASH] + split.rest])
    else if sp.pats == [] then None
    else Some(Bind(sp.pats, split.vals))
  }

  /** Merging into the context's URLParams, nil or not. */
  function Merged(old_: Option<map<Str, Str>>, new_: Option<map<Str, Str>>): Option<map<Str, Str>> {
    match (old_, new_)
    case (None, _) => new_
    case (Some(m), None) => Some(m)
    case (Some(m), Some(n)) => Some(m + n)
  }

  /** What is bound afterwards, key by key, to the values of a split of the path: a
      pattern without parameters and wildcard leaves even a nil map as it was; a name
      has the value at its last occurrence; the star has what is left of the path from
      the slash on that closes the last literal; every other key is as before. */
  lemma BindingMeans(sp: StringPattern, path: Str, split: Split, before: Option<map<Str, Str>>)
    requires Splits(sp, 0, path, split.vals, split.rest)
    ensures |split.vals| == |sp.pats|
    ensures var after := Merged(before, Stored(sp, split));
      && (sp.pats == [] && !sp.wildcard ==> after == before)
      && (sp.pats != [] || sp.wildcard ==> after.Some?)
      && (forall j: nat | j < |sp.pats| && IsLast(sp.pats, j) && !(sp.wildcard && sp.pats[j] == [42]) ::
            sp.pats[j] in after.value && after.value[sp.pats[j]] == split.vals[j])
      && (sp.wildcard ==>
            && [42] in after.value && after.value[[42]] != [] && after.value[[42]][0] == 47
            && path == Woven(sp.literals, split.vals) + after.value[[42]][1..]
            && path == path[..|Woven(sp.literals, split.vals)| - 1] + after.value[[42]]
            && |after.value[[42]]| <= |path| && after.value[[42]] == path[|path| - |after.value[[42]]|..])
      && (after.Some? ==> forall k: Str | !(sp.wildcard && k == [42]) && k !in sp.pats ::
            (k in after.value <==> before.Some? && k in before.value) && (k in after.value ==> after.value[k] == before.value[k]))
  {
    SplitsMeans(sp, path, split.vals, split.rest);
    BindingOfNames(sp, split, before);
    if sp.wildcard {
      PatternShape(sp);
      StarIsSuffix(sp, path, split);
    }
  }

  /** No later parameter has the same name. */
  ghost predicate IsLast(pats: seq<Str>, j: nat)
    requires j < |pats|
  {
    forall l: nat | j < l < |pats| :: pats[l] != pats[j]
  }

  lemma BindingOfNames(sp: StringPattern, split: Split, before: Option<map<Str, Str>>)
    requires |split.vals| == |sp.pats|
    ensures var after := Merged(before, Stored(sp, split));
      && (sp.pats == [] && !sp.wildcard ==> after == before)
      && (sp.pats != [] || sp.wildcard ==> after.Some?)
      && (sp.wildcard ==> [42] in after.value && after.value[[42]] == [47] + split.rest)
      && (forall j: nat | j < |sp.pats| && IsLast(sp.pats, j) && !(sp.wildcard && sp.pats[j] == [42]) ::
            sp.pats[j] in after.value && after.value[sp.pats[j]] == split.vals[j])
      && (after.Some? ==> forall k: Str | !(sp.wildcard && k == [42]) && k !in sp.pats ::
            (k in after.value <==> before.Some? && k in before.value) && (k in after.value ==> after.value[k] == before.value[k]))
  {
    BindKeys(sp.pats, split.vals);
    forall j: nat | j < |sp.pats| && IsLast(sp.pats, j)
      ensures sp.pats[j] in Bind(sp.pats, split.vals) && Bind(sp.pats, split.vals)[sp.pats[j]] == split.vals[j]
    {
      BindTakesLast(sp.pats, split.vals, j);
    }
  }

  lemma {:induction false} BindKeys(pats: seq<Str>, vals: seq<Str>)
    requires |pats| == |vals|
    ensures forall k: Str :: k in Bind(pats, vals) <==> k in pats
  {
    if pats != [] {
      var n := |pats| - 1;
      BindKeys(pats[..n], vals[..n]);
      assert pats == pats[..n] + [pats[n]];
    }
  }

  lemma StarIsSuffix(sp: StringPattern, path: Str, split: Split)
    requires sp.wildcard && |split.vals| == |sp.pats| && path == Woven(sp.literals, split.vals) + split.rest
    ensures var w := Woven(sp.literals, split.vals); w != [] && path == path[..|w| - 1] + ([47] + split.rest)
  {
    var w, n := Woven(sp.literals, split.vals), |sp.pats|;
    PatternShape(sp);
    var tail := sp.literals[n];
    assert w[|w| - 1] == tail[|tail| - 1];
    assert path[..|w| - 1] == w[..|w| - 1];
    assert w == w[..|w| - 1] + [47];
  }

  /** The part of web.C that patterns write. */
  class Context {
    var urlParams: Option<map<Str, Str>>

    constructor ()
      ensures urlParams == None
    {
      urlParams := None;
    }
  }

  function Prepend(vals: seq<Str>, g: Option<Split>): Option<Split> {
    match g case None => None case Some(s) => Some(Split(vals + s.vals, s.rest))
  }

  lemma PrependNothing(g: Option<Split>)
    ensures Prepend([], g) == g
  {
    if g.Some? {
      assert [] + g.value.vals == g.value.vals;
    }
  }

  lemma GreedyStep(sp: StringPattern, i: nat, path: Str, all: Option<Split>, vals: seq<Str>, m: nat)
    requires i < |sp.pats| && all == Prepend(vals, Greedy(sp, i, path))
    requires sp.literals[i] <= path
    requires m == ValueEnd(path[|sp.literals[i]|..], sp.breaks[i], 0)
    ensures m == 0 ==> all == None
    ensures m > 0 ==>
      var p := path[|sp.literals[i]|..];
      all == Prepend(vals + [p[..m]], Greedy(sp, i + 1, p[m..]))
  {
    var p := path[|sp.literals[i]|..];
    if m > 0 {
      var later := Greedy(sp, i + 1, p[m..]);
      assert later.Some? ==> vals + ([p[..m]] + later.value.vals) == vals + [p[..m]] + later.value.vals;
    }
  }

  lemma BindOneMore(pats: seq<Str>, vals: seq<Str>, i: nat, v: Str)
    requires i < |pats| && |vals| == i
    ensures Bind(pats[..i + 1], vals + [v]) == Bind(pats[..i], vals)[pats[i] := v]
  {
    assert pats[..i + 1][..i] == pats[..i] && (vals + [v])[..i] == vals;
  }

  /** The inner loop of web/string_pattern.go:45-51. */
  method ScanValue(path: Str, stop: Byte) returns (m: nat)
    ensures m == ValueEnd(path, stop, 0)
  {
    m := 0;
    while m < |path|
      invariant 0 <= m <= |path|
      invariant ValueEnd(path, stop, 0) == ValueEnd(path, stop, m)
    {
      if path[m] == stop || path[m] == SLASH {
        break;
      }
      m := m + 1;
    }
  }

  /** The walk of web/string_pattern.go:29-73: the verdict, and what it binds. */
  method Walk(sp: StringPattern, urlPath: Str, dryrun: bool) returns (ok: bool, matches: Option<map<Str, Str>>)
    ensures ok == Matches(sp, urlPath)
    ensures ok && !dryrun ==> |Greedy(sp, 0, urlPath).value.vals| == |sp.pats| && matches == Stored(sp, Greedy(sp, 0, urlPath).value)
    ensures ok && !dryrun && sp.wildcard ==> matches.Some? && [42] in matches.value && matches.value[[42]] == [47] + Greedy(sp, 0, urlPath).value.rest
  {
    var path := urlPath;
    matches := None;
    if !dryrun && (sp.wildcard || sp.pats != []) {
      matches := Some(map[]);
    }
    ghost var stores := !dryrun && (sp.wildcard || sp.pats != []);
    ghost var all := Greedy(sp, 0, urlPath);
    ghost var vals: seq<Str> := [];
    PrependNothing(all);
    for i := 0 to |sp.pats|
      invariant |vals| == i
      invariant all == Prepend(vals, Greedy(sp, i, path))
      invariant matches == if stores then Some(Bind(sp.pats[..i], vals)) else None
    {
      var literal := sp.literals[i];
      if !(literal <= path) {
        return false, None;
      }
      var m := ScanValue(path[|literal|..], sp.breaks[i]);
      GreedyStep(sp, i, path, all, vals, m);
      path := path[|literal|..];
      if m == 0 {
        return false, None;
      }
      if !dryrun {
        BindOneMore(sp.pats, vals, i, path[..m]);
        matches := Some(matches.value[sp.pats[i] := path[..m]]);
      }
      vals := vals + [path[..m]];
      path := path[m..];
    }
    assert sp.pats[..|sp.pats|] == sp.pats;
    assert vals + [] == vals;
    var tail := sp.literals[|sp.pats|];
    if sp.wildcard {
      if !(tail <= path) {
        return false, None;
      }
      if !dryrun {
        assert path[|tail| - 1..] == [SLASH] + path[|tail|..];
        matches := Some(matches.value[[STAR] := path[|tail| - 1..]]);
      }
    } else if path != tail {
      return false, None;
    }
    return true, matches;
  }

  /** web/string_pattern.go:28-87. Dry or not, the verdict is the same; only a real
      run on a context writes, and only when it matches: the values of the one
      split, merged over what earlier patterns stored. */
  method Match(sp: StringPattern, urlPath: Str, c: Context?, dryrun: bool) returns (ok: bool, ghost split: Split)
    modifies c
    ensures ok == Matches(sp, urlPath)
    ensures ok ==> Splits(sp, 0, urlPath, split.vals, split.rest)
    ensures c != null && (dryrun || !ok) ==> c.urlParams == old(c.urlParams)
    ensures c != null && !dryrun && ok ==>
      && c.urlParams == Merged(old(c.urlParams), Stored(sp, split))
      && (sp.pats == [] && !sp.wildcard ==> c.urlParams == old(c.urlParams))
      && (sp.pats != [] || sp.wildcard ==> c.urlParams.Some?)
      && (forall j: nat | j < |sp.pats| && IsLast(sp.pats, j) && !(sp.wildcard && sp.pats[j] == [42]) ::
            sp.pats[j] in c.urlParams.value && c.urlParams.value[sp.pats[j]] == split.vals[j])
      && (sp.wildcard ==>
            && [42] in c.urlParams.value && c.urlParams.value[[42]] == [47] + split.rest
            && |c.urlParams.value[[42]]| <= |urlPath| && c.urlParams.value[[42]] == urlPath[|urlPath| - |c.urlParams.value[[42]]|..])
      && (c.urlParams.Some? ==> forall k: Str | !(sp.wildcard && k == [42]) && k !in sp.pats ::
            (k in c.urlParams.value <==> old(c.urlParams).Some? && k in old(c.urlParams).value)
            && (k in c.urlParams.value ==> c.urlParams.value[k] == old(c.urlParams).value[k]))
  {
    var matches;
    split := Split([], []);
    ok, matches := Walk(sp, urlPath, dryrun);
    if ok {
      GreedyIsSound(sp, 0, urlPath);
      split := Greedy(sp, 0, urlPath).value;
    }
    if !ok || c == null || dryrun {
      return;
    }
    BindingMeans(sp, urlPath, split, c.urlParams);
    if c.urlParams == None {
      c.urlParams := matches;
    } else if matches.Some? {
      c.urlParams := Some(c.urlParams.value + matches.value);
    }
  }
}
