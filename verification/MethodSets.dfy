/** Sets of HTTP methods, one bit each (web/router.go:10-28). */
module MethodSets {
  type Methods = bv10

  predicate Shares(a: Methods, b: Methods) {
    a & b != 0
  }

  function Joined(a: Methods, b: Methods): Methods {
    a | b
  }

  lemma SharesJoined(a: Methods, b: Methods, m: Methods)
    ensures Shares(Joined(a, b), m) <==> Shares(a, m) || Shares(b, m)
  {
    hide Shares, Joined;
    BitsJoined(a, b, m);
    JoinedIsOr(a, b);
    SharesIsAnd(a, m);
    SharesIsAnd(b, m);
    SharesIsAnd(a | b, m);
  }

  /** The empty set shares nothing and adds nothing. */
  lemma NoMethods(a: Methods)
    ensures !Shares(0, a) && Joined(a, 0) == a && Joined(0, a) == a
  {}

  lemma BitsJoined(a: Methods, b: Methods, m: Methods)
    ensures (a | b) & m != 0 <==> a & m != 0 || b & m != 0
  {}

  lemma JoinedIsOr(a: Methods, b: Methods)
    ensures Joined(a, b) == a | b
  {}

  lemma SharesIsAnd(a: Methods, m: Methods)
    ensures Shares(a, m) == (a & m != 0)
  {}
}
