/** What a translation may do to rendered text: keep a unit, drop a copy unit, or write one sign for one copy sign
    (commonmark.ts:8-50). */
module Edits {
  import opened Utf16
  import opened Emphasis

  const BULLET_SIGN: Code := 0x2022
  const BAR_SIGN: Code := 0x2502
  const BRACKET: Code := 0x5d

  datatype Choice = Keep | Drop | Write(sign: Code)

  function Flat(us: seq<Unit>): Text {
    if us == [] then [] else Flat(us[..|us| - 1]) + us[|us| - 1].text
  }

  predicate Allowed(u: Unit, c: Choice) {
    match c
    case Keep => true
    case Drop => !u.atom
    case Write(w) =>
      !u.atom && |u.text| == 1 &&
      (|| (w == BULLET_SIGN && u.text[0] in {0x2d, STAR, 0x2b})
       || (w == BAR_SIGN && u.text[0] == 0x3e)
       || (w == SPACE && u.text[0] in {BRACKET, TAB}))
  }

  function One(u: Unit, c: Choice): seq<Unit> {
    match c
    case Keep => [u]
    case Drop => []
    case Write(w) => [Unit([w], false)]
  }

  function Applied(us: seq<Unit>, cs: seq<Choice>): seq<Unit>
    requires |us| == |cs|
  {
    if us == [] then [] else Applied(us[..|us| - 1], cs[..|us| - 1]) + One(us[|us| - 1], cs[|us| - 1])
  }

  ghost predicate AllAllowed(us: seq<Unit>, cs: seq<Choice>) {
    |us| == |cs| && forall k :: 0 <= k < |us| ==> Allowed(us[k], cs[k])
  }

  /** `vs` comes from `us` by one allowed choice per unit. */
  ghost predicate Edited(us: seq<Unit>, vs: seq<Unit>) {
    exists cs :: AllAllowed(us, cs) && Applied(us, cs) == vs
  }

  lemma {:induction false} AppliedAppend(a: seq<Unit>, ca: seq<Choice>, b: seq<Unit>, cb: seq<Choice>)
    requires |a| == |ca| && |b| == |cb|
    ensures Applied(a + b, ca + cb) == Applied(a, ca) + Applied(b, cb)
    decreases |b|
  {
    if b == [] {
      assert a + b == a && ca + cb == ca;
    } else {
      var n := |b| - 1;
      assert (a + b)[..|a + b| - 1] == a + b[..n] && (ca + cb)[..|a + b| - 1] == ca + cb[..n];
      AppliedAppend(a, ca, b[..n], cb[..n]);
    }
  }

  lemma Keeps(us: seq<Unit>)
    ensures Edited(us, us)
  {
    var cs := seq(|us|, _ => Keep);
    AppliedKeep(us, cs);
    assert AllAllowed(us, cs);
  }

  lemma {:induction false} AppliedKeep(us: seq<Unit>, cs: seq<Choice>)
    requires |us| == |cs| && forall k :: 0 <= k < |cs| ==> cs[k] == Keep
    ensures Applied(us, cs) == us
  {
    if us != [] {
      AppliedKeep(us[..|us| - 1], cs[..|us| - 1]);
    }
  }

  /** Copy may be dropped altogether. */
  lemma Drops(us: seq<Unit>)
    requires forall u <- us :: !u.atom
    ensures Edited(us, [])
  {
    var cs := seq(|us|, _ => Drop);
    AppliedDrop(us, cs);
    assert AllAllowed(us, cs);
  }

  lemma {:induction false} AppliedDrop(us: seq<Unit>, cs: seq<Choice>)
    requires |us| == |cs| && forall k :: 0 <= k < |cs| ==> cs[k] == Drop
    ensures Applied(us, cs) == []
  {
    if us != [] {
      AppliedDrop(us[..|us| - 1], cs[..|us| - 1]);
    }
  }

  lemma Writes(u: Unit, w: Code)
    requires Allowed(u, Write(w))
    ensures Edited([u], [Unit([w], false)])
  {
    var us, cs := [u], [Write(w)];
    assert us[..0] == [] && cs[..0] == [];
    assert Applied(us, cs) == One(u, Write(w));
    assert AllAllowed(us, cs);
  }

  lemma AllowedAppend(a: seq<Unit>, ca: seq<Choice>, b: seq<Unit>, cb: seq<Choice>)
    requires AllAllowed(a, ca) && AllAllowed(b, cb)
    ensures |a| == |ca| && |b| == |cb| && AllAllowed(a + b, ca + cb)
  {
    hide Allowed;
  }

  lemma Joins(a: seq<Unit>, va: seq<Unit>, b: seq<Unit>, vb: seq<Unit>)
    requires Edited(a, va) && Edited(b, vb)
    ensures Edited(a + b, va + vb)
  {
    hide Applied, Allowed;
    var ca :| AllAllowed(a, ca) && Applied(a, ca) == va;
    var cb :| AllAllowed(b, cb) && Applied(b, cb) == vb;
    AllowedAppend(a, ca, b, cb);
    AppliedAppend(a, ca, b, cb);
  }

  /** Two allowed choices in a row are one allowed choice: no written sign may be written over. */
  lemma {:induction false} Composed(us: seq<Unit>, cs: seq<Choice>, ds: seq<Choice>) returns (es: seq<Choice>)
    requires AllAllowed(us, cs) && AllAllowed(Applied(us, cs), ds)
    ensures AllAllowed(us, es) && Applied(us, es) == Applied(Applied(us, cs), ds)
    decreases |us|
  {
    hide Applied, Allowed, One;
    if us == [] {
      es := [];
      AppliedNone();
    } else {
      var n := |us| - 1;
      var vs := Applied(us, cs);
      var front := Applied(us[..n], cs[..n]);
      AppliedLast(us, cs);
      OneIs(us[n], cs[n]);
      if cs[n] == Drop {
        Regroup0(front);
        var rest := Composed(us[..n], cs[..n], ds);
        es := rest + [Drop];
        ComposedStep(us, es);
        AppliedLast(us, es);
        Regroup0(Applied(us[..n], rest));
      } else {
        var m := |vs| - 1;
        assert vs[..m] == front && One(us[n], cs[n]) == [vs[m]];
        var rest := Composed(us[..n], cs[..n], ds[..m]);
        var e := if ds[m] == Keep then cs[n] else ds[m];
        es := rest + [e];
        ComposeOne(us[n], cs[n], vs[m], ds[m]);
        ComposedStep(us, es);
        AppliedLast(us, es);
        AppliedLast(vs, ds);
      }
    }
  }

  lemma AppliedNone()
    ensures Applied([], []) == []
  {
  }

  lemma AppliedLast(us: seq<Unit>, cs: seq<Choice>)
    requires |us| == |cs| > 0
    ensures Applied(us, cs) == Applied(us[..|us| - 1], cs[..|us| - 1]) + One(us[|us| - 1], cs[|us| - 1])
  {
    hide One;
  }

  lemma OneIs(u: Unit, c: Choice)
    ensures One(u, c) == if c == Drop then [] else [One(u, c)[0]]
  {
  }

  lemma ComposeOne(u: Unit, c: Choice, v: Unit, d: Choice)
    requires One(u, c) == [v] && Allowed(u, c) && Allowed(v, d)
    ensures var e := if d == Keep then c else d; Allowed(u, e) && One(u, e) == One(v, d)
  {
  }

  lemma ComposedStep(us: seq<Unit>, es: seq<Choice>)
    requires us != [] && |us| == |es| && AllAllowed(us[..|us| - 1], es[..|us| - 1]) && Allowed(us[|us| - 1], es[|us| - 1])
    ensures AllAllowed(us, es)
  {
    hide Allowed;
    forall k | 0 <= k < |us| ensures Allowed(us[k], es[k]) {
      if k < |us| - 1 {
        assert Allowed(us[..|us| - 1][k], es[..|us| - 1][k]);
      }
    }
  }

  lemma Composes(us: seq<Unit>, vs: seq<Unit>, ws: seq<Unit>)
    requires Edited(us, vs) && Edited(vs, ws)
    ensures Edited(us, ws)
  {
    var cs :| AllAllowed(us, cs) && Applied(us, cs) == vs;
    var ds :| AllAllowed(vs, ds) && Applied(vs, ds) == ws;
    var es := Composed(us, cs, ds);
  }

  // ---------- What an edit keeps ----------

  /** The opaque spans, in order. */
  function Atoms(us: seq<Unit>): seq<Text> {
    if us == [] then []
    else Atoms(us[..|us| - 1]) + (if us[|us| - 1].atom then [us[|us| - 1].text] else [])
  }

  lemma {:induction false} AtomsAppend(a: seq<Unit>, b: seq<Unit>)
    ensures Atoms(a + b) == Atoms(a) + Atoms(b)
    decreases |b|
  {
    if b == [] {
      assert a + b == a;
    } else {
      assert (a + b)[..|a + b| - 1] == a + b[..|b| - 1];
      AtomsAppend(a, b[..|b| - 1]);
    }
  }

  lemma {:induction false} FlatAppend(a: seq<Unit>, b: seq<Unit>)
    ensures Flat(a + b) == Flat(a) + Flat(b)
    decreases |b|
  {
    if b == [] {
      assert a + b == a;
    } else {
      assert (a + b)[..|a + b| - 1] == a + b[..|b| - 1];
      FlatAppend(a, b[..|b| - 1]);
    }
  }

  /** The number of code points of a string (the length of `Array.from`). */
  function Points(t: Text): nat {
    if t == [] then 0
    else if |t| >= 2 && HighSurrogate(t[0]) && LowSurrogate(t[1]) then 1 + Points(t[2..])
    else 1 + Points(t[1..])
  }

  predicate Open(t: Text) {
    t != [] && HighSurrogate(t[|t| - 1])
  }

  predicate StartsLow(t: Text) {
    t != [] && LowSurrogate(t[0])
  }

  lemma {:induction false} PointsAppend(a: Text, b: Text)
    ensures Points(a + b) == Points(a) + Points(b) - (if Open(a) && StartsLow(b) then 1 else 0)
    decreases |a|
  {
    if a == [] {
      assert a + b == b;
    } else if |a| >= 2 && HighSurrogate(a[0]) && LowSurrogate(a[1]) {
      assert (a + b)[2..] == a[2..] + b;
      PointsAppend(a[2..], b);
    } else {
      assert (a + b)[1..] == a[1..] + b;
      PointsAppend(a[1..], b);
      if |a| == 1 && Open(a) && StartsLow(b) {
        assert (a + b)[2..] == b[1..];
      }
    }
  }

  /** The code points of `t` that a following low surrogate cannot join. */
  function Settled(t: Text): int {
    Points(t) - if Open(t) then 1 else 0
  }

  ghost predicate NoLonger(short: Text, long: Text) {
    |short| <= |long| && Points(short) <= Points(long) && Settled(short) <= Settled(long)
  }

  lemma PointsPositive(t: Text)
    ensures t != [] ==> Points(t) > 0
  {
  }

  lemma NoLongerKeep(a: Text, b: Text, t: Text)
    requires NoLonger(a, b)
    ensures NoLonger(a + t, b + t)
  {
    PointsAppend(a, t);
    PointsAppend(b, t);
    if t == [] {
      assert a + t == a && b + t == b;
    }
  }

  lemma NoLongerDrop(a: Text, b: Text, t: Text)
    requires NoLonger(a, b)
    ensures NoLonger(a, b + t)
  {
    PointsAppend(b, t);
    PointsPositive(t);
    if t == [] {
      assert b + t == b;
    }
  }

  lemma NoLongerWrite(a: Text, b: Text, w: Code, c: Code)
    requires NoLonger(a, b)
    requires !HighSurrogate(w) && !LowSurrogate(w) && !HighSurrogate(c) && !LowSurrogate(c)
    ensures NoLonger(a + [w], b + [c])
  {
    PointsAppend(a, [w]);
    PointsAppend(b, [c]);
  }

  lemma {:induction false} AppliedKeeps(us: seq<Unit>, cs: seq<Choice>)
    requires AllAllowed(us, cs)
    ensures Atoms(Applied(us, cs)) == Atoms(us)
    ensures NoLonger(Flat(Applied(us, cs)), Flat(us))
  {
    if us != [] {
      var n := |us| - 1;
      var front, one := Applied(us[..n], cs[..n]), One(us[n], cs[n]);
      AppliedKeeps(us[..n], cs[..n]);
      AtomsAppend(front, one);
      FlatAppend(front, one);
      assert Allowed(us[n], cs[n]);
      LastChoice(us[n], cs[n]);
      match cs[n] {
        case Keep => NoLongerKeep(Flat(front), Flat(us[..n]), us[n].text);
        case Drop =>
          NoLongerDrop(Flat(front), Flat(us[..n]), us[n].text);
          assert Flat(front) + [] == Flat(front);
        case Write(w) =>
          assert us[n].text == [us[n].text[0]];
          NoLongerWrite(Flat(front), Flat(us[..n]), w, us[n].text[0]);
      }
    }
  }

  lemma LastChoice(u: Unit, c: Choice)
    requires Allowed(u, c)
    ensures Flat(One(u, c)) == match c { case Keep => u.text case Drop => [] case Write(w) => [w] }
    ensures Atoms(One(u, c)) == if u.atom then [u.text] else []
  {
    var one := One(u, c);
    if one != [] {
      assert one[..|one| - 1] == [];
    }
  }

  /** An edit keeps every opaque span, in order, and never makes the text longer, in UTF-16 units or in code points. */
  lemma EditKeeps(us: seq<Unit>, vs: seq<Unit>)
    requires Edited(us, vs)
    ensures Atoms(vs) == Atoms(us)
    ensures |Flat(vs)| <= |Flat(us)| && Points(Flat(vs)) <= Points(Flat(us))
  {
    var cs :| AllAllowed(us, cs) && Applied(us, cs) == vs;
    AppliedKeeps(us, cs);
  }
}
