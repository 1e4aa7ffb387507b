/**
 What the sanitizer does to a name that is not a label yet, as laws about its results only, and that these
 laws leave no other function.
 */
module NameLaws {
  import opened Names

  /** Runes that leave no trace in a label. */
  predicate Ignored(c: char) {
    !IsLetDig(c) && !IsUpper(c) && c != '.' && c != '_' && c != '-'
  }

  function Lower(c: char): char
    requires IsUpper(c)
  {
    (c as int + 32) as char
  }

  /** Letters, digits and single dashes, none at either end. */
  predicate Neat(s: string) {
    !HasDouble(s) && (forall i | 0 <= i < |s| :: IsLetDig(s[i]) || s[i] == '-') &&
    (s != "" ==> s[0] != '-' && s[|s| - 1] != '-')
  }

  /* ---- The laws ---- */

  predicate SeparatorLaw(f: string -> string, a: string, b: string) {
    f(a + "." + b) == f(a + "-" + b) && f(a + "_" + b) == f(a + "-" + b)
  }

  predicate CaseLaw(f: string -> string, a: string, c: char, b: string) {
    IsUpper(c) ==> f(a + [c] + b) == f(a + [Lower(c)] + b)
  }

  predicate IgnoreLaw(f: string -> string, a: string, c: char, b: string) {
    Ignored(c) ==> f(a + [c] + b) == f(a + b)
  }

  predicate TrimLaw(f: string -> string, a: string) {
    f("-" + a) == f(a) && f(a + "-") == f(a)
  }

  predicate DoubleLaw(f: string -> string, a: string, b: string) {
    f(a + "--" + b) == f(a + "-" + b)
  }

  predicate NeatLaw(f: string -> string, s: string) {
    Neat(s) ==> f(s) == if s == "" then "modelservice" else if IsDigit(s[0]) then "m-" + s else s
  }

  /** Dots and underscores are dashes; case, other runes, doubled dashes and those at the ends do not matter. */
  ghost predicate Laws(f: string -> string) {
    (forall a, b :: SeparatorLaw(f, a, b)) && (forall a, c, b :: CaseLaw(f, a, c, b)) &&
    (forall a, c, b :: IgnoreLaw(f, a, c, b)) && (forall a :: TrimLaw(f, a)) &&
    (forall a, b :: DoubleLaw(f, a, b)) && (forall s :: NeatLaw(f, s))
  }

  /* ---- The sanitizer obeys them ---- */

  lemma LastRune(s: string, c: char)
    ensures MapRunes(s + [c]) == MapRunes(s) + MapRune(c) && MapRunes("") == ""
  {
    assert (s + [c])[..|s|] == s;
  }

  lemma {:induction false} MapRunesJoin(a: string, b: string)
    ensures MapRunes(a + b) == MapRunes(a) + MapRunes(b)
    decreases |b|
  {
    hide MapRunes, MapRune, IsLetDig;
    LastRune(a, 'a');
    if b == "" {
      assert a + b == a;
    } else {
      var front, c := b[..|b| - 1], b[|b| - 1];
      assert b == front + [c] && a + b == (a + front) + [c];
      MapRunesJoin(a, front);
      LastRune(front, c);
      LastRune(a + front, c);
    }
  }

  lemma OneRune(a: string, c: char, b: string)
    ensures MapRunes(a + [c] + b) == MapRunes(a) + MapRune(c) + MapRunes(b)
  {
    MapRunesJoin(a + [c], b);
    LastRune(a, c);
  }

  lemma {:induction false} TrimSnoc(t: string)
    ensures TrimDashes(t + "-") == TrimDashes(t)
    decreases |t|
  {
    if t != "" {
      if t[0] == '-' {
        TrimSnoc(t[1..]);
        assert (t + "-")[1..] == t[1..] + "-";
      } else {
        assert (t + "-")[..|t|] == t;
      }
    }
  }

  lemma {:induction false} CollapseSnoc(t: string)
    ensures Collapse(t + "-") == if t != "" && t[|t| - 1] == '-' then Collapse(t) else Collapse(t) + "-"
    decreases |t|
  {
    if |t| == 1 {
      assert (t + "-")[1..] == "-";
    } else if |t| > 1 {
      CollapseSnoc(t[1..]);
      assert (t + "-")[1..] == t[1..] + "-";
    }
  }

  lemma {:induction false} TrimCollapse(s: string)
    ensures TrimDashes(Collapse(s)) == Collapse(TrimDashes(s))
    decreases |s|
  {
    if s != "" {
      CollapseFixes(s);
      var c := Collapse(s);
      if s[0] == '-' {
        TrimCollapse(s[1..]);
        if |s| > 1 && s[1] != '-' { assert c[1..] == Collapse(s[1..]); }
      } else if s[|s| - 1] == '-' {
        var t := s[..|s| - 1];
        assert s == t + "-";
        TrimCollapse(t);
        CollapseSnoc(t);
        TrimSnoc(Collapse(t));
      }
    }
  }

  lemma {:induction false} CollapseDouble(x: string, y: string)
    ensures Collapse(x + "--" + y) == Collapse(x + "-" + y)
    decreases |x|
  {
    var long, short := x + "--" + y, x + "-" + y;
    if x == "" {
      assert long[1..] == short;
    } else {
      CollapseDouble(x[1..], y);
      assert long[1..] == x[1..] + "--" + y && short[1..] == x[1..] + "-" + y;
      assert long[1] == short[1];
    }
  }

  /** The sanitizer goes by the mapped, trimmed and collapsed runes, in either order. */
  lemma SameCore(s: string, t: string)
    requires Collapse(TrimDashes(MapRunes(s))) == Collapse(TrimDashes(MapRunes(t)))
    ensures Sanitize(s) == Sanitize(t)
  {
  }

  lemma SameRunes(a: string, c: char, d: char, b: string)
    requires MapRune(c) == MapRune(d)
    ensures Sanitize(a + [c] + b) == Sanitize(a + [d] + b)
  {
    hide Sanitize, Collapse, TrimDashes, MapRunes, MapRune;
    OneRune(a, c, b);
    OneRune(a, d, b);
    SameCore(a + [c] + b, a + [d] + b);
  }

  lemma NoRune(a: string, c: char, b: string)
    requires MapRune(c) == ""
    ensures Sanitize(a + [c] + b) == Sanitize(a + b)
  {
    hide Sanitize, Collapse, TrimDashes, MapRunes, MapRune;
    OneRune(a, c, b);
    MapRunesJoin(a, b);
    assert MapRunes(a) + "" + MapRunes(b) == MapRunes(a) + MapRunes(b);
    SameCore(a + [c] + b, a + b);
  }

  lemma SeparatorsAndRunes(a: string, c: char, b: string)
    ensures SeparatorLaw(Sanitize, a, b) && CaseLaw(Sanitize, a, c, b) && IgnoreLaw(Sanitize, a, c, b)
  {
    hide Sanitize;
    SameRunes(a, '.', '-', b);
    SameRunes(a, '_', '-', b);
    if IsUpper(c) { SameRunes(a, c, Lower(c), b); }
    if Ignored(c) { NoRune(a, c, b); }
  }

  lemma DashesAtEnds(a: string)
    ensures TrimLaw(Sanitize, a)
  {
    var m := MapRunes(a);
    DashFirst(a);
    MapRunesJoin(a, "-");
    DashFirst("");
    assert "-" + "" == "-" && MapRunes("") == "";
    assert ("-" + m)[1..] == m;
    TrimSnoc(m);
    SameCore("-" + a, a);
    SameCore(a + "-", a);
  }

  lemma DashFirst(b: string)
    ensures MapRunes("-" + b) == "-" + MapRunes(b)
  {
    MapRunesJoin("-", b);
    LastRune("", '-');
    assert "" + "-" == "-";
  }

  lemma MappedDoubles(a: string, b: string)
    ensures MapRunes(a + "--" + b) == MapRunes(a) + "--" + MapRunes(b)
    ensures MapRunes(a + "-" + b) == MapRunes(a) + "-" + MapRunes(b)
  {
    hide MapRunes;
    DashFirst(b);
    DashFirst("-" + b);
    MapRunesJoin(a, "-" + b);
    MapRunesJoin(a, "-" + ("-" + b));
    assert a + ("-" + b) == a + "-" + b && a + ("-" + ("-" + b)) == a + "--" + b;
  }

  lemma DashesInside(a: string, b: string)
    ensures DoubleLaw(Sanitize, a, b)
  {
    hide Sanitize, Collapse, TrimDashes, MapRunes;
    var x, y := MapRunes(a), MapRunes(b);
    MappedDoubles(a, b);
    CollapseDouble(x, y);
    TrimCollapse(x + "--" + y);
    TrimCollapse(x + "-" + y);
    SameCore(a + "--" + b, a + "-" + b);
  }

  lemma NeatNames(s: string)
    ensures NeatLaw(Sanitize, s)
  {
    if Neat(s) {
      MapRunesKeeps(s);
      CollapseFixes(s);
      SanitizeIsLabel(s);
    }
  }

  /** The sanitizer keeps the laws for every input. */
  lemma SanitizeObeys()
    ensures Laws(Sanitize)
  {
    hide SeparatorLaw, CaseLaw, IgnoreLaw, TrimLaw, DoubleLaw, NeatLaw;
    forall a, b ensures SeparatorLaw(Sanitize, a, b) && DoubleLaw(Sanitize, a, b) {
      SeparatorsAndRunes(a, '-', b);
      DashesInside(a, b);
    }
    forall a, c, b ensures CaseLaw(Sanitize, a, c, b) && IgnoreLaw(Sanitize, a, c, b) {
      SeparatorsAndRunes(a, c, b);
    }
    forall a ensures TrimLaw(Sanitize, a) && NeatLaw(Sanitize, a) {
      DashesAtEnds(a);
      NeatNames(a);
    }
  }

  /* ---- And nothing else does ---- */

  lemma {:induction false} MapsBefore(f: string -> string, p: string, q: string)
    requires Laws(f)
    ensures f(p + q) == f(MapRunes(p) + q)
    decreases |p|
  {
    hide MapRunes, MapRune, Laws;
    LastRune("", 'a');
    if p == "" {
      assert "" + q == q;
    } else {
      var front, c := p[..|p| - 1], p[|p| - 1];
      var r := MapRune(c);
      assert p == front + [c];
      LastRune(front, c);
      MapsOne(f, front, c, q);
      MapsBefore(f, front, r + q);
      assert front + (r + q) == front + r + q && MapRunes(front) + (r + q) == MapRunes(p) + q;
    }
  }

  lemma MapsOne(f: string -> string, a: string, c: char, b: string)
    requires Laws(f)
    ensures f(a + [c] + b) == f(a + MapRune(c) + b)
  {
    assert SeparatorLaw(f, a, b) && CaseLaw(f, a, c, b) && IgnoreLaw(f, a, c, b);
    assert a + "" + b == a + b;
  }

  lemma {:induction false} Trims(f: string -> string, t: string)
    requires Laws(f)
    ensures f(t) == f(TrimDashes(t))
    decreases |t|
  {
    if t != "" {
      if t[0] == '-' {
        assert TrimLaw(f, t[1..]) && t == "-" + t[1..];
        Trims(f, t[1..]);
      } else if t[|t| - 1] == '-' {
        assert TrimLaw(f, t[..|t| - 1]) && t == t[..|t| - 1] + "-";
        Trims(f, t[..|t| - 1]);
      }
    }
  }

  lemma DropsOne(f: string -> string, p: string, t: string)
    requires Laws(f) && |t| >= 2 && t[0] == '-' && t[1] == '-'
    ensures f(p + t) == f(p + t[1..])
  {
    assert DoubleLaw(f, p, t[2..]);
    assert p + t == p + "--" + t[2..] && p + t[1..] == p + "-" + t[2..];
  }

  lemma Regroup(a: string, b: string, c: string)
    ensures a + (b + c) == a + b + c
  {
  }

  lemma {:induction false} Collapses(f: string -> string, p: string, t: string)
    requires Laws(f)
    ensures f(p + t) == f(p + Collapse(t))
    decreases |t|
  {
    hide Laws;
    if |t| >= 2 {
      var rest := t[1..];
      if t[0] == '-' && t[1] == '-' {
        DropsOne(f, p, t);
        Collapses(f, p, rest);
      } else {
        var c := [t[0]];
        Collapses(f, p + c, rest);
        assert Collapse(t) == c + Collapse(rest) && t == c + rest;
        Regroup(p, c, rest);
        Regroup(p, c, Collapse(rest));
      }
    }
  }

  /** A function that obeys the laws is the sanitizer: they determine what becomes of every name. */
  lemma LawsDetermine(f: string -> string, s: string)
    requires Laws(f)
    ensures f(s) == Sanitize(s)
  {
    var m := MapRunes(s);
    var t := TrimDashes(m);
    MapsBefore(f, s, "");
    assert s + "" == s && m + "" == m;
    Trims(f, m);
    Collapses(f, "", t);
    assert "" + t == t && "" + Collapse(t) == Collapse(t);
    TrimmedShape(s);
    SanitizeIsLabel(s);
    assert NeatLaw(f, Collapse(t));
  }
}
