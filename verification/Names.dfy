/**
 The name sanitizer and the names derived from a ModelService name: the first half of
 internal/modelservice/helpers.go.
 */
module Names {
  predicate IsLower(c: char) { 'a' <= c <= 'z' }
  predicate IsDigit(c: char) { '0' <= c <= '9' }
  predicate IsUpper(c: char) { 'A' <= c <= 'Z' }
  predicate IsLetDig(c: char) { IsLower(c) || IsDigit(c) }

  /** <label> of section 2.3.1 of RFC 1035 in lower case: a letter, then letters, digits and dashes, no dash last. */
  predicate IsLabel(s: string) {
    s != "" && IsLower(s[0]) && IsLetDig(s[|s| - 1]) &&
    forall i | 0 <= i < |s| :: IsLetDig(s[i]) || s[i] == '-'
  }

  predicate HasDouble(s: string) {
    exists i | 0 <= i < |s| - 1 :: s[i] == '-' && s[i + 1] == '-'
  }

  /* ---- The pieces of the sanitizer ---- */

  /** What the first loop writes for one rune. */
  function MapRune(r: char): string {
    if IsLetDig(r) then [r]
    else if IsUpper(r) then [(r as int + 32) as char]
    else if r == '.' || r == '_' || r == '-' then "-"
    else ""
  }

  function MapRunes(s: string): (t: string)
    ensures forall i | 0 <= i < |t| :: IsLetDig(t[i]) || t[i] == '-'
  {
    if s == "" then "" else MapRunes(s[..|s| - 1]) + MapRune(s[|s| - 1])
  }

  /** strings.Trim(s, "-"). */
  function TrimDashes(s: string): (t: string)
    ensures t != "" ==> t[0] != '-' && t[|t| - 1] != '-'
    ensures forall c | c in t :: c in s
  {
    if s == "" then ""
    else if s[0] == '-' then TrimDashes(s[1..])
    else if s[|s| - 1] == '-' then TrimDashes(s[..|s| - 1])
    else s
  }

  /** strings.ReplaceAll(s, "--", "-"): left to right, without overlaps. */
  function ReplaceDoubles(s: string): string {
    if |s| < 2 then s
    else if s[0] == '-' && s[1] == '-' then "-" + ReplaceDoubles(s[2..])
    else [s[0]] + ReplaceDoubles(s[1..])
  }

  /** Every run of dashes down to one, in one pass. */
  function Collapse(s: string): string {
    if |s| < 2 then s
    else if s[0] == '-' && s[1] == '-' then Collapse(s[1..])
    else [s[0]] + Collapse(s[1..])
  }

  /* ---- The rewriting loop is one collapse ---- */

  lemma DoubleInTail(s: string)
    requires s != ""
    ensures HasDouble(s) <==> (|s| >= 2 && s[0] == '-' && s[1] == '-') || HasDouble(s[1..])
  {
    if HasDouble(s[1..]) {
      var i :| 0 <= i < |s| - 2 && s[1..][i] == '-' && s[1..][i + 1] == '-';
      assert s[i + 1] == '-' && s[i + 2] == '-';
    }
    if HasDouble(s) {
      var i :| 0 <= i < |s| - 1 && s[i] == '-' && s[i + 1] == '-';
      if i > 0 { assert s[1..][i - 1] == '-' && s[1..][i] == '-'; }
    }
  }

  lemma {:induction false} CollapseFixes(s: string)
    ensures !HasDouble(Collapse(s))
    ensures !HasDouble(s) ==> Collapse(s) == s
    ensures s != "" ==> Collapse(s) != "" && Collapse(s)[0] == s[0] && Collapse(s)[|Collapse(s)| - 1] == s[|s| - 1]
    ensures forall c | c in Collapse(s) :: c in s
  {
    if |s| >= 2 {
      CollapseFixes(s[1..]);
      DoubleInTail(s);
      var c := Collapse(s[1..]);
      if !(s[0] == '-' && s[1] == '-') {
        DoubleInTail([s[0]] + c);
        assert ([s[0]] + c)[1..] == c;
      }
    }
  }

  lemma {:induction false} ReplaceKeepsCollapse(s: string)
    ensures Collapse(ReplaceDoubles(s)) == Collapse(s)
    ensures s != "" ==> ReplaceDoubles(s) != "" && ReplaceDoubles(s)[0] == s[0]
    ensures |ReplaceDoubles(s)| <= |s| && (HasDouble(s) ==> |ReplaceDoubles(s)| < |s|)
    decreases |s|
  {
    if |s| >= 2 {
      DoubleInTail(s);
      if s[0] == '-' && s[1] == '-' {
        ReplaceKeepsCollapse(s[2..]);
        var r := ReplaceDoubles(s[2..]);
        assert ("-" + r)[1..] == r && s[1..][1..] == s[2..];
        if r != "" && r[0] == '-' {
          assert Collapse("-" + r) == Collapse(r);
        }
      } else {
        ReplaceKeepsCollapse(s[1..]);
        assert ([s[0]] + ReplaceDoubles(s[1..]))[1..] == ReplaceDoubles(s[1..]);
      }
    }
  }

  /* ---- How many passes the loop takes ---- */

  function Dashes(n: nat): string {
    seq(n, _ => '-')
  }

  /** The number of dashes `s` begins with. */
  function Lead(s: string): (n: nat)
    ensures n <= |s| && s[..n] == Dashes(n) && (n < |s| ==> s[n] != '-')
  {
    if s != "" && s[0] == '-' then 1 + Lead(s[1..]) else 0
  }

  function Max(a: nat, b: nat): nat {
    if a < b then b else a
  }

  /** The length of the longest run of dashes. */
  function LongestRun(s: string): nat
    decreases |s|
  {
    if s == "" then 0
    else if s[0] == '-' then Max(Lead(s), LongestRun(s[Lead(s)..]))
    else LongestRun(s[1..])
  }

  function CeilLog2(n: nat): nat {
    if n <= 1 then 0 else 1 + CeilLog2((n + 1) / 2)
  }

  function Pow2(n: nat): nat {
    if n == 0 then 1 else 2 * Pow2(n - 1)
  }

  /** CeilLog2(n) is the least k with n <= 2^k. */
  lemma {:induction false} CeilLog2Bounds(n: nat)
    ensures n <= Pow2(CeilLog2(n)) && (n > 1 ==> Pow2(CeilLog2(n) - 1) < n)
  {
    if n > 1 {
      CeilLog2Bounds((n + 1) / 2);
    }
  }

  /** A run of dashes in front is halved, rounding up, and the rest is replaced on its own. */
  lemma {:induction false} ReplaceRun(n: nat, t: string)
    requires t == "" || t[0] != '-'
    ensures ReplaceDoubles(Dashes(n) + t) == Dashes((n + 1) / 2) + ReplaceDoubles(t)
  {
    var s := Dashes(n) + t;
    if n == 0 {
      assert s == t;
    } else if n == 1 {
      assert s[1..] == t && Dashes(1) == "-";
    } else {
      ReplaceRun(n - 2, t);
      assert s[2..] == Dashes(n - 2) + t;
      assert "-" + Dashes((n - 1) / 2) == Dashes((n + 1) / 2);
    }
  }

  lemma {:induction false} LeadOfRun(n: nat, t: string)
    requires t == "" || t[0] != '-'
    ensures Lead(Dashes(n) + t) == n
  {
    if n == 0 {
      assert Dashes(n) + t == t;
    } else {
      LeadOfRun(n - 1, t);
      assert (Dashes(n) + t)[1..] == Dashes(n - 1) + t;
    }
  }

  lemma LongestOfRun(n: nat, t: string)
    requires t == "" || t[0] != '-'
    ensures LongestRun(Dashes(n) + t) == Max(n, LongestRun(t))
  {
    LeadOfRun(n, t);
    if n == 0 {
      assert Dashes(n) + t == t;
    } else {
      assert (Dashes(n) + t)[n..] == t;
    }
  }

  /** One pass halves the longest run, rounding up. */
  lemma {:induction false} ReplaceHalves(s: string)
    ensures LongestRun(ReplaceDoubles(s)) == (LongestRun(s) + 1) / 2
    decreases |s|
  {
    if s != "" {
      var n := Lead(s);
      var t := s[n..];
      assert s == Dashes(n) + t;
      if n > 0 {
        ReplaceHalves(t);
        ReplaceRun(n, t);
        ReplaceKeepsCollapse(t);
        LongestOfRun((n + 1) / 2, ReplaceDoubles(t));
        LongestOfRun(n, t);
      } else if |s| >= 2 {
        ReplaceHalves(s[1..]);
        assert ReplaceDoubles(s)[1..] == ReplaceDoubles(s[1..]);
      }
    }
  }

  lemma {:induction false} DoubleIsLongRun(s: string)
    ensures HasDouble(s) <==> LongestRun(s) >= 2
    decreases |s|
  {
    if s != "" {
      DoubleInTail(s);
      DoubleIsLongRun(s[1..]);
      if s[0] == '-' {
        var n := Lead(s);
        assert s == Dashes(n) + s[n..] && s[1..] == Dashes(n - 1) + s[n..];
        LongestOfRun(n, s[n..]);
        LongestOfRun(n - 1, s[n..]);
      }
    }
  }

  /** The loop of the source: it ends, equals one collapse, and runs exactly ceil(log2 L) times for longest run L. */
  method CollapseDashes(s: string) returns (t: string, passes: nat)
    ensures t == Collapse(s)
    ensures passes == CeilLog2(LongestRun(s))
    ensures LongestRun(s) <= Pow2(passes) && (passes > 0 ==> Pow2(passes - 1) < LongestRun(s))
  {
    t, passes := s, 0;
    CeilLog2Bounds(LongestRun(s));
    DoubleIsLongRun(t);
    while HasDouble(t)
      invariant Collapse(t) == Collapse(s)
      invariant passes + CeilLog2(LongestRun(t)) == CeilLog2(LongestRun(s))
      invariant HasDouble(t) <==> LongestRun(t) >= 2
      decreases |t|
    {
      ReplaceKeepsCollapse(t);
      ReplaceHalves(t);
      t := ReplaceDoubles(t);
      passes := passes + 1;
      DoubleIsLongRun(t);
    }
    CollapseFixes(t);
  }

  /* ---- The sanitizer ---- */

  /** The sanitized name before the last branch of the source. */
  function Sanitized(s: string): string {
    var t := Collapse(TrimDashes(MapRunes(s)));
    if t == "" then "modelservice" else if IsDigit(t[0]) then "m-" + t else t
  }

  /** The last branch: one trailing dash off. */
  function TrimLast(s: string): string {
    if s != "" && s[|s| - 1] == '-' then s[..|s| - 1] else s
  }

  function Sanitize(s: string): string {
    TrimLast(Sanitized(s))
  }

  /** Trimmed and collapsed, the mapped runes are let-digs and single dashes, with no dash at either end. */
  lemma TrimmedShape(s: string)
    ensures var t := Collapse(TrimDashes(MapRunes(s)));
            !HasDouble(t) && (forall i | 0 <= i < |t| :: IsLetDig(t[i]) || t[i] == '-') &&
            (t != "" ==> t[0] != '-' && t[|t| - 1] != '-')
  {
    var m := MapRunes(s);
    var u := TrimDashes(m);
    var t := Collapse(u);
    CollapseFixes(u);
    forall i | 0 <= i < |t| ensures IsLetDig(t[i]) || t[i] == '-' {
      assert t[i] in u && t[i] in m;
      var j :| 0 <= j < |m| && m[j] == t[i];
    }
  }

  lemma PrefixedShape(t: string)
    requires t != "" && t[0] != '-' && !HasDouble(t)
    ensures !HasDouble("m-" + t)
  {
    var p := "m-" + t;
    forall i | 0 <= i < |p| - 1 ensures !(p[i] == '-' && p[i + 1] == '-') {
      if i >= 2 { assert t[i - 2] == p[i] && t[i - 1] == p[i + 1]; }
    }
  }

  lemma DefaultIsLabel()
    ensures IsLabel("modelservice") && !HasDouble("modelservice")
  {
  }

  /** Every input becomes a label without double dashes, and the last branch never has anything to do. */
  lemma SanitizeIsLabel(s: string)
    ensures IsLabel(Sanitize(s)) && !HasDouble(Sanitize(s))
    ensures Sanitize(s) == Sanitized(s)
  {
    var t := Collapse(TrimDashes(MapRunes(s)));
    TrimmedShape(s);
    if t == "" {
      DefaultIsLabel();
    } else if IsDigit(t[0]) {
      PrefixedShape(t);
    }
  }

  lemma {:induction false} MapRunesKeeps(s: string)
    requires forall i | 0 <= i < |s| :: IsLetDig(s[i]) || s[i] == '-'
    ensures MapRunes(s) == s
  {
    if s != "" {
      MapRunesKeeps(s[..|s| - 1]);
    }
  }

  /** The names the sanitizer leaves alone are exactly the labels without double dashes. */
  lemma SanitizeFixpoints(s: string)
    ensures Sanitize(s) == s <==> IsLabel(s) && !HasDouble(s)
  {
    SanitizeIsLabel(s);
    if IsLabel(s) && !HasDouble(s) {
      MapRunesKeeps(s);
      CollapseFixes(s);
    }
  }

  lemma SanitizeIdempotent(s: string)
    ensures Sanitize(Sanitize(s)) == Sanitize(s)
  {
    SanitizeIsLabel(s);
    SanitizeFixpoints(Sanitize(s));
  }

  /** The source's function: one loop over the runes, one over the double dashes. */
  method SanitizeDNS1035Label(s: string) returns (r: string)
    ensures r == Sanitize(s)
    ensures IsLabel(r)
  {
    var b := "";
    for i := 0 to |s|
      invariant b == MapRunes(s[..i])
    {
      assert s[..i + 1][..i] == s[..i];
      if IsLetDig(s[i]) {
        b := b + [s[i]];
      } else if IsUpper(s[i]) {
        b := b + [(s[i] as int + 32) as char];
      } else if s[i] == '.' || s[i] == '_' || s[i] == '-' {
        b := b + "-";
      }
    }
    assert s[..|s|] == s;
    var t, _ := CollapseDashes(TrimDashes(b));
    SanitizeIsLabel(s);
    if t == "" { return "modelservice"; }
    if IsDigit(t[0]) {
      t := "m-" + t;
    }
    if |t| > 0 && t[|t| - 1] == '-' {
      t := t[..|t| - 1];
    }
    return t;
  }

  /* ---- Derived names ---- */

  function DecodeName(name: string): string { name + "-decode" }
  function PrefillName(name: string): string { name + "-prefill" }
  function InferencePoolName(name: string): string { name }
  function HTTPRouteName(name: string): string { name }
  function EPPName(name: string): string { Sanitize(name) + "-epp" }
  function EPPConfigMapName(name: string): string { EPPName(name) + "-config" }
  function EPPSecretName(name: string): string { EPPName(name) + "-sa-metrics-reader-secret" }
  function EPPServiceMonitorName(name: string): string { EPPName(name) }
  function EPPClusterRBACName(namespace: string, name: string): string { namespace + "-" + EPPName(name) }
  function PodMonitorName(name: string, role: string): string { name + "-" + role }

  lemma AppendCancels(a: string, b: string, suffix: string)
    ensures a + suffix == b + suffix <==> a == b
  {
    if a + suffix == b + suffix {
      assert |a| == |b|;
      assert a == (a + suffix)[..|a|] && b == (b + suffix)[..|b|];
    }
  }

  lemma PrependCancels(prefix: string, a: string, b: string)
    ensures prefix + a == prefix + b <==> a == b
  {
    if prefix + a == prefix + b {
      assert a == (prefix + a)[|prefix|..] && b == (prefix + b)[|prefix|..];
    }
  }

  lemma EPPNameIsLabel(name: string)
    ensures IsLabel(EPPName(name)) && !HasDouble(EPPName(name))
  {
    SanitizeIsLabel(name);
    var t := Sanitize(name);
    var e := t + "-epp";
    forall i | 0 <= i < |e| - 1 ensures !(e[i] == '-' && e[i + 1] == '-') {
      if i < |t| - 1 { assert t[i] == e[i] && t[i + 1] == e[i + 1]; }
    }
  }

  /** No service is named like its own endpoint picker, so removing the old pool never removes the pool. */
  lemma EPPNameIsNew(name: string)
    ensures EPPName(name) != name
  {
    if EPPName(name) == name {
      EPPNameIsLabel(name);
      SanitizeFixpoints(name);
    }
  }

  lemma EPPNamesAgree(a: string, b: string)
    ensures EPPName(a) == EPPName(b) <==> Sanitize(a) == Sanitize(b)
  {
    AppendCancels(Sanitize(a), Sanitize(b), "-epp");
  }

  /** Within one namespace cluster RBAC names collide exactly when the sanitized names do. */
  lemma ClusterRBACNamesAgree(namespace: string, a: string, b: string)
    ensures EPPClusterRBACName(namespace, a) == EPPClusterRBACName(namespace, b) <==> Sanitize(a) == Sanitize(b)
  {
    PrependCancels(namespace + "-", EPPName(a), EPPName(b));
    EPPNamesAgree(a, b);
  }

  /** The longer namespace goes on with a dash and what the longer name begins with. */
  predicate DashMoves(shorter: string, longName: string, longer: string, shortName: string) {
    |longer| > |shorter| + 1 && longer[..|shorter|] == shorter && longer[|shorter|] == '-' &&
    Sanitize(longName) == longer[|shorter| + 1..] + "-" + Sanitize(shortName)
  }

  /** Two services of equal cluster RBAC name: the same one up to sanitizing, or a dash apart. */
  predicate SameGrants(ns1: string, n1: string, ns2: string, n2: string) {
    (ns1 == ns2 && Sanitize(n1) == Sanitize(n2)) || DashMoves(ns1, n1, ns2, n2) || DashMoves(ns2, n2, ns1, n1)
  }

  /** With namespaces of different lengths the names agree exactly when a dash moves. */
  lemma ShorterNamespace(ns1: string, n1: string, ns2: string, n2: string)
    requires |ns1| < |ns2|
    ensures EPPClusterRBACName(ns1, n1) == EPPClusterRBACName(ns2, n2) <==> DashMoves(ns1, n1, ns2, n2)
  {
    hide Sanitize;
    var a, b := EPPClusterRBACName(ns1, n1), EPPClusterRBACName(ns2, n2);
    var k := |ns1|;
    assert a[..k] == ns1 && a[k] == '-' && a[k + 1..] == EPPName(n1);
    assert b[..k] == ns2[..k] && b[k] == ns2[k] && b[k + 1..] == ns2[k + 1..] + "-" + EPPName(n2);
    assert a == b <==> a[..k] == b[..k] && a[k] == b[k] && a[k + 1..] == b[k + 1..] by {
      if a[..k] == b[..k] && a[k] == b[k] && a[k + 1..] == b[k + 1..] {
        assert a == a[..k] + [a[k]] + a[k + 1..] && b == b[..k] + [b[k]] + b[k + 1..];
      }
    }
    var x := ns2[k + 1..];
    assert x + "-" + EPPName(n2) == (x + "-" + Sanitize(n2)) + "-epp";
    AppendCancels(Sanitize(n1), x + "-" + Sanitize(n2), "-epp");
    if x == "" { NoLeadingDash(n1, n2); }
  }

  lemma NoLeadingDash(n1: string, n2: string)
    ensures Sanitize(n1) != "" + "-" + Sanitize(n2)
  {
    hide Sanitize;
    SanitizeIsLabel(n1);
    assert ("-" + Sanitize(n2))[0] == '-' && "" + "-" + Sanitize(n2) == "-" + Sanitize(n2);
  }

  /** Exactly when two services, of whatever namespaces, share a cluster RBAC name. */
  lemma ClusterRBACNamesExactly(ns1: string, n1: string, ns2: string, n2: string)
    ensures EPPClusterRBACName(ns1, n1) == EPPClusterRBACName(ns2, n2) <==> SameGrants(ns1, n1, ns2, n2)
  {
    hide Sanitize;
    if |ns1| < |ns2| {
      ShorterNamespace(ns1, n1, ns2, n2);
    } else if |ns2| < |ns1| {
      ShorterNamespace(ns2, n2, ns1, n1);
    } else if ns1 == ns2 {
      ClusterRBACNamesAgree(ns1, n1, n2);
    } else {
      assert EPPClusterRBACName(ns1, n1)[..|ns1|] == ns1 && EPPClusterRBACName(ns2, n2)[..|ns1|] == ns2;
    }
  }

  lemma JoinedLabels(x: string, y: string)
    requires IsLabel(x) && !HasDouble(x) && IsLabel(y) && !HasDouble(y)
    ensures IsLabel(x + "-" + y) && !HasDouble(x + "-" + y)
  {
    var xy := x + "-" + y;
    forall i | 0 <= i < |xy| - 1 ensures !(xy[i] == '-' && xy[i + 1] == '-') {
      if i < |x| - 1 {
        assert x[i] == xy[i] && x[i + 1] == xy[i + 1];
      } else if i > |x| {
        assert y[i - |x| - 1] == xy[i] && y[i - |x|] == xy[i + 1];
      }
    }
  }

  /** Across namespaces they are not unique: a dash may move from the namespace to the name. */
  lemma ClusterRBACNamesCollide(namespace: string, x: string, y: string)
    requires IsLabel(x) && !HasDouble(x) && IsLabel(y) && !HasDouble(y)
    ensures EPPClusterRBACName(namespace + "-" + x, y) == EPPClusterRBACName(namespace, x + "-" + y)
  {
    hide Sanitize, IsLabel, HasDouble;
    JoinedLabels(x, y);
    SanitizeFixpoints(x + "-" + y);
    SanitizeFixpoints(y);
    assert namespace + "-" + x + "-" + (y + "-epp") == namespace + "-" + ((x + "-" + y) + "-epp");
  }

  /** The Deployments of any services never meet: a suffix tells the three kinds apart. */
  lemma DeploymentNamesDiffer(a: string, b: string)
    ensures DecodeName(a) != PrefillName(b) && DecodeName(a) != EPPName(b) && PrefillName(a) != EPPName(b)
  {
    var d, p, q, e := DecodeName(a), PrefillName(b), PrefillName(a), EPPName(b);
    assert d[|d| - 1] == 'e' && p[|p| - 1] == 'l' && q[|q| - 1] == 'l' && e[|e| - 1] == 'p';
  }
}
