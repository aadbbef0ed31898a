/** The layer prefixes of create/create.go, and the names they make expert weights. */
module LayerNames {
  import opened Results
  import opened Strings
  import opened PlanNames

  const LEADS := [
    "", "model.language_model.backbone.", "model.language_model.", "language_model.", "language_model.model.",
    "language_model.backbone.", "model.", "backbone.", "mtp."]

  predicate Numbered(start: string, s: string) {
    start < s && forall k | |start| <= k < |s| :: IsDigit(s[k])
  }

  /** What the regular expression matches: a lead, "layers." and a number. */
  predicate LayerPrefix(s: string) {
    exists k | 0 <= k < |LEADS| :: Numbered(LEADS[k] + "layers.", s)
  }

  /** name is a weight of group gp: gp is a layer prefix and a marker, and behind it
      come a number and more. */
  ghost predicate InGroup(name: string, gp: string) {
    HasSuffix(name, WEIGHT) && Marked(name, gp) && exists number, rest :: Expert(name, gp, number, rest)
  }

  ghost predicate Marked(name: string, gp: string) {
    gp + "." <= name && exists p, k | 0 <= k < |MARKERS| :: LayerPrefix(p) && gp == p + MARKERS[k]
  }

  predicate Expert(name: string, gp: string, number: string, rest: string) {
    name == (gp + ".") + (number + "." + rest) && '.' !in number && Atoi(number).Some?
  }

  // ---- Only such names have a group ---------------------------------------

  lemma {:induction false} GroupPrefixOnly(name: string, n: nat)
    requires n <= |MARKERS|
    ensures var gp := GroupPrefix(LayerPrefix, name, MARKERS[n..]);
            gp.Some? ==> Marked(name, gp.value)
    decreases |MARKERS| - n
  {
    hide LayerPrefix;
    if n < |MARKERS| {
      var i := Index(name, MARKERS[n] + ".", 0);
      assert MARKERS[n..][0] == MARKERS[n] && MARKERS[n..][1..] == MARKERS[n + 1..];
      if i.Some? && LayerPrefix(name[..i.value]) {
        assert name == name[..i.value] + name[i.value..];
        assert name[..i.value] + (MARKERS[n] + ".") == (name[..i.value] + MARKERS[n]) + ".";
      } else {
        GroupPrefixOnly(name, n + 1);
      }
    }
  }

  lemma {:induction false} CutNumber(s: string)
    ensures Cut(s).Some? ==> '.' !in Cut(s).value.0
  {
    if s != "" && s[0] != '.' { CutNumber(s[1..]); }
  }

  lemma GroupOnly(name: string, gp: string)
    requires PerExpertGroup(LayerPrefix, name) == Some(gp)
    ensures InGroup(name, gp)
  {
    hide LayerPrefix, GroupPrefix, Marked, Atoi, Cut, HasSuffix;
    assert MARKERS[0..] == MARKERS;
    GroupPrefixOnly(name, 0);
    assert GroupPrefix(LayerPrefix, name, MARKERS) == Some(gp);
    var rest := CutPrefix(name, gp + ".").value;
    CutIs(rest);
    CutNumber(rest);
    var parts := Cut(rest).value;
    assert name == (gp + ".") + rest;
    assert Expert(name, gp, parts.0, parts.1);
  }

  // ---- A name has one layer prefix, before the first marker ----------------

  /** No digit at i, and no dot there that a marker could start with. */
  predicate FineAt(s: string, i: nat)
    requires i < |s|
  {
    !IsDigit(s[i]) && (s[i] == '.' && i + 1 < |s| && s[i + 1] == 'm' ==>
      i + 3 < |s| && s[i + 2] == 'o' && s[i + 3] == 'd')
  }

  predicate Fine(s: string) { forall i | 0 <= i < |s| :: FineAt(s, i) }

  lemma FineShort()
    ensures Fine("layers.") && Fine("model.layers.") && Fine("backbone.layers.") && Fine("mtp.layers.")
  {}

  lemma FineModel()
    ensures Fine("language_model.layers.") && Fine("language_model.model.layers.")
  {}

  lemma FineLanguage()
    ensures Fine("model.language_model.layers.") && Fine("language_model.backbone.layers.")
  {}

  lemma FineLong()
    ensures Fine("model.language_model.backbone.layers.")
  {}

  lemma ShortStarts()
    ensures LEADS[0] + "layers." == "layers." && LEADS[6] + "layers." == "model.layers."
    ensures LEADS[7] + "layers." == "backbone.layers." && LEADS[8] + "layers." == "mtp.layers."
  {}

  lemma LongStarts()
    ensures LEADS[3] + "layers." == "language_model.layers." && LEADS[4] + "layers." == "language_model.model.layers."
    ensures LEADS[2] + "layers." == "model.language_model.layers."
    ensures LEADS[5] + "layers." == "language_model.backbone.layers."
    ensures LEADS[1] + "layers." == "model.language_model.backbone.layers."
  {}

  lemma FineLead(k: nat)
    requires k < |LEADS|
    ensures Fine(LEADS[k] + "layers.")
  {
    hide Fine;
    ShortStarts();
    LongStarts();
    FineShort();
    FineModel();
    FineLanguage();
    FineLong();
  }

  lemma StartOf(p: string) returns (start: string)
    requires LayerPrefix(p)
    ensures Numbered(start, p) && Fine(start) && start != ""
  {
    var k :| 0 <= k < |LEADS| && Numbered(LEADS[k] + "layers.", p);
    start := LEADS[k] + "layers.";
    FineLead(k);
    hide Fine, Numbered;
  }

  /** No dot of s stands behind a digit. */
  predicate Quiet(s: string) { forall i | 0 < i < |s| && s[i] == '.' :: !IsDigit(s[i - 1]) }

  lemma LayerIsQuiet(p: string)
    requires LayerPrefix(p)
    ensures p != "" && IsDigit(p[|p| - 1]) && Quiet(p)
  {
    var start := StartOf(p);
    hide LayerPrefix;
    forall i | 0 < i < |p| && p[i] == '.' ensures !IsDigit(p[i - 1]) {
      assert FineAt(start, i - 1);
    }
  }

  lemma NotQuiet(p: string, q: string)
    requires p != "" && IsDigit(p[|p| - 1]) && p + "." <= q
    ensures !Quiet(q)
  {
    assert q[|p|] == '.' && q[|p| - 1] == p[|p| - 1];
  }

  /** A layer prefix ends before the first dot that stands behind a digit. */
  lemma OnePrefix(p: string, q: string, name: string)
    requires LayerPrefix(p) && LayerPrefix(q) && p + "." <= name && q + "." <= name
    ensures |p| >= |q|
  {
    hide LayerPrefix, Quiet;
    LayerIsQuiet(p);
    if |p| < |q| {
      assert p + "." <= q by { assert name[|p|] == '.' && q == name[..|q|]; }
      NotQuiet(p, q);
      LayerIsQuiet(q);
    }
  }

  lemma MarkerStarts(k: nat)
    requires k < |MARKERS|
    ensures var m := MARKERS[k]; |m| >= 8 && m[0] == '.' && m[1] == 'm' && !(m[2] == 'o' && m[3] == 'd')
    ensures Head(k) == MARKERS[k][..8]
  {}

  function Head(k: nat): string
    requires k < |MARKERS|
  {
    [".mlp.exp", ".mlp.sha", ".mlp.swi", ".moe.exp", ".mixer.e", ".mixer.s"][k]
  }

  predicate MarkerAt(s: string, i: nat) {
    i + 3 < |s| && s[i] == '.' && s[i + 1] == 'm' && !(s[i + 2] == 'o' && s[i + 3] == 'd')
  }

  lemma NoMarkerIn(p: string, name: string, i: nat)
    requires LayerPrefix(p) && p <= name && i < |p|
    ensures !MarkerAt(name, i)
  {
    var start := StartOf(p);
    hide LayerPrefix;
    assert name[i] == p[i];
    if i < |start| {
      assert FineAt(start, i);
      if i + 1 < |start| {
        assert forall k | 0 <= k < |start| :: name[k] == start[k];
      } else {
        assert IsDigit(p[i + 1]) && name[i + 1] == p[i + 1];
      }
    }
  }

  /** No marker occurs earlier than behind the layer prefix. */
  lemma NotBefore(p: string, k: nat, name: string, i: nat)
    requires LayerPrefix(p) && k < |MARKERS| && p + "." <= name && OccursAt(name, MARKERS[k] + ".", i)
    ensures i >= |p|
  {
    hide LayerPrefix;
    MarkerStarts(k);
    var m := MARKERS[k] + ".";
    assert forall j | 0 <= j < |m| :: name[i + j] == name[i..][j] == m[j];
    assert MarkerAt(name, i);
    if i < |p| { NoMarkerIn(p, name, i); }
  }

  lemma OneMarker(j: nat, k: nat, s: string)
    requires j < |MARKERS| && k < |MARKERS| && MARKERS[j] <= s && MARKERS[k] <= s
    ensures j == k
  {
    MarkerStarts(j);
    MarkerStarts(k);
    assert s[..8] == Head(j) == Head(k);
    Prefixes8(j, k);
  }

  lemma Prefixes8(j: nat, k: nat)
    requires j < |MARKERS| && k < |MARKERS| && Head(j) == Head(k)
    ensures j == k
  {
    assert Head(j)[5] == Head(k)[5] && Head(j)[6] == Head(k)[6] && Head(j)[7] == Head(k)[7] && Head(j)[3] == Head(k)[3];
  }

  lemma Behind(name: string, p: string, k: nat)
    requires k < |MARKERS| && (p + MARKERS[k]) + "." <= name
    ensures OccursAt(name, MARKERS[k] + ".", |p|) && p + "." <= name && MARKERS[k] <= name[|p|..]
  {
    MarkerStarts(k);
    assert (p + MARKERS[k]) + "." == p + (MARKERS[k] + ".");
    assert name[|p|..][..|MARKERS[k]| + 1] == MARKERS[k] + ".";
    assert MARKERS[k] + "." == "." + (MARKERS[k] + ".")[1..];
  }

  lemma {:induction false} GroupPrefixFinds(name: string, p: string, k: nat, n: nat)
    requires n <= k < |MARKERS| && LayerPrefix(p) && (p + MARKERS[k]) + "." <= name
    ensures GroupPrefix(LayerPrefix, name, MARKERS[n..]) == Some(p + MARKERS[k])
    decreases k - n
  {
    hide LayerPrefix;
    assert MARKERS[n..][0] == MARKERS[n] && MARKERS[n..][1..] == MARKERS[n + 1..];
    Behind(name, p, k);
    var i := Index(name, MARKERS[n] + ".", 0);
    if n == k {
      NotBefore(p, k, name, i.value);
      assert i == Some(|p|) && name[..|p|] == p;
    } else {
      if i.Some? && LayerPrefix(name[..i.value]) {
        SamePlace(name, p, k, n, i.value);
      }
      GroupPrefixFinds(name, p, k, n + 1);
    }
  }

  lemma SamePlace(name: string, p: string, k: nat, n: nat, i: nat)
    requires n < |MARKERS| && k < |MARKERS| && LayerPrefix(p) && (p + MARKERS[k]) + "." <= name
    requires OccursAt(name, MARKERS[n] + ".", i) && LayerPrefix(name[..i])
    ensures n == k
  {
    hide LayerPrefix;
    Behind(name, p, k);
    var q := name[..i];
    assert name == q + name[i..] && (q + MARKERS[n]) + "." == q + (MARKERS[n] + ".");
    Behind(name, q, n);
    OnePrefix(p, q, name);
    OnePrefix(q, p, name);
    OneMarker(k, n, name[|p|..]);
  }

  lemma GroupFinds(name: string, gp: string)
    requires InGroup(name, gp)
    ensures PerExpertGroup(LayerPrefix, name) == Some(gp)
  {
    hide LayerPrefix, GroupPrefix, Atoi, Cut, HasSuffix;
    var p, k :| 0 <= k < |MARKERS| && LayerPrefix(p) && gp == p + MARKERS[k];
    assert MARKERS[0..] == MARKERS;
    GroupPrefixFinds(name, p, k, 0);
    var number, rest :| Expert(name, gp, number, rest);
    assert CutPrefix(name, gp + ".") == Some(number + "." + rest);
    CutAt(number, rest);
  }

  /** A name belongs to a group exactly if it is the group's layer prefix and marker, a
      number and more, up to .weight. So no name belongs to two groups. */
  lemma PerExpertGroupIs(name: string, gp: string)
    ensures PerExpertGroup(LayerPrefix, name) == Some(gp) <==> InGroup(name, gp)
  {
    hide PerExpertGroup, InGroup;
    if PerExpertGroup(LayerPrefix, name) == Some(gp) { GroupOnly(name, gp); }
    if InGroup(name, gp) { GroupFinds(name, gp); }
  }
}
