/** Tensor names in create/plan.go and ExpertGroupPrefix of create/create.go: the
    expert group a name belongs to, and the expert index and projection it names. */
module PlanNames {
  import opened Results
  import opened Strings
  import KeyOrder

  // ---- String helpers -----------------------------------------------------

  function CutPrefix(s: string, prefix: string): Option<string> {
    if prefix <= s then Some(s[|prefix|..]) else None
  }

  predicate HasSuffix(s: string, suffix: string) {
    |suffix| <= |s| && s[|s| - |suffix|..] == suffix
  }

  function CutSuffix(s: string, suffix: string): Option<string> {
    if HasSuffix(s, suffix) then Some(s[..|s| - |suffix|]) else None
  }

  /** What comes before and after the first dot. */
  function Cut(s: string): Option<(string, string)> {
    if s == "" then None
    else if s[0] == '.' then Some(("", s[1..]))
    else match Cut(s[1..])
      case None => None
      case Some(parts) => Some(([s[0]] + parts.0, parts.1))
  }

  // ---- Decimal numbers ----------------------------------------------------

  predicate IsDigit(c: char) { '0' <= c <= '9' }

  function DigitValue(c: char): (n: nat)
    requires IsDigit(c)
    ensures n < 10
  {
    c as int - '0' as int
  }

  function DigitChar(n: nat): (c: char)
    requires n < 10
    ensures IsDigit(c) && DigitValue(c) == n
  {
    "0123456789"[n]
  }

  function Itoa(n: nat): (s: string)
    ensures s != "" && forall k | 0 <= k < |s| :: IsDigit(s[k])
  {
    if n < 10 then [DigitChar(n)] else Itoa(n / 10) + [DigitChar(n % 10)]
  }

  function Digits(s: string): Option<nat> {
    if s == "" then Some(0)
    else
      var front, last := s[..|s| - 1], s[|s| - 1];
      match Digits(front)
      case None => None
      case Some(v) => if IsDigit(last) then Some(10 * v + DigitValue(last)) else None
  }

  /** A decimal number with an optional sign. */
  function Atoi(s: string): Option<int> {
    if s == "" then None
    else
      var body := if s[0] == '+' || s[0] == '-' then s[1..] else s;
      if body == "" then None
      else match Digits(body)
        case None => None
        case Some(v) => var n: int := v; Some(if s[0] == '-' then -n else n)
  }

  lemma {:induction false} DigitsItoa(n: nat)
    ensures Digits(Itoa(n)) == Some(n)
  {
    var s := Itoa(n);
    if n >= 10 {
      DigitsItoa(n / 10);
      assert s[..|s| - 1] == Itoa(n / 10) && s[|s| - 1] == DigitChar(n % 10);
    } else {
      assert s[..|s| - 1] == "" && s[0] == DigitChar(n);
    }
  }

  lemma AtoiItoa(n: nat)
    ensures Atoi(Itoa(n)) == Some(n)
  {
    DigitsItoa(n);
    assert IsDigit(Itoa(n)[0]);
  }

  // ---- Expert groups ------------------------------------------------------

  const WEIGHT := ".weight"

  const MARKERS := [
    ".mlp.experts", ".mlp.shared_experts", ".mlp.switch_mlp", ".moe.experts", ".mixer.experts", ".mixer.shared_experts"]

  /** The prefix of the first marker that follows a layer prefix. layer stands for
      the regular expression of layer prefixes, which is LayerNames.LayerPrefix. */
  function GroupPrefix(layer: string -> bool, name: string, markers: seq<string>): Option<string> {
    if markers == [] then None
    else
      match Index(name, markers[0] + ".", 0)
      case None => GroupPrefix(layer, name, markers[1..])
      case Some(at) =>
        if layer(name[..at]) then Some(name[..at] + markers[0])
        else GroupPrefix(layer, name, markers[1..])
  }

  function ExpertGroupPrefix(layer: string -> bool, name: string): Option<string> {
    if !HasSuffix(name, WEIGHT) then None else GroupPrefix(layer, name, MARKERS)
  }

  /** The group of a per-expert weight: one with a number after the group prefix. */
  function PerExpertGroup(layer: string -> bool, name: string): (gp: Option<string>)
    ensures gp.Some? ==> HasSuffix(name, WEIGHT)
  {
    match ExpertGroupPrefix(layer, name)
    case None => None
    case Some(gp) =>
      match CutPrefix(name, gp + ".")
      case None => None
      case Some(rest) =>
        match Cut(rest)
        case None => None
        case Some(parts) => if Atoi(parts.0).Some? then Some(gp) else None
  }

  /** The name of expert i's weight for this projection. */
  function ExpertName(gp: string, i: nat, proj: string): string {
    gp + "." + (Itoa(i) + "." + proj) + WEIGHT
  }

  /** Splits a per-expert weight's name into expert index and projection. */
  function ParseExpertTensor(gp: string, name: string): Option<(nat, string)> {
    match CutPrefix(name, gp + ".")
    case None => None
    case Some(under) =>
      match CutSuffix(under, WEIGHT)
      case None => None
      case Some(rest) => ParseIndexed(rest)
  }

  function ParseIndexed(rest: string): Option<(nat, string)> {
    match Cut(rest)
    case None => None
    case Some(parts) =>
      match Atoi(parts.0)
      case None => None
      case Some(idx) => if idx < 0 || Itoa(idx) != parts.0 then None else Some((idx, parts.1))
  }

  lemma {:induction false} CutIs(s: string)
    ensures Cut(s).Some? ==> s == Cut(s).value.0 + "." + Cut(s).value.1
  {
    if s != "" && s[0] != '.' {
      CutIs(s[1..]);
    }
  }

  lemma {:induction false} CutAt(a: string, b: string)
    requires forall k | 0 <= k < |a| :: a[k] != '.'
    ensures Cut(a + "." + b) == Some((a, b))
  {
    var s := a + "." + b;
    if a != "" {
      assert s[1..] == a[1..] + "." + b && s[0] == a[0];
      CutAt(a[1..], b);
      assert a == [a[0]] + a[1..];
    } else {
      assert s[1..] == b && s[0] == '.';
    }
  }

  /** A name parses as expert i of a projection exactly if it is that expert's name,
      so no two names parse alike. */
  lemma ParseIsName(gp: string, name: string, i: nat, proj: string)
    ensures ParseExpertTensor(gp, name) == Some((i, proj)) <==> name == ExpertName(gp, i, proj)
  {
    hide Atoi, Itoa, Cut;
    var mid := Itoa(i) + "." + proj;
    if name == ExpertName(gp, i, proj) {
      assert name == (gp + ".") + (mid + WEIGHT);
      assert CutPrefix(name, gp + ".") == Some(mid + WEIGHT);
      assert CutSuffix(mid + WEIGHT, WEIGHT) == Some(mid);
      CutAt(Itoa(i), proj);
      AtoiItoa(i);
    }
    if ParseExpertTensor(gp, name) == Some((i, proj)) {
      var under := CutPrefix(name, gp + ".").value;
      var rest := CutSuffix(under, WEIGHT).value;
      CutIs(rest);
      assert name == (gp + ".") + under && under == rest + WEIGHT;
    }
  }

  // ---- Sorted names -------------------------------------------------------

  function CharRank(c: char): nat { c as nat }

  ghost function SortedNames(names: set<string>): seq<string> { KeyOrder.SortedKeys(CharRank, names) }

  ghost predicate DistinctNames(names: seq<string>) {
    forall i, j | 0 <= i < j < |names| :: names[i] != names[j]
  }

  lemma SortedNamesAre(names: set<string>)
    ensures forall x :: x in SortedNames(names) <==> x in names
    ensures DistinctNames(SortedNames(names))
  {
    KeyOrder.SortedKeysAre(CharRank, names);
    var sorted := SortedNames(names);
    forall i, j | 0 <= i < j < |sorted| ensures sorted[i] != sorted[j] {
      KeyOrder.LessTotal(CharRank, sorted[i], sorted[j]);
    }
  }

  method SortedKeys(names: set<string>) returns (sorted: seq<string>)
    ensures sorted == SortedNames(names)
  {
    sorted := KeyOrder.Keys(CharRank, names);
  }
}
