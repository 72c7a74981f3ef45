/** The exit waterfall (skills/cap-table-modeling/scripts/waterfall_analysis.py):
    share classes rebuilt from the holders, liquidation preferences paid
    senior to junior, and what is left split pro rata over the fully diluted
    shares. */
module Waterfall {
  import opened Wrappers
  import opened Text
  import opened Sequences
  import opened StableSort
  import opened ParseCapTable
  import RoundModel

  // ---------------------------------------------------------------------
  // Records
  // ---------------------------------------------------------------------

  /** A share class with its liquidation terms, as the waterfall sees it. */
  datatype WClass = WClass(
    name: string,
    shareType: ShareType,
    shares: nat,
    pricePerShare: real,
    liquidationPreference: real,
    participating: bool,
    participationCap: real,
    seniority: int,
    totalInvested: real)

  datatype HolderProceeds = HolderProceeds(
    holderName: string,
    holderType: string,
    shareClass: string,
    shares: nat,
    invested: real,
    proceeds: real,
    roi: real,
    proceedsPct: real)

  datatype ExitScenario = ExitScenario(
    exitValue: real,
    holdersProceeds: seq<HolderProceeds>,
    shareClassProceeds: map<string, real>,
    totalDistributed: real,
    remaining: real)

  /** The table the waterfall reads: its holders and the two totals, either
      of which may be absent. */
  datatype Table = Table(holders: seq<Holder>, fullyDilutedShares: Option<nat>,
                         totalSharesOutstanding: Option<nat>)

  /** `load_cap_table` on a parsed cap table. */
  function FromCapTable(t: CapTable): Table {
    Table(t.holders, Some(t.fullyDilutedShares), Some(t.totalSharesOutstanding))
  }

  /** `load_cap_table` on a round model's post-money table. */
  function FromPostMoney(p: RoundModel.PostMoneyTable): Table {
    Table(p.holders, Some(p.fullyDilutedShares), Some(p.totalSharesOutstanding))
  }

  /** The fully diluted count, falling back to the outstanding count, then 0. */
  function TotalShares(t: Table): nat {
    match t.fullyDilutedShares
    case Some(n) => n
    case None => t.totalSharesOutstanding.GetOr(0)
  }

  // ---------------------------------------------------------------------
  // Class terms
  // ---------------------------------------------------------------------

  predicate IsPreferredLabel(cl: string) { Contains(LowerStr(cl), "preferred") }

  predicate NamesSeries(cl: string, letter: char) {
    Contains(LowerStr(cl), "series_" + [letter]) || Contains(LowerStr(cl), "series " + [letter])
  }

  /** Seniority by series letter, checked in the order b, c, d; plain
      preferred is 1 and common 0. */
  function SeniorityOf(cl: string): (s: int)
    ensures 0 <= s <= 4
    ensures s == 0 <==> !IsPreferredLabel(cl)
  {
    if !IsPreferredLabel(cl) then 0
    else if NamesSeries(cl, 'b') then 2
    else if NamesSeries(cl, 'c') then 3
    else if NamesSeries(cl, 'd') then 4
    else 1
  }

  /** The class opened by the first holder seen with a label: no shares and
      nothing invested yet, priced at that holder's price. */
  function OpenClass(cl: string, price: real): WClass {
    var preferred := IsPreferredLabel(cl);
    WClass(cl, if preferred then Preferred else Common, 0, price,
           if preferred then 1.0 else 0.0, false, 0.0, SeniorityOf(cl), 0.0)
  }

  // ---------------------------------------------------------------------
  // Extracting the classes
  // ---------------------------------------------------------------------

  function HolderLabels(hs: seq<Holder>): (r: seq<string>)
    ensures |r| == |hs| && forall i :: 0 <= i < |hs| ==> r[i] == hs[i].shareClass
  {
    seq(|hs|, i requires 0 <= i < |hs| => hs[i].shareClass)
  }

  function LabelSharesOf(hs: seq<Holder>, cl: string): nat {
    if |hs| == 0 then 0
    else LabelSharesOf(hs[..|hs| - 1], cl) +
         (if hs[|hs| - 1].shareClass == cl then hs[|hs| - 1].shares else 0)
  }

  function LabelInvestedOf(hs: seq<Holder>, cl: string): real {
    if |hs| == 0 then 0.0
    else LabelInvestedOf(hs[..|hs| - 1], cl) +
         (if hs[|hs| - 1].shareClass == cl then hs[|hs| - 1].invested else 0.0)
  }

  /** The class labelled `cl` once every holder has been added to it. */
  function ClassFrom(hs: seq<Holder>, cl: string): WClass
    requires cl in HolderLabels(hs)
  {
    var first := hs[FirstIndex(HolderLabels(hs), cl)];
    OpenClass(cl, first.pricePerShare).(shares := LabelSharesOf(hs, cl),
                                           totalInvested := LabelInvestedOf(hs, cl))
  }

  /** `extract_share_classes`: one class per distinct label, in first-seen
      order. */
  function ClassesFrom(hs: seq<Holder>): (cs: seq<WClass>)
    ensures |cs| == |FirstSeen(HolderLabels(hs))|
  {
    var labels := FirstSeen(HolderLabels(hs));
    FirstSeenCorrect(HolderLabels(hs));
    seq(|labels|, k requires 0 <= k < |labels| => ClassFrom(hs, labels[k]))
  }

  function ClassNames(cs: seq<WClass>): (r: seq<string>)
    ensures |r| == |cs| && forall i :: 0 <= i < |cs| ==> r[i] == cs[i].name
  {
    seq(|cs|, i requires 0 <= i < |cs| => cs[i].name)
  }

  lemma LabelsOfPrefix(hs: seq<Holder>, i: nat)
    requires i < |hs|
    ensures HolderLabels(hs[..i + 1]) == HolderLabels(hs[..i]) + [hs[i].shareClass]
    ensures HolderLabels(hs[..i + 1])[..i] == HolderLabels(hs[..i])
  {
  }

  /** A class already open keeps the price of the holder that opened it. */
  lemma ClassFromStep(hs: seq<Holder>, i: nat, cl: string)
    requires i < |hs| && cl in HolderLabels(hs[..i])
    ensures cl in HolderLabels(hs[..i + 1])
    ensures ClassFrom(hs[..i + 1], cl) ==
            ClassFrom(hs[..i], cl).(
              shares := ClassFrom(hs[..i], cl).shares + (if hs[i].shareClass == cl then hs[i].shares else 0),
              totalInvested := ClassFrom(hs[..i], cl).totalInvested +
                               (if hs[i].shareClass == cl then hs[i].invested else 0.0))
  {
    var a, b := HolderLabels(hs[..i + 1]), HolderLabels(hs[..i]);
    LabelsOfPrefix(hs, i);
    FirstIndexOfPrefix(a, i, cl);
    assert hs[..i + 1][..i] == hs[..i];
  }

  /** The class a new label opens, with its first holder added. */
  lemma ClassFromNew(hs: seq<Holder>, i: nat)
    requires i < |hs| && hs[i].shareClass !in HolderLabels(hs[..i])
    ensures hs[i].shareClass in HolderLabels(hs[..i + 1])
    ensures ClassFrom(hs[..i + 1], hs[i].shareClass) ==
            OpenClass(hs[i].shareClass, hs[i].pricePerShare).(shares := hs[i].shares,
                                                               totalInvested := hs[i].invested)
  {
    var cl, hs' := hs[i].shareClass, hs[..i + 1];
    LabelsOfPrefix(hs, i);
    assert hs'[..i] == hs[..i];
    LabelSharesAbsentOf(hs[..i], cl);
    assert FirstIndex(HolderLabels(hs'), cl) == i;
    assert LabelSharesOf(hs', cl) == hs[i].shares && LabelInvestedOf(hs', cl) == hs[i].invested;
    assert hs'[i] == hs[i];
  }

  lemma {:induction false} LabelSharesAbsentOf(hs: seq<Holder>, cl: string)
    requires cl !in HolderLabels(hs)
    ensures LabelSharesOf(hs, cl) == 0 && LabelInvestedOf(hs, cl) == 0.0
  {
    if |hs| > 0 {
      var n := |hs| - 1;
      assert HolderLabels(hs[..n]) == HolderLabels(hs)[..n];
      LabelSharesAbsentOf(hs[..n], cl);
    }
  }

  lemma FirstSeenStep(hs: seq<Holder>, i: nat)
    requires i < |hs|
    ensures FirstSeen(HolderLabels(hs[..i + 1])) ==
              if hs[i].shareClass in FirstSeen(HolderLabels(hs[..i])) then FirstSeen(HolderLabels(hs[..i]))
              else FirstSeen(HolderLabels(hs[..i])) + [hs[i].shareClass]
  {
    LabelsOfPrefix(hs, i);
  }

  /** Every label seen in `hs`, mapped to its class. */
  function ClassMap(hs: seq<Holder>): map<string, WClass> {
    map cl | cl in HolderLabels(hs) :: ClassFrom(hs, cl)
  }

  /** What one holder does to the dictionary of classes: open its class if
      it is new, then add its shares and its investment. */
  function AddTo(classes: map<string, WClass>, h: Holder): map<string, WClass> {
    var c := if h.shareClass in classes then classes[h.shareClass] else OpenClass(h.shareClass, h.pricePerShare);
    classes[h.shareClass := c.(shares := c.shares + h.shares, totalInvested := c.totalInvested + h.invested)]
  }

  /** Adding holder `i` to the class `cl` already open. */
  lemma EntryStep(hs: seq<Holder>, i: nat, cl: string)
    requires i < |hs| && cl in HolderLabels(hs[..i])
    ensures cl in HolderLabels(hs[..i + 1])
    ensures ClassFrom(hs[..i + 1], cl) == AddTo(ClassMap(hs[..i]), hs[i])[cl]
  {
    ClassFromStep(hs, i, cl);
  }

  lemma ClassMapStep(hs: seq<Holder>, i: nat)
    requires i < |hs|
    ensures ClassMap(hs[..i + 1]) == AddTo(ClassMap(hs[..i]), hs[i])
  {
    var m, m' := ClassMap(hs[..i]), AddTo(ClassMap(hs[..i]), hs[i]);
    LabelsOfPrefix(hs, i);
    assert ClassMap(hs[..i + 1]).Keys == m'.Keys;
    forall k | k in m' ensures ClassMap(hs[..i + 1])[k] == m'[k] {
      if k in m {
        EntryStep(hs, i, k);
      } else {
        ClassFromNew(hs, i);
      }
    }
  }

  /** The state of the loop of `extract_share_classes` after the first `i`
      holders: the labels seen so far in order, and each one's class. */
  ghost predicate Extracted(hs: seq<Holder>, i: nat, classes: map<string, WClass>, order: seq<string>)
    requires i <= |hs|
  {
    order == FirstSeen(HolderLabels(hs[..i])) && classes == ClassMap(hs[..i])
  }

  /** One iteration: open the holder's class if it is new, then add the
      holder's shares and investment to it. */
  method AddHolder(hs: seq<Holder>, i: nat, classes: map<string, WClass>, order: seq<string>)
    returns (classes': map<string, WClass>, order': seq<string>)
    requires i < |hs| && Extracted(hs, i, classes, order)
    ensures Extracted(hs, i + 1, classes', order')
  {
    var h := hs[i];
    FirstSeenStep(hs, i);
    SeenIffOpen(hs, i, h.shareClass);
    ClassMapStep(hs, i);
    classes', order' := classes, order;
    if h.shareClass !in classes' {
      classes' := classes'[h.shareClass := OpenClass(h.shareClass, h.pricePerShare)];
      order' := order' + [h.shareClass];
    }
    var c := classes'[h.shareClass];
    var added := c.(shares := c.shares + h.shares, totalInvested := c.totalInvested + h.invested);
    assert c == if h.shareClass in classes then classes[h.shareClass] else OpenClass(h.shareClass, h.pricePerShare);
    if h.shareClass !in classes {
      OverwriteKey(classes, h.shareClass, OpenClass(h.shareClass, h.pricePerShare), added);
    }
    classes' := classes'[h.shareClass := added];
    AddToExisting(classes, h, c);
  }

  lemma AddToExisting(classes: map<string, WClass>, h: Holder, c: WClass)
    requires c == if h.shareClass in classes then classes[h.shareClass] else OpenClass(h.shareClass, h.pricePerShare)
    ensures AddTo(classes, h) == classes[h.shareClass := c.(shares := c.shares + h.shares,
                                                            totalInvested := c.totalInvested + h.invested)]
  {
  }

  lemma OverwriteKey<K, V>(m: map<K, V>, k: K, v: V, w: V)
    ensures m[k := v][k := w] == m[k := w]
  {
  }

  /** A label has been seen exactly when its class is open. */
  lemma SeenIffOpen(hs: seq<Holder>, i: nat, cl: string)
    requires i <= |hs|
    ensures (cl in FirstSeen(HolderLabels(hs[..i]))) == (cl in ClassMap(hs[..i]))
  {
    FirstSeenCorrect(HolderLabels(hs[..i]));
  }

  /** `extract_share_classes`: a dictionary from label to class filled in
      first-seen order, each holder adding its shares and its investment to
      its class; then the dictionary's values in insertion order. */
  method ExtractShareClasses(hs: seq<Holder>) returns (cs: seq<WClass>)
    ensures cs == ClassesFrom(hs)
  {
    var classes: map<string, WClass> := map[];
    var order: seq<string> := [];
    var i := 0;
    while i < |hs|
      invariant 0 <= i <= |hs|
      invariant Extracted(hs, i, classes, order)
    {
      classes, order := AddHolder(hs, i, classes, order);
      i := i + 1;
    }
    assert hs[..i] == hs;
    LabelsOpen(hs, order);
    cs := ClassValues(classes, order);
    ValuesAreClasses(hs, classes, order, cs);
  }

  /** The dictionary's values in insertion order. */
  method ClassValues(classes: map<string, WClass>, order: seq<string>) returns (cs: seq<WClass>)
    requires forall k :: 0 <= k < |order| ==> order[k] in classes
    ensures |cs| == |order| && forall j :: 0 <= j < |order| ==> cs[j] == classes[order[j]]
  {
    cs := [];
    var k := 0;
    while k < |order|
      invariant 0 <= k <= |order|
      invariant |cs| == k
      invariant forall j :: 0 <= j < k ==> cs[j] == classes[order[j]]
    {
      cs := cs + [classes[order[k]]];
      k := k + 1;
    }
  }

  /** The values of the filled dictionary, in first-seen order of label, are
      the extracted classes. */
  lemma ValuesAreClasses(hs: seq<Holder>, classes: map<string, WClass>, order: seq<string>, cs: seq<WClass>)
    requires classes == ClassMap(hs) && order == FirstSeen(HolderLabels(hs))
    requires |cs| == |order| && forall j :: 0 <= j < |order| ==> order[j] in classes && cs[j] == classes[order[j]]
    ensures cs == ClassesFrom(hs)
  {
    forall j | 0 <= j < |cs| ensures cs[j] == ClassesFrom(hs)[j] {
      ClassMapAt(hs, order[j]);
    }
  }

  lemma ClassMapAt(hs: seq<Holder>, cl: string)
    requires cl in HolderLabels(hs)
    ensures cl in ClassMap(hs) && ClassMap(hs)[cl] == ClassFrom(hs, cl)
  {
  }

  /** Every label in first-seen order has its class open. */
  lemma LabelsOpen(hs: seq<Holder>, order: seq<string>)
    requires order == FirstSeen(HolderLabels(hs))
    ensures forall k :: 0 <= k < |order| ==> order[k] in HolderLabels(hs) && order[k] in ClassMap(hs)
  {
    FirstSeenCorrect(HolderLabels(hs));
  }

  // ---------------------------------------------------------------------
  // The two passes
  // ---------------------------------------------------------------------

  function Seniority(c: WClass): int { c.seniority }

  /** Classes in the order pass 1 visits them: descending seniority, ties in
      first-seen order. */
  function SortedClasses(hs: seq<Holder>): seq<WClass> {
    SortDesc(ClassesFrom(hs), Seniority)
  }

  function Min(a: real, b: real): real { if a <= b then a else b }

  /** A class's liquidation claim. */
  function Claim(c: WClass): real { c.totalInvested * c.liquidationPreference }

  /** What is left of the exit value once pass 1 has visited `cs`. */
  function RemainingAfter(cs: seq<WClass>, exitValue: real): real {
    if |cs| == 0 then exitValue
    else
      var r, c := RemainingAfter(cs[..|cs| - 1], exitValue), cs[|cs| - 1];
      r - (if c.shareType == Preferred then Min(Claim(c), r) else 0.0)
  }

  /** What pass 1 pays class `c` after paying the classes in `done`: its
      claim, capped by what is left, and nothing for common classes. */
  function Payment(done: seq<WClass>, c: WClass, exitValue: real): real {
    if c.shareType == Preferred then Min(Claim(c), RemainingAfter(done, exitValue)) else 0.0
  }

  /** `part / whole`, or 0 when there is no whole. */
  function Frac(part: nat, whole: nat): real {
    if whole > 0 then part as real / whole as real else 0.0
  }

  /** A holder's cut of a class payment: pro rata to its shares within its
      class; nothing for holders of other classes or of a class without
      shares. */
  function StepWeight(h: Holder, c: WClass, payment: real): real {
    if h.shareClass == c.name then payment * Frac(h.shares, c.shares) else 0.0
  }

  /** A holder's proceeds from pass 1 over the classes `cs`. */
  function Pass1Share(h: Holder, cs: seq<WClass>, exitValue: real): real {
    if |cs| == 0 then 0.0
    else
      var done, c := cs[..|cs| - 1], cs[|cs| - 1];
      Pass1Share(h, done, exitValue) +
      (if c.shareType == Preferred then StepWeight(h, c, Payment(done, c, exitValue)) else 0.0)
  }

  /** An amount credited to each holder. */
  datatype Amount =
    | Pass1Through(classes: seq<WClass>, exitValue: real)
    | ClassStep(cls: WClass, payment: real)
    | ProRata(residual: real, totalShares: nat)

  function Weight(a: Amount, h: Holder): real {
    match a
    case Pass1Through(cs, e) => Pass1Share(h, cs, e)
    case ClassStep(c, p) => StepWeight(h, c, p)
    case ProRata(r, total) => r * Frac(h.shares, total)
  }

  /** The key a holder's amounts are credited under: its name, or its class. */
  function KeyOf(h: Holder, byName: bool): string {
    if byName then h.name else h.shareClass
  }

  /** The amount `a` summed over the holders credited under `key`. */
  function GroupSum(hs: seq<Holder>, byName: bool, key: string, a: Amount): real {
    if |hs| == 0 then 0.0
    else GroupSum(hs[..|hs| - 1], byName, key, a) +
         (if KeyOf(hs[|hs| - 1], byName) == key then Weight(a, hs[|hs| - 1]) else 0.0)
  }

  function NameSet(hs: seq<Holder>): set<string> {
    set i | 0 <= i < |hs| :: hs[i].name
  }

  function ClassNameSet(cs: seq<WClass>): set<string> {
    set i | 0 <= i < |cs| :: cs[i].name
  }

  /** What pass 1 leaves for pass 2. */
  function Residual(hs: seq<Holder>, exitValue: real): real {
    RemainingAfter(SortedClasses(hs), exitValue)
  }

  /** The `remaining` the scenario reports: zero once pass 2 has run. */
  function FinalRemaining(hs: seq<Holder>, exitValue: real): real {
    var r := Residual(hs, exitValue);
    if r > 0.0 then 0.0 else r
  }

  /** Proceeds credited under `key`: pass 1, plus pass 2 when something is
      left. */
  function ProceedsUnder(hs: seq<Holder>, totalShares: nat, exitValue: real, byName: bool, key: string): real {
    var r := Residual(hs, exitValue);
    GroupSum(hs, byName, key, Pass1Through(SortedClasses(hs), exitValue)) +
    (if r > 0.0 then GroupSum(hs, byName, key, ProRata(r, totalShares)) else 0.0)
  }

  /** The record of one holder credited with `proceeds`. */
  function HolderProceedsOf(h: Holder, proceeds: real, exitValue: real): HolderProceeds {
    HolderProceeds(h.name, h.holderType, h.shareClass, h.shares, h.invested, proceeds,
                   if h.invested > 0.0 then proceeds / h.invested - 1.0 else 0.0,
                   if exitValue > 0.0 then proceeds / exitValue * 100.0 else 0.0)
  }

  function ProceedsList(hs: seq<Holder>, proceeds: map<string, real>, exitValue: real): (r: seq<HolderProceeds>)
    requires NameSet(hs) <= proceeds.Keys
    ensures |r| == |hs|
    ensures forall j :: 0 <= j < |hs| ==> r[j] == HolderProceedsOf(hs[j], proceeds[hs[j].name], exitValue)
  {
    seq(|hs|, j requires 0 <= j < |hs| => assert hs[j].name in NameSet(hs); HolderProceedsOf(hs[j], proceeds[hs[j].name], exitValue))
  }

  /** Proceeds per holder name. */
  function HolderTotals(hs: seq<Holder>, totalShares: nat, exitValue: real): map<string, real> {
    map n | n in NameSet(hs) :: ProceedsUnder(hs, totalShares, exitValue, true, n)
  }

  /** Proceeds per class. */
  function ClassTotals(hs: seq<Holder>, totalShares: nat, exitValue: real): map<string, real> {
    map c | c in ClassNameSet(ClassesFrom(hs)) :: ProceedsUnder(hs, totalShares, exitValue, false, c)
  }

  /** The scenario `calculate_waterfall` returns. */
  function Scenario(t: Table, exitValue: real): ExitScenario {
    var hs, total := t.holders, TotalShares(t);
    var remaining := FinalRemaining(hs, exitValue);
    ExitScenario(exitValue, ProceedsList(hs, HolderTotals(hs, total, exitValue), exitValue),
                 ClassTotals(hs, total, exitValue), exitValue - remaining, remaining)
  }

  // ---------------------------------------------------------------------
  // The passes as loops
  // ---------------------------------------------------------------------

  /** `m` is `m0` with the amount `a` of every holder in `hs` credited
      under its key. */
  ghost predicate Credited(m0: map<string, real>, m: map<string, real>, hs: seq<Holder>, byName: bool, a: Amount) {
    m.Keys == m0.Keys && forall n :: n in m0 ==> m[n] == m0[n] + GroupSum(hs, byName, n, a)
  }

  lemma {:induction false} GroupSumPrefix(hs: seq<Holder>, j: nat, byName: bool, key: string, a: Amount)
    requires j < |hs|
    ensures GroupSum(hs[..j + 1], byName, key, a) ==
            GroupSum(hs[..j], byName, key, a) + (if KeyOf(hs[j], byName) == key then Weight(a, hs[j]) else 0.0)
  {
    assert hs[..j + 1][..j] == hs[..j];
  }

  lemma {:induction false} GroupSumNone(hs: seq<Holder>, byName: bool, key: string, a: Amount)
    ensures GroupSum(hs[..0], byName, key, a) == 0.0
  {
  }

  /** Nothing is credited before the first holder. */
  lemma CreditedStart(m0: map<string, real>, hs: seq<Holder>, byName: bool, a: Amount)
    ensures Credited(m0, m0, hs[..0], byName, a)
  {
    forall n | n in m0 {
      GroupSumNone(hs, byName, n, a);
    }
  }

  /** Crediting holder `j` its amount under its key extends the credited prefix. */
  lemma CreditedStep(m0: map<string, real>, m: map<string, real>, hs: seq<Holder>, j: nat, byName: bool, a: Amount)
    requires j < |hs| && Credited(m0, m, hs[..j], byName, a) && KeyOf(hs[j], byName) in m
    ensures Credited(m0, m[KeyOf(hs[j], byName) := m[KeyOf(hs[j], byName)] + Weight(a, hs[j])], hs[..j + 1], byName, a)
  {
    forall n | n in m0 {
      GroupSumPrefix(hs, j, byName, n, a);
    }
  }

  /** A holder whose amount is zero leaves the accumulator as it is. */
  lemma CreditedSkip(m0: map<string, real>, m: map<string, real>, hs: seq<Holder>, j: nat, byName: bool, a: Amount)
    requires j < |hs| && Credited(m0, m, hs[..j], byName, a) && Weight(a, hs[j]) == 0.0
    ensures Credited(m0, m, hs[..j + 1], byName, a)
  {
    forall n | n in m0 {
      GroupSumPrefix(hs, j, byName, n, a);
    }
  }

  /** The inner loop of pass 1: every holder of class `c` is credited its cut
      of `payment`, under its name and under the class. */
  method PayClass(hs: seq<Holder>, c: WClass, payment: real, hp: map<string, real>, cp: map<string, real>)
    returns (hp': map<string, real>, cp': map<string, real>)
    requires NameSet(hs) <= hp.Keys && c.name in cp
    ensures Credited(hp, hp', hs, true, ClassStep(c, payment))
    ensures Credited(cp, cp', hs, false, ClassStep(c, payment))
  {
    hp', cp' := hp, cp;
    CreditedStart(hp, hs, true, ClassStep(c, payment));
    CreditedStart(cp, hs, false, ClassStep(c, payment));
    var j := 0;
    while j < |hs|
      invariant 0 <= j <= |hs|
      invariant Credited(hp, hp', hs[..j], true, ClassStep(c, payment))
      invariant Credited(cp, cp', hs[..j], false, ClassStep(c, payment))
    {
      var h := hs[j];
      if h.shareClass == c.name {
        var cut := payment * Frac(h.shares, c.shares);
        assert h.name in NameSet(hs);
        assert Weight(ClassStep(c, payment), h) == cut;
        assert KeyOf(h, true) == h.name && KeyOf(h, false) == c.name;
        CreditedStep(hp, hp', hs, j, true, ClassStep(c, payment));
        CreditedStep(cp, cp', hs, j, false, ClassStep(c, payment));
        hp' := hp'[h.name := hp'[h.name] + cut];
        cp' := cp'[c.name := cp'[c.name] + cut];
      } else {
        CreditedSkip(hp, hp', hs, j, true, ClassStep(c, payment));
        CreditedSkip(cp, cp', hs, j, false, ClassStep(c, payment));
      }
      j := j + 1;
    }
    assert hs[..j] == hs;
  }

  lemma {:induction false} GroupSumPass1Empty(hs: seq<Holder>, byName: bool, key: string, exitValue: real)
    ensures GroupSum(hs, byName, key, Pass1Through([], exitValue)) == 0.0
  {
    if |hs| > 0 {
      GroupSumPass1Empty(hs[..|hs| - 1], byName, key, exitValue);
    }
  }

  /** Adding one class to pass 1 adds its class step to every group. */
  lemma {:induction false} GroupSumPass1Step(hs: seq<Holder>, byName: bool, key: string,
                                             done: seq<WClass>, c: WClass, exitValue: real)
    ensures GroupSum(hs, byName, key, Pass1Through(done + [c], exitValue)) ==
            GroupSum(hs, byName, key, Pass1Through(done, exitValue)) +
            (if c.shareType == Preferred then GroupSum(hs, byName, key, ClassStep(c, Payment(done, c, exitValue))) else 0.0)
  {
    assert (done + [c])[..|done|] == done;
    if |hs| > 0 {
      GroupSumPass1Step(hs[..|hs| - 1], byName, key, done, c, exitValue);
    }
  }

  lemma Pass1Start(m0: map<string, real>, hs: seq<Holder>, byName: bool, exitValue: real)
    ensures Credited(m0, m0, hs, byName, Pass1Through([], exitValue))
  {
    forall n | n in m0 {
      GroupSumPass1Empty(hs, byName, n, exitValue);
    }
  }

  /** Pass 1 over `done` followed by the class step of `c` is pass 1 over `done + [c]`. */
  lemma Pass1Extend(m0: map<string, real>, m1: map<string, real>, m2: map<string, real>, hs: seq<Holder>,
                    byName: bool, done: seq<WClass>, c: WClass, exitValue: real)
    requires Credited(m0, m1, hs, byName, Pass1Through(done, exitValue))
    requires c.shareType == Preferred ==> Credited(m1, m2, hs, byName, ClassStep(c, Payment(done, c, exitValue)))
    requires c.shareType != Preferred ==> m2 == m1
    ensures Credited(m0, m2, hs, byName, Pass1Through(done + [c], exitValue))
  {
    forall n | n in m0 {
      GroupSumPass1Step(hs, byName, n, done, c, exitValue);
    }
  }

  /** Visiting one more class leaves what was left less that class's payment. */
  lemma RemainingStep(done: seq<WClass>, c: WClass, exitValue: real)
    ensures RemainingAfter(done + [c], exitValue) == RemainingAfter(done, exitValue) - Payment(done, c, exitValue)
  {
    assert (done + [c])[..|done|] == done;
  }

  /** Pass 1: the preferred classes in the given order, each paid its claim
      capped by what is left. */
  method PayPreferences(hs: seq<Holder>, sorted: seq<WClass>, exitValue: real,
                        hp: map<string, real>, cp: map<string, real>)
    returns (hp': map<string, real>, cp': map<string, real>, remaining: real)
    requires NameSet(hs) <= hp.Keys
    requires forall k :: 0 <= k < |sorted| ==> sorted[k].name in cp
    ensures remaining == RemainingAfter(sorted, exitValue)
    ensures Credited(hp, hp', hs, true, Pass1Through(sorted, exitValue))
    ensures Credited(cp, cp', hs, false, Pass1Through(sorted, exitValue))
  {
    hp', cp', remaining := hp, cp, exitValue;
    Pass1Start(hp, hs, true, exitValue);
    Pass1Start(cp, hs, false, exitValue);
    var k := 0;
    while k < |sorted|
      invariant 0 <= k <= |sorted|
      invariant remaining == RemainingAfter(sorted[..k], exitValue)
      invariant Credited(hp, hp', hs, true, Pass1Through(sorted[..k], exitValue))
      invariant Credited(cp, cp', hs, false, Pass1Through(sorted[..k], exitValue))
    {
      var c, done := sorted[k], sorted[..k];
      assert sorted[..k + 1] == done + [c];
      RemainingStep(done, c, exitValue);
      var hp1, cp1 := hp', cp';
      hp', cp', remaining := PayPreference(hs, done, c, exitValue, remaining, hp', cp');
      Pass1Extend(hp, hp1, hp', hs, true, done, c, exitValue);
      Pass1Extend(cp, cp1, cp', hs, false, done, c, exitValue);
      k := k + 1;
    }
    assert sorted[..k] == sorted;
  }

  /** One class of pass 1: a preferred class is paid its liquidation amount
      capped by what is left, a common class nothing. */
  method PayPreference(hs: seq<Holder>, done: seq<WClass>, c: WClass, exitValue: real, remaining: real,
                       hp: map<string, real>, cp: map<string, real>)
    returns (hp': map<string, real>, cp': map<string, real>, remaining': real)
    requires NameSet(hs) <= hp.Keys && c.name in cp
    requires remaining == RemainingAfter(done, exitValue)
    ensures remaining' == remaining - Payment(done, c, exitValue)
    ensures c.shareType == Preferred ==> Credited(hp, hp', hs, true, ClassStep(c, Payment(done, c, exitValue)))
    ensures c.shareType == Preferred ==> Credited(cp, cp', hs, false, ClassStep(c, Payment(done, c, exitValue)))
    ensures c.shareType != Preferred ==> hp' == hp && cp' == cp
  {
    hp', cp', remaining' := hp, cp, remaining;
    if c.shareType == Preferred {
      var liqAmount := c.totalInvested * c.liquidationPreference;
      var payment := Min(liqAmount, remaining);
      assert payment == Payment(done, c, exitValue);
      remaining' := remaining - payment;
      hp', cp' := PayClass(hs, c, payment, hp, cp);
    }
  }

  /** Pass 2: every holder is credited its fraction of the fully diluted
      shares of what is left. */
  method DistributeRemaining(hs: seq<Holder>, remaining: real, totalShares: nat,
                             hp: map<string, real>, cp: map<string, real>)
    returns (hp': map<string, real>, cp': map<string, real>)
    requires NameSet(hs) <= hp.Keys
    requires forall i :: 0 <= i < |hs| ==> hs[i].shareClass in cp
    ensures Credited(hp, hp', hs, true, ProRata(remaining, totalShares))
    ensures Credited(cp, cp', hs, false, ProRata(remaining, totalShares))
  {
    hp', cp' := hp, cp;
    CreditedStart(hp, hs, true, ProRata(remaining, totalShares));
    CreditedStart(cp, hs, false, ProRata(remaining, totalShares));
    var j := 0;
    while j < |hs|
      invariant 0 <= j <= |hs|
      invariant Credited(hp, hp', hs[..j], true, ProRata(remaining, totalShares))
      invariant Credited(cp, cp', hs[..j], false, ProRata(remaining, totalShares))
    {
      var h := hs[j];
      var amount := remaining * Frac(h.shares, totalShares);
      assert h.name in NameSet(hs);
      assert Weight(ProRata(remaining, totalShares), h) == amount;
      assert KeyOf(h, true) == h.name && KeyOf(h, false) == h.shareClass;
      CreditedStep(hp, hp', hs, j, true, ProRata(remaining, totalShares));
      CreditedStep(cp, cp', hs, j, false, ProRata(remaining, totalShares));
      hp' := hp'[h.name := hp'[h.name] + amount];
      cp' := cp'[h.shareClass := cp'[h.shareClass] + amount];
      j := j + 1;
    }
    assert hs[..j] == hs;
  }

  /** The loop that builds the proceeds list. */
  method BuildProceeds(hs: seq<Holder>, hp: map<string, real>, exitValue: real)
    returns (list: seq<HolderProceeds>)
    requires NameSet(hs) <= hp.Keys
    ensures list == ProceedsList(hs, hp, exitValue)
  {
    list := [];
    var j := 0;
    while j < |hs|
      invariant 0 <= j <= |hs|
      invariant |list| == j
      invariant forall i :: 0 <= i < j ==> list[i] == HolderProceedsOf(hs[i], hp[hs[i].name], exitValue)
    {
      var h := hs[j];
      assert h.name in NameSet(hs);
      var proceeds := hp[h.name];
      var roi := if h.invested > 0.0 then proceeds / h.invested - 1.0 else 0.0;
      var pct := if exitValue > 0.0 then proceeds / exitValue * 100.0 else 0.0;
      list := list + [HolderProceeds(h.name, h.holderType, h.shareClass, h.shares, h.invested,
                                     proceeds, roi, pct)];
      j := j + 1;
    }
  }

  /** Every holder's label names an extracted class, and every class visited
      by pass 1 is one of them. */
  lemma ClassNamesCover(hs: seq<Holder>)
    ensures forall i :: 0 <= i < |hs| ==> hs[i].shareClass in ClassNameSet(ClassesFrom(hs))
    ensures forall k :: 0 <= k < |SortedClasses(hs)| ==> SortedClasses(hs)[k].name in ClassNameSet(ClassesFrom(hs))
  {
    LabelsNamed(hs, ClassesFrom(hs));
    SortedNamed(ClassesFrom(hs), SortedClasses(hs));
  }

  lemma LabelsNamed(hs: seq<Holder>, cs: seq<WClass>)
    requires cs == ClassesFrom(hs)
    ensures forall i :: 0 <= i < |hs| ==> hs[i].shareClass in ClassNameSet(cs)
  {
    var labels := FirstSeen(HolderLabels(hs));
    FirstSeenCorrect(HolderLabels(hs));
    forall i | 0 <= i < |hs| ensures hs[i].shareClass in ClassNameSet(cs) {
      assert HolderLabels(hs)[i] == hs[i].shareClass;
      var k := FirstIndex(labels, hs[i].shareClass);
      assert cs[k].name == hs[i].shareClass;
    }
  }

  lemma SortedNamed(cs: seq<WClass>, sorted: seq<WClass>)
    requires sorted == SortDesc(cs, Seniority)
    ensures forall k :: 0 <= k < |sorted| ==> sorted[k].name in ClassNameSet(cs)
  {
    SortDescCorrect(cs, Seniority);
    forall k | 0 <= k < |sorted| ensures sorted[k].name in ClassNameSet(cs) {
      assert sorted[k] in multiset(sorted);
      var j :| 0 <= j < |cs| && cs[j] == sorted[k];
    }
  }

  /** Pass 1 then, when something is left, pass 2, from accumulators zeroed
      over `keys`. */
  lemma PassesTotal(keys: set<string>, m0: map<string, real>, m1: map<string, real>, m2: map<string, real>,
                    hs: seq<Holder>, totalShares: nat, exitValue: real, byName: bool)
    requires m0 == map n | n in keys :: 0.0
    requires Credited(m0, m1, hs, byName, Pass1Through(SortedClasses(hs), exitValue))
    requires Residual(hs, exitValue) > 0.0 ==> Credited(m1, m2, hs, byName, ProRata(Residual(hs, exitValue), totalShares))
    requires Residual(hs, exitValue) <= 0.0 ==> m2 == m1
    ensures m2 == map n | n in keys :: ProceedsUnder(hs, totalShares, exitValue, byName, n)
  {
  }

  /** Both passes over the holders, from zeroed accumulators. */
  method RunPasses(hs: seq<Holder>, classes: seq<WClass>, totalShares: nat, exitValue: real)
    returns (hp: map<string, real>, cp: map<string, real>, remaining: real)
    requires classes == ClassesFrom(hs)
    ensures hp == HolderTotals(hs, totalShares, exitValue)
    ensures cp == ClassTotals(hs, totalShares, exitValue)
    ensures remaining == FinalRemaining(hs, exitValue)
  {
    var hp0: map<string, real> := map n | n in NameSet(hs) :: 0.0;
    var cp0: map<string, real> := map c | c in ClassNameSet(classes) :: 0.0;
    var sorted := SortDesc(classes, Seniority);
    ClassNamesCover(hs);
    assert sorted == SortedClasses(hs);
    var hp1, cp1;
    hp1, cp1, remaining := PayPreferences(hs, sorted, exitValue, hp0, cp0);
    hp, cp := hp1, cp1;
    if remaining > 0.0 {
      hp, cp := DistributeRemaining(hs, remaining, totalShares, hp, cp);
      remaining := 0.0;
    }
    PassesTotal(NameSet(hs), hp0, hp1, hp, hs, totalShares, exitValue, true);
    PassesTotal(ClassNameSet(classes), cp0, cp1, cp, hs, totalShares, exitValue, false);
  }

  /** `calculate_waterfall`: extract and sort the classes, pay the
      preferences, split what is left, force the remainder to zero and list
      each holder's proceeds. */
  method CalculateWaterfall(t: Table, exitValue: real) returns (s: ExitScenario)
    ensures s == Scenario(t, exitValue)
  {
    var hs := t.holders;
    var classes := ExtractShareClasses(hs);
    var totalShares := TotalShares(t);
    var hp, cp, remaining := RunPasses(hs, classes, totalShares, exitValue);
    var list := BuildProceeds(hs, hp, exitValue);
    s := ExitScenario(exitValue, list, cp, exitValue - remaining, remaining);
  }

  /** The scenario for each exit value, as a function of the exit value. */
  function ScenarioOf(t: Table): real -> ExitScenario {
    e => Scenario(t, e)
  }

  /** Each listed scenario is the scenario of the exit value at its index:
      the exit values are evaluated independently of each other. */
  lemma ScenariosAt(t: Table, exitValues: seq<real>, i: nat)
    requires i < |exitValues|
    ensures |Map(ScenarioOf(t), exitValues)| == |exitValues|
    ensures Map(ScenarioOf(t), exitValues)[i] == Scenario(t, exitValues[i])
  {
    MapAt(ScenarioOf(t), exitValues, i);
  }

  /** `generate_waterfall_scenarios`: one independent scenario per exit
      value, in order. */
  method GenerateWaterfallScenarios(t: Table, exitValues: seq<real>) returns (ss: seq<ExitScenario>)
    ensures ss == Map(ScenarioOf(t), exitValues)
  {
    ss := [];
    var i := 0;
    while i < |exitValues|
      invariant 0 <= i <= |exitValues|
      invariant ss == Map(ScenarioOf(t), exitValues[..i])
    {
      var s := CalculateWaterfall(t, exitValues[i]);
      assert exitValues[..i + 1][..i] == exitValues[..i];
      ss := ss + [s];
      i := i + 1;
    }
    assert exitValues[..i] == exitValues;
  }
}
