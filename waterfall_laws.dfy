/** What the waterfall promises: the remainder never goes negative and has a
    closed form, the classes are paid strictly in order, and for a table
    whose holders own all of its shares every dollar of a non-negative exit
    ends up with somebody. */
module WaterfallLaws {
  import opened Wrappers
  import opened Text
  import opened Sequences
  import opened StableSort
  import opened ParseCapTable
  import opened Waterfall

  // ---------------------------------------------------------------------
  // The remainder of pass 1
  // ---------------------------------------------------------------------

  function Max(a: real, b: real): real { if a >= b then a else b }

  /** The claims of the preferred classes among `cs`. */
  function PreferredClaims(cs: seq<WClass>): real {
    if |cs| == 0 then 0.0
    else PreferredClaims(cs[..|cs| - 1]) +
         (if cs[|cs| - 1].shareType == Preferred then Claim(cs[|cs| - 1]) else 0.0)
  }

  ghost predicate ClaimsNonneg(cs: seq<WClass>) {
    forall k :: 0 <= k < |cs| ==> Claim(cs[k]) >= 0.0
  }

  /** Pass 1 never takes more than is there: a non-negative exit leaves a
      non-negative remainder, whatever the claims. */
  lemma {:induction false} RemainingNonneg(cs: seq<WClass>, exitValue: real)
    requires exitValue >= 0.0
    ensures RemainingAfter(cs, exitValue) >= 0.0
  {
    if |cs| > 0 {
      RemainingNonneg(cs[..|cs| - 1], exitValue);
    }
  }

  /** With non-negative claims, what pass 1 leaves is the exit value less
      every preferred claim, or nothing when the claims exceed it. */
  lemma {:induction false} RemainingClosedForm(cs: seq<WClass>, exitValue: real)
    requires exitValue >= 0.0 && ClaimsNonneg(cs)
    ensures RemainingAfter(cs, exitValue) == Max(0.0, exitValue - PreferredClaims(cs))
  {
    if |cs| > 0 {
      var init := cs[..|cs| - 1];
      assert ClaimsNonneg(init) by {
        forall k | 0 <= k < |init| ensures Claim(init[k]) >= 0.0 {
          assert init[k] == cs[k];
        }
      }
      RemainingClosedForm(init, exitValue);
    }
  }

  /** A preferred class is paid its whole claim exactly when the exit covers
      it on top of every claim paid before it (or it claims nothing). */
  lemma PaidInFull(done: seq<WClass>, c: WClass, exitValue: real)
    requires exitValue >= 0.0 && ClaimsNonneg(done) && Claim(c) >= 0.0 && c.shareType == Preferred
    ensures Payment(done, c, exitValue) == Claim(c) <==>
            (Claim(c) == 0.0 || exitValue >= PreferredClaims(done) + Claim(c))
  {
    RemainingClosedForm(done, exitValue);
  }

  /** A preferred class gets nothing exactly when the claims paid before it
      use up the exit (or it claims nothing). */
  lemma PaidNothing(done: seq<WClass>, c: WClass, exitValue: real)
    requires exitValue >= 0.0 && ClaimsNonneg(done) && Claim(c) >= 0.0 && c.shareType == Preferred
    ensures Payment(done, c, exitValue) == 0.0 <==>
            (Claim(c) == 0.0 || exitValue <= PreferredClaims(done))
  {
    RemainingClosedForm(done, exitValue);
  }

  /** For a non-negative exit the scenario reports nothing remaining and the
      whole exit value as distributed. */
  lemma ScenarioDistributesAll(t: Table, exitValue: real)
    requires exitValue >= 0.0
    ensures Scenario(t, exitValue).remaining == 0.0
    ensures Scenario(t, exitValue).totalDistributed == exitValue
  {
    RemainingNonneg(SortedClasses(t.holders), exitValue);
  }

  // ---------------------------------------------------------------------
  // Sums over the holders
  // ---------------------------------------------------------------------

  /** The amount `a` summed over every holder. */
  function HolderSum(hs: seq<Holder>, a: Amount): real {
    if |hs| == 0 then 0.0 else HolderSum(hs[..|hs| - 1], a) + Weight(a, hs[|hs| - 1])
  }

  /** The amount `a` summed group by group over the keys `keys`. */
  function KeySum(hs: seq<Holder>, byName: bool, keys: seq<string>, a: Amount): real {
    if |keys| == 0 then 0.0
    else KeySum(hs, byName, keys[..|keys| - 1], a) + GroupSum(hs, byName, keys[|keys| - 1], a)
  }

  /** `w` credited under the one key among `keys` equal to `x`. */
  function Indicator(keys: seq<string>, x: string, w: real): real {
    if |keys| == 0 then 0.0
    else Indicator(keys[..|keys| - 1], x, w) + (if keys[|keys| - 1] == x then w else 0.0)
  }

  lemma {:induction false} IndicatorOnce(keys: seq<string>, x: string, w: real)
    requires NoDuplicates(keys)
    ensures Indicator(keys, x, w) == if x in keys then w else 0.0
  {
    if |keys| > 0 {
      var init := keys[..|keys| - 1];
      IndicatorOnce(init, x, w);
      assert keys == init + [keys[|keys| - 1]];
      if keys[|keys| - 1] == x {
        forall j | 0 <= j < |init| ensures init[j] != x {
          assert init[j] == keys[j];
        }
      }
    }
  }

  lemma {:induction false} KeySumStep(hs: seq<Holder>, byName: bool, keys: seq<string>, a: Amount)
    requires |hs| > 0
    ensures KeySum(hs, byName, keys, a) ==
            KeySum(hs[..|hs| - 1], byName, keys, a) + Indicator(keys, KeyOf(hs[|hs| - 1], byName), Weight(a, hs[|hs| - 1]))
  {
    if |keys| > 0 {
      KeySumStep(hs, byName, keys[..|keys| - 1], a);
    }
  }

  /** Each holder is credited under exactly one key, so summing the groups
      over distinct keys that cover every holder sums every holder once. */
  lemma {:induction false} KeysPartition(hs: seq<Holder>, byName: bool, keys: seq<string>, a: Amount)
    requires NoDuplicates(keys)
    requires forall i :: 0 <= i < |hs| ==> KeyOf(hs[i], byName) in keys
    ensures KeySum(hs, byName, keys, a) == HolderSum(hs, a)
  {
    if |hs| == 0 {
      KeySumEmpty(hs, byName, keys, a);
    } else {
      var init := hs[..|hs| - 1];
      KeysPartition(init, byName, keys, a);
      KeySumStep(hs, byName, keys, a);
      IndicatorOnce(keys, KeyOf(hs[|hs| - 1], byName), Weight(a, hs[|hs| - 1]));
    }
  }

  lemma {:induction false} KeySumEmpty(hs: seq<Holder>, byName: bool, keys: seq<string>, a: Amount)
    requires |hs| == 0
    ensures KeySum(hs, byName, keys, a) == 0.0
  {
    if |keys| > 0 {
      KeySumEmpty(hs, byName, keys[..|keys| - 1], a);
    }
  }

  lemma Distribute(r: real, x: real, y: real)
    ensures r * x + r * y == r * (x + y)
  {
  }

  lemma FracAdd(x: nat, y: nat, whole: nat)
    ensures Frac(x, whole) + Frac(y, whole) == Frac(x + y, whole)
  {
  }

  /** Pass 2 hands out the residual in proportion to the shares held. */
  lemma ProRataSum(hs: seq<Holder>, r: real, total: nat)
    ensures HolderSum(hs, ProRata(r, total)) == r * Frac(HolderShares(hs), total)
  {
    ProRataScale(hs, r, total);
    ProRataUnit(hs, total);
  }

  lemma {:induction false} ProRataScale(hs: seq<Holder>, r: real, total: nat)
    ensures HolderSum(hs, ProRata(r, total)) == r * HolderSum(hs, ProRata(1.0, total))
  {
    if |hs| > 0 {
      ProRataScale(hs[..|hs| - 1], r, total);
      Distribute(r, HolderSum(hs[..|hs| - 1], ProRata(1.0, total)), Weight(ProRata(1.0, total), hs[|hs| - 1]));
    }
  }

  lemma {:induction false} ProRataUnit(hs: seq<Holder>, total: nat)
    ensures HolderSum(hs, ProRata(1.0, total)) == Frac(HolderShares(hs), total)
  {
    if |hs| > 0 {
      ProRataUnit(hs[..|hs| - 1], total);
      FracAdd(HolderShares(hs[..|hs| - 1]), hs[|hs| - 1].shares, total);
    }
  }

  /** A class payment is handed out in proportion to the class's shares held. */
  lemma ClassStepSum(hs: seq<Holder>, c: WClass, p: real)
    ensures HolderSum(hs, ClassStep(c, p)) == p * Frac(LabelSharesOf(hs, c.name), c.shares)
  {
    ClassStepScale(hs, c, p);
    ClassStepUnit(hs, c);
  }

  lemma {:induction false} ClassStepScale(hs: seq<Holder>, c: WClass, p: real)
    ensures HolderSum(hs, ClassStep(c, p)) == p * HolderSum(hs, ClassStep(c, 1.0))
  {
    if |hs| > 0 {
      ClassStepScale(hs[..|hs| - 1], c, p);
      Distribute(p, HolderSum(hs[..|hs| - 1], ClassStep(c, 1.0)), Weight(ClassStep(c, 1.0), hs[|hs| - 1]));
    }
  }

  lemma {:induction false} ClassStepUnit(hs: seq<Holder>, c: WClass)
    ensures HolderSum(hs, ClassStep(c, 1.0)) == Frac(LabelSharesOf(hs, c.name), c.shares)
  {
    if |hs| > 0 {
      ClassStepUnit(hs[..|hs| - 1], c);
      FracAdd(LabelSharesOf(hs[..|hs| - 1], c.name), hs[|hs| - 1].shares, c.shares);
    }
  }

  lemma {:induction false} HolderSumPass1Step(hs: seq<Holder>, done: seq<WClass>, c: WClass, exitValue: real)
    ensures HolderSum(hs, Pass1Through(done + [c], exitValue)) ==
            HolderSum(hs, Pass1Through(done, exitValue)) +
            (if c.shareType == Preferred then HolderSum(hs, ClassStep(c, Payment(done, c, exitValue))) else 0.0)
  {
    assert (done + [c])[..|done|] == done;
    if |hs| > 0 {
      HolderSumPass1Step(hs[..|hs| - 1], done, c, exitValue);
    }
  }

  lemma {:induction false} HolderSumPass1Empty(hs: seq<Holder>, exitValue: real)
    ensures HolderSum(hs, Pass1Through([], exitValue)) == 0.0
  {
    if |hs| > 0 {
      HolderSumPass1Empty(hs[..|hs| - 1], exitValue);
    }
  }

  /** Every preferred class among `cs` has all of its label's shares and
      at least one. */
  ghost predicate PreferredHeld(hs: seq<Holder>, cs: seq<WClass>) {
    forall k :: 0 <= k < |cs| ==> cs[k].shareType == Preferred ==>
      cs[k].shares == LabelSharesOf(hs, cs[k].name) && cs[k].shares > 0
  }

  lemma FracWhole(n: nat)
    requires n > 0
    ensures Frac(n, n) == 1.0
  {
  }

  /** When every preferred class is held, pass 1 hands out exactly what it
      takes from the exit value. */
  lemma {:induction false} Pass1Conserves(hs: seq<Holder>, cs: seq<WClass>, exitValue: real)
    requires PreferredHeld(hs, cs)
    ensures HolderSum(hs, Pass1Through(cs, exitValue)) == exitValue - RemainingAfter(cs, exitValue)
  {
    if |cs| == 0 {
      HolderSumPass1Empty(hs, exitValue);
    } else {
      var init, c := cs[..|cs| - 1], cs[|cs| - 1];
      assert PreferredHeld(hs, init) by {
        forall k | 0 <= k < |init| ensures init[k] == cs[k] { }
      }
      Pass1Conserves(hs, init, exitValue);
      assert cs == init + [c];
      HolderSumPass1Step(hs, init, c, exitValue);
      if c.shareType == Preferred {
        ClassStepSum(hs, c, Payment(init, c, exitValue));
        FracWhole(c.shares);
      }
    }
  }

  // ---------------------------------------------------------------------
  // Conservation
  // ---------------------------------------------------------------------

  /** The proceeds credited under each of `keys`, summed. */
  function ProceedsSum(hs: seq<Holder>, totalShares: nat, exitValue: real, byName: bool, keys: seq<string>): real {
    if |keys| == 0 then 0.0
    else ProceedsSum(hs, totalShares, exitValue, byName, keys[..|keys| - 1]) +
         ProceedsUnder(hs, totalShares, exitValue, byName, keys[|keys| - 1])
  }

  lemma {:induction false} ProceedsSumSplit(hs: seq<Holder>, totalShares: nat, exitValue: real, byName: bool, keys: seq<string>)
    ensures ProceedsSum(hs, totalShares, exitValue, byName, keys) ==
            KeySum(hs, byName, keys, Pass1Through(SortedClasses(hs), exitValue)) +
            (if Residual(hs, exitValue) > 0.0
             then KeySum(hs, byName, keys, ProRata(Residual(hs, exitValue), totalShares)) else 0.0)
  {
    if |keys| > 0 {
      ProceedsSumSplit(hs, totalShares, exitValue, byName, keys[..|keys| - 1]);
    }
  }

  /** The classes pass 1 visits are the extracted classes, and each one
      holds all of its label's shares. */
  lemma SortedClassesHold(hs: seq<Holder>)
    requires forall k :: 0 <= k < |ClassesFrom(hs)| ==>
               ClassesFrom(hs)[k].shareType == Preferred ==> ClassesFrom(hs)[k].shares > 0
    ensures PreferredHeld(hs, SortedClasses(hs))
  {
    var cs := ClassesFrom(hs);
    var labels := FirstSeen(HolderLabels(hs));
    FirstSeenCorrect(HolderLabels(hs));
    SortDescCorrectFor(cs);
    forall k | 0 <= k < |SortedClasses(hs)| && SortedClasses(hs)[k].shareType == Preferred
      ensures SortedClasses(hs)[k].shares == LabelSharesOf(hs, SortedClasses(hs)[k].name) && SortedClasses(hs)[k].shares > 0
    {
      var c := SortedClasses(hs)[k];
      assert c in multiset(SortedClasses(hs));
      var j :| 0 <= j < |cs| && cs[j] == c;
      assert cs[j] == ClassFrom(hs, labels[j]);
    }
  }

  lemma SortDescCorrectFor(cs: seq<WClass>)
    ensures multiset(SortDesc(cs, Seniority)) == multiset(cs)
  {
    SortDescCorrect(cs, Seniority);
  }

  /** Distinct keys covering every holder see every share once. */
  lemma SplitConserves(hs: seq<Holder>, totalShares: nat, exitValue: real, byName: bool, keys: seq<string>)
    requires exitValue >= 0.0
    requires NoDuplicates(keys) && forall i :: 0 <= i < |hs| ==> KeyOf(hs[i], byName) in keys
    requires totalShares > 0 && HolderShares(hs) == totalShares
    requires PreferredHeld(hs, SortedClasses(hs))
    ensures ProceedsSum(hs, totalShares, exitValue, byName, keys) == exitValue
  {
    var r := Residual(hs, exitValue);
    ProceedsSumSplit(hs, totalShares, exitValue, byName, keys);
    KeysPartition(hs, byName, keys, Pass1Through(SortedClasses(hs), exitValue));
    Pass1Conserves(hs, SortedClasses(hs), exitValue);
    RemainingNonneg(SortedClasses(hs), exitValue);
    if r > 0.0 {
      KeysPartition(hs, byName, keys, ProRata(r, totalShares));
      ProRataSum(hs, r, totalShares);
      FracWhole(totalShares);
    }
  }

  function Names(hs: seq<Holder>): (r: seq<string>)
    ensures |r| == |hs| && forall i :: 0 <= i < |hs| ==> r[i] == hs[i].name
  {
    seq(|hs|, i requires 0 <= i < |hs| => hs[i].name)
  }

  /** The values of `m` at `keys`, summed. */
  function ValuesAt(m: map<string, real>, keys: seq<string>): real {
    if |keys| == 0 then 0.0
    else ValuesAt(m, keys[..|keys| - 1]) + (if keys[|keys| - 1] in m then m[keys[|keys| - 1]] else 0.0)
  }

  lemma {:induction false} ValuesAtTotals(hs: seq<Holder>, totalShares: nat, exitValue: real, byName: bool,
                                          keys: seq<string>, m: map<string, real>)
    requires forall k :: 0 <= k < |keys| ==> keys[k] in m && m[keys[k]] == ProceedsUnder(hs, totalShares, exitValue, byName, keys[k])
    ensures ValuesAt(m, keys) == ProceedsSum(hs, totalShares, exitValue, byName, keys)
  {
    if |keys| > 0 {
      ValuesAtTotals(hs, totalShares, exitValue, byName, keys[..|keys| - 1], m);
    }
  }

  /** The tables the conservation laws hold for: the fully diluted count is
      the holders' shares and positive, and every preferred class has shares. */
  ghost predicate FullyHeld(t: Table) {
    && Waterfall.TotalShares(t) > 0 && HolderShares(t.holders) == Waterfall.TotalShares(t)
    && forall k :: 0 <= k < |ClassesFrom(t.holders)| ==>
         ClassesFrom(t.holders)[k].shareType == Preferred ==> ClassesFrom(t.holders)[k].shares > 0
  }

  /** Summed over the share classes, the proceeds are the exit value. */
  lemma ClassProceedsConserve(t: Table, exitValue: real)
    requires exitValue >= 0.0 && FullyHeld(t)
    ensures ValuesAt(Scenario(t, exitValue).shareClassProceeds, FirstSeen(HolderLabels(t.holders))) == exitValue
  {
    var hs, total := t.holders, Waterfall.TotalShares(t);
    var labels := FirstSeen(HolderLabels(hs));
    var m := ClassTotals(hs, total, exitValue);
    FirstSeenCorrect(HolderLabels(hs));
    SortedClassesHold(hs);
    forall k | 0 <= k < |labels| ensures labels[k] in m && m[labels[k]] == ProceedsUnder(hs, total, exitValue, false, labels[k]) {
      assert ClassesFrom(hs)[k].name == labels[k];
    }
    ValuesAtTotals(hs, total, exitValue, false, labels, m);
    forall i | 0 <= i < |hs| ensures KeyOf(hs[i], false) in labels {
      assert HolderLabels(hs)[i] == hs[i].shareClass;
    }
    SplitConserves(hs, total, exitValue, false, labels);
  }

  /** Summed over the distinct holder names, the proceeds are the exit value. */
  lemma HolderProceedsConserve(t: Table, exitValue: real)
    requires exitValue >= 0.0 && FullyHeld(t)
    ensures ValuesAt(HolderTotals(t.holders, Waterfall.TotalShares(t), exitValue), FirstSeen(Names(t.holders))) == exitValue
  {
    var hs, total := t.holders, Waterfall.TotalShares(t);
    var names := FirstSeen(Names(hs));
    var m := HolderTotals(hs, total, exitValue);
    FirstSeenCorrect(Names(hs));
    SortedClassesHold(hs);
    forall k | 0 <= k < |names| ensures names[k] in m && m[names[k]] == ProceedsUnder(hs, total, exitValue, true, names[k]) {
      assert names[k] in Names(hs);
      var i :| 0 <= i < |hs| && Names(hs)[i] == names[k];
      assert names[k] in NameSet(hs);
    }
    ValuesAtTotals(hs, total, exitValue, true, names, m);
    forall i | 0 <= i < |hs| ensures KeyOf(hs[i], true) in names {
      assert Names(hs)[i] == hs[i].name;
    }
    SplitConserves(hs, total, exitValue, true, names);
  }

  // ---------------------------------------------------------------------
  // Who is paid when the exit does not cover the preferences
  // ---------------------------------------------------------------------

  lemma {:induction false} PreferredClaimsNonneg(cs: seq<WClass>)
    requires ClaimsNonneg(cs)
    ensures PreferredClaims(cs) >= 0.0
  {
    if |cs| > 0 {
      var init := cs[..|cs| - 1];
      assert ClaimsNonneg(init) by {
        forall k | 0 <= k < |init| ensures Claim(init[k]) >= 0.0 {
          assert init[k] == cs[k];
        }
      }
      PreferredClaimsNonneg(init);
    }
  }

  /** The amount `a` credited under `key` is 0 when every holder credited
      under `key` has 0 of it. */
  lemma {:induction false} GroupSumZero(hs: seq<Holder>, byName: bool, key: string, a: Amount)
    requires forall i :: 0 <= i < |hs| && KeyOf(hs[i], byName) == key ==> Weight(a, hs[i]) == 0.0
    ensures GroupSum(hs, byName, key, a) == 0.0
  {
    if |hs| > 0 {
      var init := hs[..|hs| - 1];
      forall i | 0 <= i < |init| && KeyOf(init[i], byName) == key ensures Weight(a, init[i]) == 0.0 {
        assert init[i] == hs[i];
      }
      GroupSumZero(init, byName, key, a);
    }
  }

  /** With non-negative claims an exit of 0 pays no class anything in pass 1. */
  lemma {:induction false} Pass1ZeroAtZero(h: Holder, cs: seq<WClass>)
    requires ClaimsNonneg(cs)
    ensures Pass1Share(h, cs, 0.0) == 0.0
  {
    if |cs| > 0 {
      var init, c := cs[..|cs| - 1], cs[|cs| - 1];
      assert ClaimsNonneg(init) by {
        forall k | 0 <= k < |init| ensures Claim(init[k]) >= 0.0 {
          assert init[k] == cs[k];
        }
      }
      Pass1ZeroAtZero(h, init);
      RemainingClosedForm(init, 0.0);
      PreferredClaimsNonneg(init);
      assert RemainingAfter(init, 0.0) == 0.0;
      assert Claim(c) >= 0.0;
      assert Payment(init, c, 0.0) == 0.0;
    }
  }

  /** Pass 1 credits a holder only through a preferred class of its label. */
  lemma {:induction false} Pass1OnlyPreferred(h: Holder, cs: seq<WClass>, exitValue: real)
    requires forall k :: 0 <= k < |cs| && cs[k].shareType == Preferred ==> cs[k].name != h.shareClass
    ensures Pass1Share(h, cs, exitValue) == 0.0
  {
    if |cs| > 0 {
      var init := cs[..|cs| - 1];
      forall k | 0 <= k < |init| && init[k].shareType == Preferred ensures init[k].name != h.shareClass {
        assert init[k] == cs[k];
      }
      Pass1OnlyPreferred(h, init, exitValue);
    }
  }

  /** A class typed preferred carries a preferred label. */
  lemma SortedPreferredLabels(hs: seq<Holder>)
    ensures forall k :: 0 <= k < |SortedClasses(hs)| && SortedClasses(hs)[k].shareType == Preferred ==>
              IsPreferredLabel(SortedClasses(hs)[k].name)
  {
    var cs := ClassesFrom(hs);
    var labels := FirstSeen(HolderLabels(hs));
    FirstSeenCorrect(HolderLabels(hs));
    SortDescCorrectFor(cs);
    forall k | 0 <= k < |SortedClasses(hs)| && SortedClasses(hs)[k].shareType == Preferred
      ensures IsPreferredLabel(SortedClasses(hs)[k].name)
    {
      var c := SortedClasses(hs)[k];
      assert c in multiset(SortedClasses(hs));
      var j :| 0 <= j < |cs| && cs[j] == c;
      assert cs[j] == ClassFrom(hs, labels[j]);
    }
  }

  /** Holders that invest nothing negative give classes non-negative claims. */
  lemma InvestedClaimsNonneg(hs: seq<Holder>)
    requires forall i :: 0 <= i < |hs| ==> hs[i].invested >= 0.0
    ensures ClaimsNonneg(SortedClasses(hs))
  {
    var cs := ClassesFrom(hs);
    var labels := FirstSeen(HolderLabels(hs));
    FirstSeenCorrect(HolderLabels(hs));
    SortDescCorrectFor(cs);
    forall k | 0 <= k < |SortedClasses(hs)| ensures Claim(SortedClasses(hs)[k]) >= 0.0 {
      var c := SortedClasses(hs)[k];
      assert c in multiset(SortedClasses(hs));
      var j :| 0 <= j < |cs| && cs[j] == c;
      assert cs[j] == ClassFrom(hs, labels[j]);
      ClassClaimNonneg(hs, labels[j]);
    }
  }

  lemma ClassClaimNonneg(hs: seq<Holder>, cl: string)
    requires cl in HolderLabels(hs)
    requires forall i :: 0 <= i < |hs| ==> hs[i].invested >= 0.0
    ensures Claim(ClassFrom(hs, cl)) >= 0.0
  {
    LabelInvestedNonneg(hs, cl);
  }

  lemma {:induction false} LabelInvestedNonneg(hs: seq<Holder>, cl: string)
    requires forall i :: 0 <= i < |hs| ==> hs[i].invested >= 0.0
    ensures LabelInvestedOf(hs, cl) >= 0.0
  {
    if |hs| > 0 {
      var init := hs[..|hs| - 1];
      forall i | 0 <= i < |init| ensures init[i].invested >= 0.0 {
        assert init[i] == hs[i];
      }
      LabelInvestedNonneg(init, cl);
    }
  }

  /** When the preferences (non-negative) absorb the whole exit, pass 1
      leaves nothing for pass 2, so the proceeds are pass 1's alone. */
  lemma ClaimsAbsorbExit(hs: seq<Holder>, totalShares: nat, exitValue: real, byName: bool, key: string)
    requires ClaimsNonneg(SortedClasses(hs))
    requires 0.0 <= exitValue <= PreferredClaims(SortedClasses(hs))
    ensures Residual(hs, exitValue) == 0.0
    ensures ProceedsUnder(hs, totalShares, exitValue, byName, key) ==
            GroupSum(hs, byName, key, Pass1Through(SortedClasses(hs), exitValue))
  {
    RemainingClosedForm(SortedClasses(hs), exitValue);
  }

  /** An exit of 0 pays nobody: with non-negative investments every holder
      name and every class is credited 0. */
  lemma ZeroExitNothingUnder(hs: seq<Holder>, totalShares: nat, byName: bool, key: string)
    requires forall i :: 0 <= i < |hs| ==> hs[i].invested >= 0.0
    ensures ProceedsUnder(hs, totalShares, 0.0, byName, key) == 0.0
  {
    var sorted := SortedClasses(hs);
    InvestedClaimsNonneg(hs);
    PreferredClaimsNonneg(sorted);
    ClaimsAbsorbExit(hs, totalShares, 0.0, byName, key);
    forall i | 0 <= i < |hs| && KeyOf(hs[i], byName) == key
      ensures Weight(Pass1Through(sorted, 0.0), hs[i]) == 0.0
    {
      Pass1ZeroAtZero(hs[i], sorted);
    }
    GroupSumZero(hs, byName, key, Pass1Through(sorted, 0.0));
  }

  /** When the preferences absorb the whole exit, a key whose holders are all
      in common (non-preferred) classes is credited 0. */
  lemma ClaimsCoverExitUnder(hs: seq<Holder>, totalShares: nat, exitValue: real, byName: bool, key: string)
    requires forall i :: 0 <= i < |hs| ==> hs[i].invested >= 0.0
    requires 0.0 <= exitValue <= PreferredClaims(SortedClasses(hs))
    requires forall i :: 0 <= i < |hs| && KeyOf(hs[i], byName) == key ==> !IsPreferredLabel(hs[i].shareClass)
    ensures ProceedsUnder(hs, totalShares, exitValue, byName, key) == 0.0
  {
    var sorted := SortedClasses(hs);
    InvestedClaimsNonneg(hs);
    ClaimsAbsorbExit(hs, totalShares, exitValue, byName, key);
    SortedPreferredLabels(hs);
    forall i | 0 <= i < |hs| && KeyOf(hs[i], byName) == key
      ensures Weight(Pass1Through(sorted, exitValue), hs[i]) == 0.0
    {
      Pass1OnlyPreferred(hs[i], sorted, exitValue);
    }
    GroupSumZero(hs, byName, key, Pass1Through(sorted, exitValue));
  }

  /** Every holder name in `hs` that `n` names is held only in common classes. */
  ghost predicate CommonOnly(hs: seq<Holder>, n: string) {
    forall i :: 0 <= i < |hs| && hs[i].name == n ==> !IsPreferredLabel(hs[i].shareClass)
  }

  /** At an exit of 0 (and non-negative investments) every holder record
      and every class total of the scenario is 0, and nothing is
      distributed. */
  lemma ZeroExitPaysNobody(t: Table)
    requires forall i :: 0 <= i < |t.holders| ==> t.holders[i].invested >= 0.0
    ensures var s := Scenario(t, 0.0);
      && |s.holdersProceeds| == |t.holders|
      && (forall j :: 0 <= j < |s.holdersProceeds| ==> s.holdersProceeds[j].proceeds == 0.0)
      && (forall c :: c in s.shareClassProceeds ==> s.shareClassProceeds[c] == 0.0)
      && s.totalDistributed == 0.0
  {
    var hs, total := t.holders, Waterfall.TotalShares(t);
    var hp, cp := HolderTotals(hs, total, 0.0), ClassTotals(hs, total, 0.0);
    forall j | 0 <= j < |hs| ensures hs[j].name in hp && hp[hs[j].name] == 0.0 {
      assert hs[j].name in NameSet(hs);
      ZeroExitNothingUnder(hs, total, true, hs[j].name);
    }
    forall c | c in cp ensures cp[c] == 0.0 {
      ZeroExitNothingUnder(hs, total, false, c);
    }
    ScenarioDistributesAll(t, 0.0);
  }

  /** When the exit is within the (non-negative) preferences, every class
      that is not preferred, and every holder whose name is held only in
      such classes, is credited 0. */
  lemma ClaimsCoverExit(t: Table, exitValue: real)
    requires forall i :: 0 <= i < |t.holders| ==> t.holders[i].invested >= 0.0
    requires 0.0 <= exitValue <= PreferredClaims(SortedClasses(t.holders))
    ensures var s := Scenario(t, exitValue);
      && |s.holdersProceeds| == |t.holders|
      && (forall j :: 0 <= j < |s.holdersProceeds| && CommonOnly(t.holders, t.holders[j].name) ==>
            s.holdersProceeds[j].proceeds == 0.0)
      && (forall c :: c in s.shareClassProceeds && !IsPreferredLabel(c) ==> s.shareClassProceeds[c] == 0.0)
  {
    var hs, total := t.holders, Waterfall.TotalShares(t);
    var hp, cp := HolderTotals(hs, total, exitValue), ClassTotals(hs, total, exitValue);
    forall j | 0 <= j < |hs| && CommonOnly(hs, hs[j].name) ensures hs[j].name in hp && hp[hs[j].name] == 0.0 {
      assert hs[j].name in NameSet(hs);
      ClaimsCoverExitUnder(hs, total, exitValue, true, hs[j].name);
    }
    forall c | c in cp && !IsPreferredLabel(c) ensures cp[c] == 0.0 {
      ClaimsCoverExitUnder(hs, total, exitValue, false, c);
    }
  }

  // ---------------------------------------------------------------------
  // One common holder and one preferred holder
  // ---------------------------------------------------------------------

  /** Two holders under distinct names and labels, the first common, the
      second preferred with shares. */
  ghost predicate CommonAndPreferred(f: Holder, p: Holder) {
    && f.name != p.name && f.shareClass != p.shareClass
    && !IsPreferredLabel(f.shareClass) && IsPreferredLabel(p.shareClass) && p.shares > 0
  }

  function ClassOfHolder(h: Holder): WClass {
    OpenClass(h.shareClass, h.pricePerShare).(shares := h.shares, totalInvested := h.invested)
  }

  lemma TwoLabels(f: Holder, p: Holder)
    requires CommonAndPreferred(f, p)
    ensures HolderLabels([f, p]) == [f.shareClass, p.shareClass]
    ensures FirstSeen(HolderLabels([f, p])) == [f.shareClass, p.shareClass]
  {
    var labels := HolderLabels([f, p]);
    assert labels[..1] == [f.shareClass] && labels[..1][..0] == [];
    assert FirstSeen(labels[..1]) == [f.shareClass];
    assert p.shareClass !in [f.shareClass];
  }

  lemma TwoClasses(f: Holder, p: Holder)
    requires CommonAndPreferred(f, p)
    ensures ClassesFrom([f, p]) == [ClassOfHolder(f), ClassOfHolder(p)]
    ensures SortedClasses([f, p]) == [ClassOfHolder(p), ClassOfHolder(f)]
  {
    var hs := [f, p];
    TwoLabels(f, p);
    assert hs[..1] == [f] && hs[..1][..0] == [];
    var labels := HolderLabels(hs);
    assert FirstIndex(labels, f.shareClass) == 0;
    assert FirstIndex(labels, p.shareClass) == 1;
    assert LabelSharesOf(hs[..1], f.shareClass) == f.shares && LabelInvestedOf(hs[..1], f.shareClass) == f.invested;
    assert LabelSharesOf(hs[..1], p.shareClass) == 0 && LabelInvestedOf(hs[..1], p.shareClass) == 0.0;
    assert ClassFrom(hs, f.shareClass) == ClassOfHolder(f);
    assert ClassFrom(hs, p.shareClass) == ClassOfHolder(p);
    var cs := [ClassOfHolder(f), ClassOfHolder(p)];
    assert cs[..1] == [ClassOfHolder(f)] && cs[..1][..0] == [];
    assert Seniority(ClassOfHolder(p)) > Seniority(ClassOfHolder(f));
    assert SortDesc(cs[..1], Seniority) == [ClassOfHolder(f)];
  }

  lemma TwoPass1(f: Holder, p: Holder, e: real)
    requires CommonAndPreferred(f, p)
    ensures Pass1Share(f, [ClassOfHolder(p), ClassOfHolder(f)], e) == 0.0
    ensures Pass1Share(p, [ClassOfHolder(p), ClassOfHolder(f)], e) == Min(p.invested, e)
    ensures RemainingAfter([ClassOfHolder(p), ClassOfHolder(f)], e) == e - Min(p.invested, e)
  {
    var cp, cf := ClassOfHolder(p), ClassOfHolder(f);
    var cs := [cp, cf];
    assert cs[..1] == [cp] && cs[..1][..0] == [];
    assert cp.shareType == Preferred && cf.shareType == Common;
    assert Claim(cp) == p.invested;
    assert Payment([], cp, e) == Min(p.invested, e);
    FracWhole(p.shares);
    assert Pass1Share(f, [cp], e) == 0.0;
    assert Pass1Share(p, [cp], e) == Min(p.invested, e);
  }

  /** The classes of two holders, one common and one preferred, in pass-1
      order. */
  lemma TwoSorted(hs: seq<Holder>)
    requires |hs| == 2 && CommonAndPreferred(hs[0], hs[1])
    ensures SortedClasses(hs) == [ClassOfHolder(hs[1]), ClassOfHolder(hs[0])]
  {
    assert hs == [hs[0], hs[1]];
    TwoClasses(hs[0], hs[1]);
  }

  /** What is left of an exit once preferred holder `p` has its investment
      back. */
  function PastPreference(p: Holder, e: real): real {
    e - Min(p.invested, e)
  }

  /** With one common holder (at 0) and one preferred holder (at 1), for any
      exit the preferred holder takes its investment back first (as far as
      the exit goes), and both then share what is left by their fraction of
      the total shares; by name and by share class alike. */
  lemma TwoProceeds(hs: seq<Holder>, total: nat, e: real, byName: bool, k: nat)
    requires |hs| == 2 && k < 2 && CommonAndPreferred(hs[0], hs[1])
    ensures var r := PastPreference(hs[1], e);
      ProceedsUnder(hs, total, e, byName, KeyOf(hs[k], byName)) ==
        (if k == 1 then Min(hs[1].invested, e) else 0.0) + (if r > 0.0 then r * Frac(hs[k].shares, total) else 0.0)
  {
    TwoSorted(hs);
    TwoPass1(hs[0], hs[1], e);
    var sorted := [ClassOfHolder(hs[1]), ClassOfHolder(hs[0])];
    OneProceeds(hs, sorted, total, e, byName, KeyOf(hs[k], byName), k, Pass1Share(hs[k], sorted, e), PastPreference(hs[1], e));
  }

  /** Of two holders, only the one at `k` is credited under `key`: the group
      gets what pass 1 gives that holder plus its pro-rata part of the rest. */
  lemma OneProceeds(hs: seq<Holder>, sorted: seq<WClass>, total: nat, e: real, byName: bool, key: string, k: nat, w: real, r: real)
    requires |hs| == 2 && k < 2 && SortedClasses(hs) == sorted && RemainingAfter(sorted, e) == r
    requires KeyOf(hs[k], byName) == key && KeyOf(hs[1 - k], byName) != key
    requires Pass1Share(hs[k], sorted, e) == w
    ensures ProceedsUnder(hs, total, e, byName, key) == w + (if r > 0.0 then r * Frac(hs[k].shares, total) else 0.0)
  {
    SplitUnder(hs, sorted, total, e, byName, key, r);
    OnlyOne(hs, sorted, total, e, byName, key, k, w, r);
  }

  lemma OnlyOne(hs: seq<Holder>, sorted: seq<WClass>, total: nat, e: real, byName: bool, key: string, k: nat, w: real, r: real)
    requires |hs| == 2 && k < 2
    requires KeyOf(hs[k], byName) == key && KeyOf(hs[1 - k], byName) != key
    requires Pass1Share(hs[k], sorted, e) == w
    ensures GroupSum(hs, byName, key, Pass1Through(sorted, e)) + (if r > 0.0 then GroupSum(hs, byName, key, ProRata(r, total)) else 0.0)
        == w + (if r > 0.0 then r * Frac(hs[k].shares, total) else 0.0)
  {
    Pass1OfOne(hs, sorted, e, byName, key, k, w);
    ProRataOfOne(hs, r, total, byName, key, k);
  }

  lemma Pass1OfOne(hs: seq<Holder>, sorted: seq<WClass>, e: real, byName: bool, key: string, k: nat, w: real)
    requires |hs| == 2 && k < 2
    requires KeyOf(hs[k], byName) == key && KeyOf(hs[1 - k], byName) != key
    requires Pass1Share(hs[k], sorted, e) == w
    ensures GroupSum(hs, byName, key, Pass1Through(sorted, e)) == w
  {
    OneOfTwo(hs, byName, key, k, Pass1Through(sorted, e), w);
  }

  lemma ProRataOfOne(hs: seq<Holder>, r: real, total: nat, byName: bool, key: string, k: nat)
    requires |hs| == 2 && k < 2
    requires KeyOf(hs[k], byName) == key && KeyOf(hs[1 - k], byName) != key
    ensures GroupSum(hs, byName, key, ProRata(r, total)) == r * Frac(hs[k].shares, total)
  {
    WeightProRata(hs[k], r, total);
    OneOfTwo(hs, byName, key, k, ProRata(r, total), r * Frac(hs[k].shares, total));
  }

  /** Of two holders, only the one at `k` is credited under `key`: the group
      sum is that holder's weight. */
  lemma OneOfTwo(hs: seq<Holder>, byName: bool, key: string, k: nat, a: Amount, w: real)
    requires |hs| == 2 && k < 2
    requires KeyOf(hs[k], byName) == key && KeyOf(hs[1 - k], byName) != key
    requires Weight(a, hs[k]) == w
    ensures GroupSum(hs, byName, key, a) == w
  {
    GroupSumOfTwo(hs, byName, key, a);
  }

  lemma WeightProRata(h: Holder, r: real, total: nat)
    ensures Weight(ProRata(r, total), h) == r * Frac(h.shares, total)
  {
  }

  lemma SplitUnder(hs: seq<Holder>, sorted: seq<WClass>, total: nat, e: real, byName: bool, key: string, r: real)
    requires SortedClasses(hs) == sorted && RemainingAfter(sorted, e) == r
    ensures ProceedsUnder(hs, total, e, byName, key) ==
            GroupSum(hs, byName, key, Pass1Through(sorted, e)) + (if r > 0.0 then GroupSum(hs, byName, key, ProRata(r, total)) else 0.0)
  {
  }

  lemma GroupSumOfTwo(hs: seq<Holder>, byName: bool, key: string, a: Amount)
    requires |hs| == 2
    ensures GroupSum(hs, byName, key, a) ==
            (if KeyOf(hs[0], byName) == key then Weight(a, hs[0]) else 0.0) +
            (if KeyOf(hs[1], byName) == key then Weight(a, hs[1]) else 0.0)
  {
    assert hs[..1][..0] == [];
    assert hs[..1][0] == hs[0];
    assert GroupSum(hs[..1], byName, key, a) == (if KeyOf(hs[0], byName) == key then Weight(a, hs[0]) else 0.0);
  }

  lemma TwoKeys(f: Holder, p: Holder)
    requires CommonAndPreferred(f, p)
    ensures NameSet([f, p]) == {f.name, p.name}
    ensures ClassNameSet(ClassesFrom([f, p])) == {f.shareClass, p.shareClass}
  {
    TwoClasses(f, p);
    var cs := [ClassOfHolder(f), ClassOfHolder(p)];
    assert ClassNameSet(cs) == {cs[0].name, cs[1].name};
    var hs := [f, p];
    assert NameSet(hs) == {hs[0].name, hs[1].name};
  }

  /** The table of a seed round: 8,000,000 common shares and 2,000,000
      preferred shares bought for $5,000,000, fully diluted 10,000,000. */
  ghost predicate SeedTable(t: Table) {
    && |t.holders| == 2 && CommonAndPreferred(t.holders[0], t.holders[1])
    && t.holders[0].shares == 8000000 && t.holders[1].shares == 2000000
    && t.holders[1].invested == 5000000.0 && t.fullyDilutedShares == Some(10000000)
  }

  /** What the seed table's holders get at an exit of `e` (from `SeedSplit`). */
  function SeedFounder(e: real): real {
    var r := e - Min(5000000.0, e);
    if r > 0.0 then r * 0.8 else 0.0
  }

  function SeedInvestor(e: real): real {
    var r := e - Min(5000000.0, e);
    Min(5000000.0, e) + (if r > 0.0 then r * 0.2 else 0.0)
  }

  /** Any exit `e` of the seed table: the investor is paid up to $5M
      first, then what is left splits 80/20 by shares. */
  lemma SeedSplit(t: Table, e: real)
    requires SeedTable(t)
    ensures var hs := t.holders;
      && ProceedsUnder(hs, Waterfall.TotalShares(t), e, true, hs[0].name) == SeedFounder(e)
      && ProceedsUnder(hs, Waterfall.TotalShares(t), e, true, hs[1].name) == SeedInvestor(e)
  {
    TwoProceeds(t.holders, 10000000, e, true, 0);
    TwoProceeds(t.holders, 10000000, e, true, 1);
    SeedFractions();
  }

  lemma SeedFractions()
    ensures Frac(8000000, 10000000) == 0.8 && Frac(2000000, 10000000) == 0.2
  {
  }

  /** The same split, by share class. */
  lemma SeedClassSplit(t: Table, e: real)
    requires SeedTable(t)
    ensures var hs := t.holders;
      && ProceedsUnder(hs, Waterfall.TotalShares(t), e, false, hs[0].shareClass) == SeedFounder(e)
      && ProceedsUnder(hs, Waterfall.TotalShares(t), e, false, hs[1].shareClass) == SeedInvestor(e)
  {
    TwoProceeds(t.holders, 10000000, e, false, 0);
    TwoProceeds(t.holders, 10000000, e, false, 1);
    SeedFractions();
  }

  /** The holder rows of the seed table's scenario. */
  lemma SeedHolders(t: Table, e: real)
    requires SeedTable(t)
    ensures var s := Scenario(t, e);
      s.holdersProceeds == [HolderProceedsOf(t.holders[0], SeedFounder(e), e), HolderProceedsOf(t.holders[1], SeedInvestor(e), e)]
  {
    var f, p := t.holders[0], t.holders[1];
    assert t.holders == [f, p];
    TwoKeys(f, p);
    SeedSplit(t, e);
    var hp := HolderTotals(t.holders, Waterfall.TotalShares(t), e);
    assert hp[f.name] == SeedFounder(e) && hp[p.name] == SeedInvestor(e);
  }

  /** The class totals and the remainder of the seed table's scenario. */
  lemma SeedClasses(t: Table, e: real)
    requires SeedTable(t)
    ensures var s, f, p := Scenario(t, e), t.holders[0], t.holders[1];
      && f.shareClass in s.shareClassProceeds && s.shareClassProceeds[f.shareClass] == SeedFounder(e)
      && p.shareClass in s.shareClassProceeds && s.shareClassProceeds[p.shareClass] == SeedInvestor(e)
  {
    var f, p := t.holders[0], t.holders[1];
    assert t.holders == [f, p];
    TwoKeys(f, p);
    SeedClassSplit(t, e);
  }

  lemma SeedRemaining(t: Table, e: real)
    requires SeedTable(t)
    ensures var s, r := Scenario(t, e), e - Min(5000000.0, e);
      && s.remaining == (if r > 0.0 then 0.0 else r)
      && s.totalDistributed == e - s.remaining
  {
    var f, p := t.holders[0], t.holders[1];
    assert t.holders == [f, p];
    TwoClasses(f, p);
    TwoPass1(f, p, e);
  }

  /** A $3M exit, below the $5M preference: the investor takes all of it,
      for an ROI of -0.4, the founder nothing, and pass 2 never runs. */
  lemma SeedLowExit(t: Table)
    requires SeedTable(t)
    ensures var s := Scenario(t, 3000000.0);
      && |s.holdersProceeds| == 2
      && s.holdersProceeds[0].proceeds == 0.0
      && s.holdersProceeds[1].proceeds == 3000000.0
      && s.holdersProceeds[1].roi == -0.4
      && t.holders[1].shareClass in s.shareClassProceeds
      && s.shareClassProceeds[t.holders[1].shareClass] == 3000000.0
      && s.remaining == 0.0
  {
    SeedHolders(t, 3000000.0);
    SeedClasses(t, 3000000.0);
    SeedRemaining(t, 3000000.0);
  }

  /** A $50M exit: the investor takes its $5M preference, then both split the
      $45M left 20/80, for $14M (an ROI of 1.8, 28% of the exit) and $36M. */
  lemma SeedHighExit(t: Table)
    requires SeedTable(t)
    ensures var s := Scenario(t, 50000000.0);
      && |s.holdersProceeds| == 2
      && s.holdersProceeds[0].proceeds == 36000000.0
      && s.holdersProceeds[1].proceeds == 14000000.0
      && s.holdersProceeds[1].roi == 1.8
      && s.holdersProceeds[1].proceedsPct == 28.0
      && t.holders[0].shareClass in s.shareClassProceeds
      && s.shareClassProceeds[t.holders[0].shareClass] == 36000000.0
      && s.totalDistributed == 50000000.0
  {
    SeedHolders(t, 50000000.0);
    SeedClasses(t, 50000000.0);
    SeedRemaining(t, 50000000.0);
  }
}
