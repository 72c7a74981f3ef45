/** The cap-table parser (skills/cap-table-modeling/scripts/parse_captable.py):
    column-name normalisation, export-format detection, holder-type inference,
    and the construction of a canonical cap table from holder rows, with its
    summary statistics. */
module ParseCapTable {
  import opened Wrappers
  import opened Text
  import opened Sequences

  // ---------------------------------------------------------------------
  // Records
  // ---------------------------------------------------------------------

  datatype ShareType = Common | Preferred | Options

  datatype ShareClass = ShareClass(
    name: string,
    shareType: ShareType,
    authorized: nat,
    issued: nat,
    outstanding: nat,
    pricePerShare: real,
    liquidationPreference: real,
    participating: bool,
    conversionRatio: real,
    seniority: int)

  datatype Holder = Holder(
    name: string,
    holderType: string,
    shareClass: string,
    shares: nat,
    pricePerShare: real,
    invested: real,
    ownershipPct: real,
    fullyDilutedPct: real,
    vestingStart: Option<string>,
    vestingEnd: Option<string>,
    vestedShares: nat)

  datatype CapTable = CapTable(
    companyName: string,
    asOfDate: string,
    totalSharesAuthorized: nat,
    totalSharesOutstanding: nat,
    fullyDilutedShares: nat,
    shareClasses: seq<ShareClass>,
    holders: seq<Holder>,
    optionPoolShares: nat,
    optionPoolPct: real)

  /** One spreadsheet row, holding the already converted cell value it carries
      under each canonical column. A value is read only when the frame has a
      column of that name after normalisation; otherwise the source's default
      applies. */
  datatype Row = Row(
    holder: string,
    shareClass: string,
    shares: nat,
    pricePerShare: real,
    invested: real,
    ownershipPct: real,
    holderType: string)

  /** A data frame: its raw column names and its rows. */
  datatype Frame = Frame(columns: seq<string>, rows: seq<Row>)

  // ---------------------------------------------------------------------
  // Format detection and column normalisation
  // ---------------------------------------------------------------------

  datatype Format = Carta | Pulley | Generic

  function LowerAll(cols: seq<string>): (r: seq<string>)
    ensures |r| == |cols| && forall i :: 0 <= i < |cols| ==> r[i] == LowerStr(cols[i])
  {
    seq(|cols|, i requires 0 <= i < |cols| => LowerStr(cols[i]))
  }

  /** Carta markers win over Pulley markers; anything else is generic. */
  function DetectFormat(columns: seq<string>): (f: Format)
  {
    var lower := LowerAll(columns);
    if "security type" in lower || "certificate" in lower then Carta
    else if "grant type" in lower || "stakeholder" in lower then Pulley
    else Generic
  }

  /** Format detection ignores the case of column names. */
  lemma DetectFormatCaseInsensitive(columns: seq<string>)
    ensures DetectFormat(LowerAll(columns)) == DetectFormat(columns)
  {
    var l := LowerAll(columns);
    forall i | 0 <= i < |l| ensures LowerAll(l)[i] == l[i] {
      LowerStrIdempotent(columns[i]);
    }
    assert LowerAll(l) == l;
  }

  /** Some column is, once lower-cased, one of the two names. */
  predicate HasMarker(columns: seq<string>, a: string, b: string) {
    exists i :: 0 <= i < |columns| && (LowerStr(columns[i]) == a || LowerStr(columns[i]) == b)
  }

  /** The precedence of the markers: Carta exactly when a Carta column is
      present, Pulley exactly when a Pulley column is present and no Carta
      column, generic exactly when neither is. */
  lemma DetectFormatMarkers(columns: seq<string>)
    ensures var carta, pulley := HasMarker(columns, "security type", "certificate"),
                                 HasMarker(columns, "grant type", "stakeholder");
      && (DetectFormat(columns) == Carta <==> carta)
      && (DetectFormat(columns) == Pulley <==> !carta && pulley)
      && (DetectFormat(columns) == Generic <==> !carta && !pulley)
  {
    var lower := LowerAll(columns);
    MarkerIn(columns, lower, "security type", "certificate");
    MarkerIn(columns, lower, "grant type", "stakeholder");
  }

  lemma MarkerIn(columns: seq<string>, lower: seq<string>, a: string, b: string)
    requires lower == LowerAll(columns)
    ensures HasMarker(columns, a, b) <==> a in lower || b in lower
  {
    if a in lower || b in lower {
      var i :| 0 <= i < |lower| && (lower[i] == a || lower[i] == b);
      assert LowerStr(columns[i]) == lower[i];
    }
  }

  /** The rename table applied after lower-casing, stripping and turning
      spaces into underscores. */
  const ColumnMap: map<string, string> := map[
    "stakeholder" := "holder",
    "shareholder" := "holder",
    "name" := "holder",
    "security_type" := "share_class",
    "class" := "share_class",
    "type" := "holder_type",
    "quantity" := "shares",
    "share_count" := "shares",
    "number_of_shares" := "shares",
    "cost_basis" := "invested",
    "investment" := "invested",
    "amount_invested" := "invested",
    "pps" := "price_per_share",
    "share_price" := "price_per_share",
    "ownership" := "ownership_pct",
    "percent" := "ownership_pct",
    "%" := "ownership_pct"
  ]

  /** A column name in normal form: no upper-case letter, no space, and no
      whitespace at either end. */
  ghost predicate Canonical(n: string) {
    && (forall i :: 0 <= i < |n| ==> !('A' <= n[i] <= 'Z') && n[i] != ' ')
    && (n == [] || (!IsSpace(n[0]) && !IsSpace(n[|n| - 1])))
  }

  /** `name.lower().strip().replace(' ', '_')`. */
  function CanonicalName(c: string): (n: string)
    ensures Canonical(n)
  {
    var s := Strip(LowerStr(c));
    StripNoUpper(LowerStr(c));
    ReplacedCanonical(s);
    ReplaceChar(s, ' ', '_')
  }

  lemma ReplacedCanonical(s: string)
    requires NoUpper(s) && (s == [] || (!IsSpace(s[0]) && !IsSpace(s[|s| - 1])))
    ensures Canonical(ReplaceChar(s, ' ', '_'))
  {
    var n := ReplaceChar(s, ' ', '_');
    forall i | 0 <= i < |n| ensures !('A' <= n[i] <= 'Z') && n[i] != ' ' {
      assert n[i] == if s[i] == ' ' then '_' else s[i];
    }
    if n != [] {
      assert n[0] == s[0] && n[|n| - 1] == s[|s| - 1];
    }
  }

  /** One normalised column name. */
  function NormalizeColumn(c: string): (r: string)
    ensures Canonical(r)
  {
    var n := CanonicalName(c);
    ColumnMapCanonical();
    if n in ColumnMap then ColumnMap[n] else n
  }

  /** The canonical field names the rename table produces. */
  const CanonicalFields: set<string> :=
    {"holder", "share_class", "holder_type", "shares", "invested", "price_per_share", "ownership_pct"}

  lemma ColumnMapTargets()
    ensures forall k :: k in ColumnMap ==> ColumnMap[k] in CanonicalFields
  {
  }

  lemma FieldFixed(v: string)
    requires v in CanonicalFields
    ensures Canonical(v) && v !in ColumnMap
  {
    FieldNotRenamed(v);
    forall i | 0 <= i < |v| ensures !('A' <= v[i] <= 'Z') && v[i] != ' ' {
      assert 'a' <= v[i] <= 'z' || v[i] == '_';
    }
  }

  lemma FieldNotRenamed(v: string)
    requires v in CanonicalFields
    ensures v !in ColumnMap
  {
  }

  lemma CanonicalFieldsFixed()
    ensures forall v :: v in CanonicalFields ==> Canonical(v) && v !in ColumnMap
  {
    forall v | v in CanonicalFields ensures Canonical(v) && v !in ColumnMap {
      FieldFixed(v);
    }
  }

  lemma ColumnMapCanonical()
    ensures forall k :: k in ColumnMap ==> Canonical(ColumnMap[k]) && ColumnMap[k] !in ColumnMap
  {
    ColumnMapTargets();
    CanonicalFieldsFixed();
  }

  /** `normalize_columns`: every column is renamed to its normal form,
      positions and count preserved. */
  function NormalizeColumns(cols: seq<string>): (r: seq<string>)
    ensures |r| == |cols|
    ensures forall i :: 0 <= i < |cols| ==> r[i] == NormalizeColumn(cols[i]) && Canonical(r[i])
  {
    seq(|cols|, i requires 0 <= i < |cols| => NormalizeColumn(cols[i]))
  }

  lemma CanonicalFixed(n: string)
    requires Canonical(n)
    ensures CanonicalName(n) == n
  {
    assert LowerStr(n) == n by { LowerFixed(n); }
    assert Strip(n) == n by { StripFixed(n); }
    assert ReplaceChar(n, ' ', '_') == n by { ReplaceFixed(n); }
  }

  lemma LowerFixed(n: string)
    requires forall i :: 0 <= i < |n| ==> !('A' <= n[i] <= 'Z')
    ensures LowerStr(n) == n
  {
  }

  lemma StripFixed(n: string)
    requires n == [] || (!IsSpace(n[0]) && !IsSpace(n[|n| - 1]))
    ensures Strip(n) == n
  {
    if |n| > 0 {
      assert StripLeft(n) == n;
      assert StripRight(n) == n;
    }
  }

  lemma ReplaceFixed(n: string)
    requires forall i :: 0 <= i < |n| ==> n[i] != ' '
    ensures ReplaceChar(n, ' ', '_') == n
  {
  }

  /** Only names found in the rename table are renamed; every other column
      keeps its (normalised) name; and normalising twice changes nothing. */
  lemma NormalizeColumnsProperties(cols: seq<string>)
    ensures forall i :: 0 <= i < |cols| && CanonicalName(cols[i]) !in ColumnMap ==>
              NormalizeColumns(cols)[i] == CanonicalName(cols[i])
    ensures forall i :: 0 <= i < |cols| && CanonicalName(cols[i]) in ColumnMap ==>
              NormalizeColumns(cols)[i] == ColumnMap[CanonicalName(cols[i])]
    ensures NormalizeColumns(NormalizeColumns(cols)) == NormalizeColumns(cols)
  {
    var r := NormalizeColumns(cols);
    forall i | 0 <= i < |r| ensures NormalizeColumn(r[i]) == r[i] {
      CanonicalFixed(r[i]);
      ColumnMapCanonical();
    }
  }

  // ---------------------------------------------------------------------
  // Holder-type inference
  // ---------------------------------------------------------------------

  /** The holder types inference can produce. */
  const InferredTypes: set<string> := {"founder", "pool", "investor", "employee", "other"}

  predicate NamesFounder(hl: string) { Contains(hl, "founder") }

  predicate NamesPool(hl: string) {
    Contains(hl, "pool") || Contains(hl, "esop") || Contains(hl, "option")
  }

  predicate NamesFirm(hl: string) {
    Contains(hl, "ventures") || Contains(hl, "capital") || Contains(hl, "partners") ||
    Contains(hl, "fund") || Contains(hl, "investor")
  }

  /** `infer_holder_type`: the first matching rule wins, in the order founder,
      pool, investor firm, preferred class, common-class employee, other; all
      tests are on lower-cased text. */
  function InferHolderType(holderName: string, shareClass: string): (t: string)
    ensures t in InferredTypes
  {
    var hl := LowerStr(holderName);
    var cl := LowerStr(shareClass);
    if NamesFounder(hl) then "founder"
    else if NamesPool(hl) then "pool"
    else if NamesFirm(hl) then "investor"
    else if Contains(cl, "preferred") then "investor"
    else if Contains(cl, "common") && Contains(hl, "employee") then "employee"
    else "other"
  }

  /** Each inferred type, stated as the condition under which inference
      produces it: a rule applies only when no earlier rule did. */
  lemma InferHolderTypeRules(holderName: string, shareClass: string)
    ensures var t, hl, cl := InferHolderType(holderName, shareClass), LowerStr(holderName), LowerStr(shareClass);
      && (t == "founder" <==> NamesFounder(hl))
      && (t == "pool" <==> !NamesFounder(hl) && NamesPool(hl))
      && (t == "investor" <==>
            !NamesFounder(hl) && !NamesPool(hl) && (NamesFirm(hl) || Contains(cl, "preferred")))
      && (t == "employee" <==>
            !NamesFounder(hl) && !NamesPool(hl) && !NamesFirm(hl) && !Contains(cl, "preferred") &&
            Contains(cl, "common") && Contains(hl, "employee"))
      && (t == "other" <==>
            !NamesFounder(hl) && !NamesPool(hl) && !NamesFirm(hl) && !Contains(cl, "preferred") &&
            !(Contains(cl, "common") && Contains(hl, "employee")))
  {
  }

  /** Inference does not depend on letter case. */
  lemma InferHolderTypeCaseInsensitive(holderName: string, shareClass: string)
    ensures InferHolderType(LowerStr(holderName), LowerStr(shareClass))
            == InferHolderType(holderName, shareClass)
  {
    LowerStrIdempotent(holderName);
    LowerStrIdempotent(shareClass);
  }

  // ---------------------------------------------------------------------
  // Parsing a frame
  // ---------------------------------------------------------------------

  /** Sum of the rows' share cells. */
  function RowShares(rows: seq<Row>): nat {
    if |rows| == 0 then 0 else RowShares(rows[..|rows| - 1]) + rows[|rows| - 1].shares
  }

  /** Sum of the rows' share cells over the rows labelled `cl`. */
  function LabelShares(rows: seq<Row>, cl: string): nat {
    if |rows| == 0 then 0
    else LabelShares(rows[..|rows| - 1], cl) +
         (if rows[|rows| - 1].shareClass == cl then rows[|rows| - 1].shares else 0)
  }

  function RowLabels(rows: seq<Row>): (r: seq<string>)
    ensures |r| == |rows| && forall i :: 0 <= i < |rows| ==> r[i] == rows[i].shareClass
  {
    seq(|rows|, i requires 0 <= i < |rows| => rows[i].shareClass)
  }

  /** `df['shares'].sum() if 'shares' in df.columns else 0`. */
  function TotalShares(f: Frame): nat {
    if "shares" in NormalizeColumns(f.columns) then RowShares(f.rows) else 0
  }

  /** The holder built from one row (`cols` are the normalised columns,
      `total` the frame's total shares). The ownership percentage is left
      unrounded. */
  function HolderOf(cols: seq<string>, total: nat, row: Row): Holder {
    var name := if "holder" in cols then row.holder else "Unknown";
    var shareClass := if "share_class" in cols then row.shareClass else "common";
    var shares := if "shares" in cols then row.shares else 0;
    var price := if "price_per_share" in cols then row.pricePerShare else 0.0;
    var invested := if "invested" in cols then row.invested else 0.0;
    var holderType := if "holder_type" in cols then row.holderType
                      else InferHolderType(name, shareClass);
    var supplied := if "ownership_pct" in cols then row.ownershipPct else 0.0;
    var ownership := if supplied == 0.0 && total > 0
                     then (shares as real / total as real) * 100.0 else supplied;
    Holder(name, holderType, shareClass, shares, price, invested, ownership, ownership,
           None, None, 0)
  }

  function HoldersOf(cols: seq<string>, total: nat, rows: seq<Row>): (hs: seq<Holder>)
    ensures |hs| == |rows| && forall i :: 0 <= i < |rows| ==> hs[i] == HolderOf(cols, total, rows[i])
  {
    seq(|rows|, i requires 0 <= i < |rows| => HolderOf(cols, total, rows[i]))
  }

  /** `preferred`, else `options`, else `common`, by keyword in the label. */
  function ShareTypeOf(cl: string): ShareType {
    if Contains(LowerStr(cl), "preferred") then Preferred
    else if Contains(LowerStr(cl), "option") then Options
    else Common
  }

  /** The class labels: the distinct share-class cells in order of appearance,
      or the single label `common` when the frame has no share-class column. */
  function ClassLabels(f: Frame): seq<string> {
    if "share_class" in NormalizeColumns(f.columns) then FirstSeen(RowLabels(f.rows)) else ["common"]
  }

  /** The share class for one label `cl`. Without a share-class column the one
      class spans every row. */
  function ClassOf(byLabel: bool, rows: seq<Row>, cl: string): ShareClass {
    var issued := if byLabel then LabelShares(rows, cl) else RowShares(rows);
    ShareClass(cl, ShareTypeOf(cl), 0, issued, issued, 0.0, 1.0, false, 1.0, 0)
  }

  function ClassesOf(byLabel: bool, rows: seq<Row>, labels: seq<string>): (cs: seq<ShareClass>)
    ensures |cs| == |labels|
    ensures forall i :: 0 <= i < |labels| ==> cs[i] == ClassOf(byLabel, rows, labels[i])
  {
    seq(|labels|, i requires 0 <= i < |labels| => ClassOf(byLabel, rows, labels[i]))
  }

  /** Shares held by holders typed `pool`. */
  function PoolShares(hs: seq<Holder>): nat {
    if |hs| == 0 then 0
    else PoolShares(hs[..|hs| - 1]) +
         (if hs[|hs| - 1].holderType == "pool" then hs[|hs| - 1].shares else 0)
  }

  function HolderShares(hs: seq<Holder>): nat {
    if |hs| == 0 then 0 else HolderShares(hs[..|hs| - 1]) + hs[|hs| - 1].shares
  }

  function OwnershipSum(hs: seq<Holder>): real {
    if |hs| == 0 then 0.0 else OwnershipSum(hs[..|hs| - 1]) + hs[|hs| - 1].ownershipPct
  }

  /** The frames `parse_generic_captable` completes on. Grouping the classes
      reads the `shares` column, which raises a KeyError when it is missing,
      unless there is a share-class column and no row to group. */
  predicate ParseDefined(f: Frame) {
    "shares" in NormalizeColumns(f.columns) ||
    ("share_class" in NormalizeColumns(f.columns) && |f.rows| == 0)
  }

  /** The table `parse_generic_captable` returns for `f`; `asOfDate` stands for
      the wall-clock date it stamps in. */
  function ParsedTable(f: Frame, asOfDate: string): CapTable {
    var cols := NormalizeColumns(f.columns);
    var total := TotalShares(f);
    TableOf(asOfDate, total, ClassesOf("share_class" in cols, f.rows, ClassLabels(f)), HoldersOf(cols, total, f.rows))
  }

  /** The table assembled from its totals, classes and holders, with the
      pool summed over the holders. */
  function TableOf(asOfDate: string, total: nat, classes: seq<ShareClass>, holders: seq<Holder>): CapTable {
    var pool := PoolShares(holders);
    CapTable("Unknown", asOfDate, total, total, total, classes, holders, pool,
             if total > 0 then Percent(pool, total) else 0.0)
  }

  /** Percentage of `whole` that `part` shares are. */
  function Percent(part: nat, whole: nat): real
    requires whole > 0
  {
    part as real / whole as real * 100.0
  }

  /** The body of the row loop of `parse_generic_captable`: read the present
      cells, infer a missing type, backfill a zero ownership percentage. */
  method BuildHolder(cols: seq<string>, total: nat, row: Row) returns (h: Holder)
    ensures h == HolderOf(cols, total, row)
  {
    var name := if "holder" in cols then row.holder else "Unknown";
    var shareClass := if "share_class" in cols then row.shareClass else "common";
    var shares := if "shares" in cols then row.shares else 0;
    var price := if "price_per_share" in cols then row.pricePerShare else 0.0;
    var invested := if "invested" in cols then row.invested else 0.0;
    var holderType := if "holder_type" in cols then row.holderType
                      else InferHolderType(name, shareClass);
    var ownership := if "ownership_pct" in cols then row.ownershipPct else 0.0;
    if ownership == 0.0 && total > 0 {
      ownership := (shares as real / total as real) * 100.0;
    }
    h := Holder(name, holderType, shareClass, shares, price, invested,
                ownership, ownership, None, None, 0);
  }

  /** The body of the class loop of `parse_generic_captable`. */
  method BuildClass(byLabel: bool, rows: seq<Row>, cl: string) returns (c: ShareClass)
    ensures c == ClassOf(byLabel, rows, cl)
  {
    var classShares := if byLabel then LabelShares(rows, cl) else RowShares(rows);
    var shareType := Common;
    if Contains(LowerStr(cl), "preferred") {
      shareType := Preferred;
    } else if Contains(LowerStr(cl), "option") {
      shareType := Options;
    }
    c := ShareClass(cl, shareType, 0, classShares, classShares, 0.0, 1.0, false, 1.0, 0);
  }

  /** The row loop of `parse_generic_captable`. */
  method BuildHolders(cols: seq<string>, total: nat, rows: seq<Row>) returns (holders: seq<Holder>)
    ensures holders == HoldersOf(cols, total, rows)
  {
    holders := [];
    var i := 0;
    while i < |rows|
      invariant 0 <= i <= |rows|
      invariant holders == HoldersOf(cols, total, rows[..i])
    {
      var h := BuildHolder(cols, total, rows[i]);
      assert rows[..i + 1] == rows[..i] + [rows[i]];
      holders := holders + [h];
      i := i + 1;
    }
    assert rows[..i] == rows;
  }

  /** The class loop of `parse_generic_captable`. */
  method BuildClasses(byLabel: bool, rows: seq<Row>, labels: seq<string>)
    returns (classes: seq<ShareClass>)
    ensures classes == ClassesOf(byLabel, rows, labels)
  {
    classes := [];
    var k := 0;
    while k < |labels|
      invariant 0 <= k <= |labels|
      invariant classes == ClassesOf(byLabel, rows, labels[..k])
    {
      var c := BuildClass(byLabel, rows, labels[k]);
      assert labels[..k + 1] == labels[..k] + [labels[k]];
      classes := classes + [c];
      k := k + 1;
    }
    assert labels[..k] == labels;
  }

  /** `parse_generic_captable`: holders row by row, then one share class per
      label, then the pool totals. */
  method ParseGenericCapTable(f: Frame, asOfDate: string) returns (t: CapTable)
    requires ParseDefined(f)
    ensures t == ParsedTable(f, asOfDate)
  {
    var cols := NormalizeColumns(f.columns);
    var total := TotalShares(f);
    var holders := BuildHolders(cols, total, f.rows);
    var classes := BuildClasses("share_class" in cols, f.rows, ClassLabels(f));
    var pool := PoolShares(holders);
    var poolPct := if total > 0 then Percent(pool, total) else 0.0;
    t := CapTable("Unknown", asOfDate, total, total, total, classes, holders, pool, poolPct);
  }

  // ---------------------------------------------------------------------
  // Properties of the parsed table
  // ---------------------------------------------------------------------

  lemma {:induction false} HoldersOfPrefix(cols: seq<string>, total: nat, rows: seq<Row>, n: nat)
    requires n <= |rows|
    ensures HoldersOf(cols, total, rows)[..n] == HoldersOf(cols, total, rows[..n])
  {
  }

  /** With a shares column, the holders carry exactly the frame's shares. */
  lemma {:induction false} HolderSharesOfRows(cols: seq<string>, total: nat, rows: seq<Row>)
    requires "shares" in cols
    ensures HolderShares(HoldersOf(cols, total, rows)) == RowShares(rows)
  {
    if |rows| > 0 {
      var n := |rows| - 1;
      HoldersOfPrefix(cols, total, rows, n);
      HolderSharesOfRows(cols, total, rows[..n]);
    }
  }

  /** Backfilled percentages add up to the rows' share of the total. */
  lemma {:induction false} BackfilledOwnership(cols: seq<string>, total: nat, rows: seq<Row>)
    requires "shares" in cols && total > 0
    requires "ownership_pct" !in cols || forall i :: 0 <= i < |rows| ==> rows[i].ownershipPct == 0.0
    ensures OwnershipSum(HoldersOf(cols, total, rows)) == RowShares(rows) as real / total as real * 100.0
  {
    if |rows| > 0 {
      var n := |rows| - 1;
      HoldersOfPrefix(cols, total, rows, n);
      BackfilledOwnership(cols, total, rows[..n]);
      PercentAdd(RowShares(rows[..n]) as real, rows[n].shares as real, total as real);
    }
  }

  lemma PercentAdd(a: real, b: real, t: real)
    requires t > 0.0
    ensures a / t * 100.0 + b / t * 100.0 == (a + b) / t * 100.0
  {
  }

  lemma {:induction false} PoolWithinShares(hs: seq<Holder>)
    ensures PoolShares(hs) <= HolderShares(hs)
  {
    if |hs| > 0 {
      PoolWithinShares(hs[..|hs| - 1]);
    }
  }

  /** One holder per row, in row order, each built from its row; the three
      totals coincide and, with a shares column, are the sum of that column
      and of the holders' shares. */
  lemma ParsedHolders(f: Frame, asOfDate: string)
    requires ParseDefined(f)
    ensures var t := ParsedTable(f, asOfDate);
      && |t.holders| == |f.rows|
      && (forall i :: 0 <= i < |f.rows| ==>
            t.holders[i] == HolderOf(NormalizeColumns(f.columns), t.totalSharesOutstanding, f.rows[i]))
      && t.totalSharesAuthorized == t.totalSharesOutstanding == t.fullyDilutedShares
      && ("shares" in NormalizeColumns(f.columns) ==>
            t.totalSharesOutstanding == RowShares(f.rows) == HolderShares(t.holders))
  {
    var cols := NormalizeColumns(f.columns);
    if "shares" in cols {
      HolderSharesOfRows(cols, TotalShares(f), f.rows);
    }
  }

  /** A holder's fully diluted percentage equals its ownership percentage; a
      supplied nonzero percentage is kept; a missing or zero one is the
      holder's share of the total; a missing type is inferred. */
  lemma HolderOfProperties(cols: seq<string>, total: nat, row: Row)
    ensures var h := HolderOf(cols, total, row);
      && h.ownershipPct == h.fullyDilutedPct
      && ("ownership_pct" in cols && row.ownershipPct != 0.0 ==> h.ownershipPct == row.ownershipPct)
      && ((("ownership_pct" !in cols || row.ownershipPct == 0.0) && total > 0) ==>
            h.ownershipPct == h.shares as real / total as real * 100.0)
      && ("holder_type" !in cols ==> h.holderType == InferHolderType(h.name, h.shareClass))
      && ("holder_type" in cols ==> h.holderType == row.holderType)
      && h.vestingStart.None? && h.vestingEnd.None? && h.vestedShares == 0
  {
  }

  /** The pool is part of the total and its percentage is a percentage. */
  lemma ParsedPool(f: Frame, asOfDate: string)
    requires ParseDefined(f)
    ensures var t := ParsedTable(f, asOfDate);
      && t.optionPoolShares <= t.totalSharesOutstanding
      && 0.0 <= t.optionPoolPct <= 100.0
  {
    var cols := NormalizeColumns(f.columns);
    var total := TotalShares(f);
    var hs := HoldersOf(cols, total, f.rows);
    PoolWithinShares(hs);
    if "shares" in cols {
      HolderSharesOfRows(cols, total, f.rows);
    } else {
      PoolAllZero(hs);
    }
    if total > 0 {
      PoolFraction(PoolShares(hs), total);
    }
  }

  lemma PoolFraction(p: nat, q: nat)
    requires 0 < q && p <= q
    ensures 0.0 <= p as real / q as real * 100.0 <= 100.0
  {
    assert p as real / q as real <= 1.0;
  }

  /** When no row supplies an ownership percentage, the backfilled
      percentages of a table with shares add up to 100. */
  lemma ParsedOwnershipSums(f: Frame, asOfDate: string)
    requires ParseDefined(f)
    requires "shares" in NormalizeColumns(f.columns) && RowShares(f.rows) > 0
    requires "ownership_pct" in NormalizeColumns(f.columns) ==>
               forall i :: 0 <= i < |f.rows| ==> f.rows[i].ownershipPct == 0.0
    ensures OwnershipSum(ParsedTable(f, asOfDate).holders) == 100.0
  {
    var cols := NormalizeColumns(f.columns);
    var total := TotalShares(f);
    assert total == RowShares(f.rows);
    BackfilledOwnership(cols, total, f.rows);
    assert ParsedTable(f, asOfDate).holders == HoldersOf(cols, total, f.rows);
    WholeIsHundred(total as real);
  }

  lemma WholeIsHundred(x: real)
    requires x > 0.0
    ensures x / x * 100.0 == 100.0
  {
  }

  lemma {:induction false} PoolAllZero(hs: seq<Holder>)
    requires forall i :: 0 <= i < |hs| ==> hs[i].shares == 0
    ensures PoolShares(hs) == 0 && HolderShares(hs) == 0
  {
    if |hs| > 0 {
      PoolAllZero(hs[..|hs| - 1]);
    }
  }

  /** Sum of the issued shares of a list of classes. */
  function IssuedSum(cs: seq<ShareClass>): nat {
    if |cs| == 0 then 0 else IssuedSum(cs[..|cs| - 1]) + cs[|cs| - 1].issued
  }

  /** Sum over labels of the shares of the rows with that label. */
  function LabelSum(rows: seq<Row>, labels: seq<string>): nat {
    if |labels| == 0 then 0 else LabelSum(rows, labels[..|labels| - 1]) + LabelShares(rows, labels[|labels| - 1])
  }

  lemma {:induction false} LabelSharesAbsent(rows: seq<Row>, cl: string)
    requires forall i :: 0 <= i < |rows| ==> rows[i].shareClass != cl
    ensures LabelShares(rows, cl) == 0
  {
    if |rows| > 0 {
      LabelSharesAbsent(rows[..|rows| - 1], cl);
    }
  }

  lemma {:induction false} LabelSumStep(init: seq<Row>, r: Row, labels: seq<string>)
    requires NoDuplicates(labels)
    ensures LabelSum(init + [r], labels) ==
            LabelSum(init, labels) + (if r.shareClass in labels then r.shares else 0)
  {
    if |labels| > 0 {
      var n := |labels| - 1;
      assert (init + [r])[..|init|] == init;
      LabelSumStep(init, r, labels[..n]);
      assert labels[n] in labels[..n] ==> false;
      assert r.shareClass in labels <==> r.shareClass in labels[..n] || r.shareClass == labels[n];
    }
  }

  /** The classes partition the shares: each row's shares are counted under
      exactly one distinct label. */
  lemma {:induction false} LabelsPartitionShares(rows: seq<Row>)
    ensures LabelSum(rows, FirstSeen(RowLabels(rows))) == RowShares(rows)
  {
    if |rows| > 0 {
      var n := |rows| - 1;
      var init, r := rows[..n], rows[n];
      LabelsPartitionShares(init);
      assert rows == init + [r];
      var cl := r.shareClass;
      assert RowLabels(rows) == RowLabels(init) + [cl];
      assert RowShares(rows) == RowShares(init) + r.shares;
      var p := FirstSeen(RowLabels(init));
      assert NoDuplicates(p) && (cl !in p ==> cl !in RowLabels(init)) by {
        FirstSeenCorrect(RowLabels(init));
      }
      FirstSeenSnoc(RowLabels(init), cl);
      PartitionStep(init, r, p);
    }
  }

  /** Adding a row to the distinct labels seen so far adds its shares once. */
  lemma PartitionStep(init: seq<Row>, r: Row, p: seq<string>)
    requires NoDuplicates(p)
    requires r.shareClass !in p ==> r.shareClass !in RowLabels(init)
    ensures LabelSum(init + [r], if r.shareClass in p then p else p + [r.shareClass])
            == LabelSum(init, p) + r.shares
  {
    var cl, rows := r.shareClass, init + [r];
    assert rows[..|init|] == init;
    LabelSumStep(init, r, p);
    if cl !in p {
      LabelSharesAbsent(init, cl);
      assert LabelShares(rows, cl) == r.shares;
      assert (p + [cl])[..|p|] == p;
    }
  }

  lemma {:induction false} IssuedSumOfClasses(rows: seq<Row>, labels: seq<string>)
    ensures IssuedSum(ClassesOf(true, rows, labels)) == LabelSum(rows, labels)
  {
    if |labels| > 0 {
      var n := |labels| - 1;
      assert ClassesOf(true, rows, labels)[..n] == ClassesOf(true, rows, labels[..n]);
      IssuedSumOfClasses(rows, labels[..n]);
    }
  }

  function ClassNames(cs: seq<ShareClass>): (r: seq<string>)
    ensures |r| == |cs| && forall i :: 0 <= i < |cs| ==> r[i] == cs[i].name
  {
    seq(|cs|, i requires 0 <= i < |cs| => cs[i].name)
  }

  /** A class is typed by keyword (`preferred` before `option`), has issued
      equal to outstanding, and carries the default terms: a 1x
      non-participating preference, conversion 1:1, seniority 0, no price and
      no authorised count. */
  lemma ClassOfProperties(byLabel: bool, rows: seq<Row>, cl: string)
    ensures var c := ClassOf(byLabel, rows, cl);
      && c.name == cl
      && c.issued == c.outstanding
      && (c.shareType == Preferred <==> Contains(LowerStr(cl), "preferred"))
      && (c.shareType == Options <==> !Contains(LowerStr(cl), "preferred") && Contains(LowerStr(cl), "option"))
      && c.liquidationPreference == 1.0 && !c.participating && c.conversionRatio == 1.0
      && c.seniority == 0 && c.pricePerShare == 0.0 && c.authorized == 0
  {
  }

  /** With a share-class column there is one class per distinct label, in
      order of first appearance, with distinct names; without one, a single
      `common` class. */
  lemma ParsedClassNames(f: Frame, asOfDate: string)
    ensures var t := ParsedTable(f, asOfDate);
      && ("share_class" in NormalizeColumns(f.columns) ==>
            && ClassNames(t.shareClasses) == FirstSeen(RowLabels(f.rows))
            && NoDuplicates(ClassNames(t.shareClasses))
            && forall x :: x in ClassNames(t.shareClasses) <==> x in RowLabels(f.rows))
      && ("share_class" !in NormalizeColumns(f.columns) ==> ClassNames(t.shareClasses) == ["common"])
  {
    var t := ParsedTable(f, asOfDate);
    FirstSeenCorrect(RowLabels(f.rows));
    assert ClassNames(t.shareClasses) == ClassLabels(f);
  }

  lemma ClassesCoverRows(rows: seq<Row>)
    ensures IssuedSum(ClassesOf(true, rows, FirstSeen(RowLabels(rows)))) == RowShares(rows)
  {
    LabelsPartitionShares(rows);
    IssuedSumOfClasses(rows, FirstSeen(RowLabels(rows)));
  }

  lemma SingleClassCovers(rows: seq<Row>)
    ensures IssuedSum(ClassesOf(false, rows, ["common"])) == RowShares(rows)
  {
    var cs := ClassesOf(false, rows, ["common"]);
    assert cs[..0] == [];
  }

  /** The classes' issued shares add up to the table's total. */
  lemma ParsedClassesCoverShares(f: Frame, asOfDate: string)
    requires ParseDefined(f)
    ensures IssuedSum(ParsedTable(f, asOfDate).shareClasses) == ParsedTable(f, asOfDate).totalSharesOutstanding
  {
    var cols := NormalizeColumns(f.columns);
    var cs := ParsedTable(f, asOfDate).shareClasses;
    if "share_class" in cols {
      ClassesCoverRows(f.rows);
    } else {
      SingleClassCovers(f.rows);
    }
  }

  // ---------------------------------------------------------------------
  // Summary statistics
  // ---------------------------------------------------------------------

  datatype Summary = Summary(
    totalShares: nat,
    fullyDiluted: nat,
    optionPoolPct: real,
    shareClassCount: nat,
    holderCount: nat,
    ownershipByType: map<string, real>,
    totalInvested: real,
    impliedValuation: Option<real>)

  function HolderTypes(hs: seq<Holder>): set<string> {
    set i | 0 <= i < |hs| :: hs[i].holderType
  }

  /** Ownership percentage held by the holders of type `ty`. */
  function TypeOwnership(hs: seq<Holder>, ty: string): real {
    if |hs| == 0 then 0.0
    else TypeOwnership(hs[..|hs| - 1], ty) +
         (if hs[|hs| - 1].holderType == ty then hs[|hs| - 1].ownershipPct else 0.0)
  }

  function InvestedSum(hs: seq<Holder>): real {
    if |hs| == 0 then 0.0 else InvestedSum(hs[..|hs| - 1]) + hs[|hs| - 1].invested
  }

  predicate HoldsPreferred(h: Holder) { Contains(LowerStr(h.shareClass), "preferred") }

  /** Highest price paid by a holder that `pick` selects, if any. */
  function MaxPriceWhere(hs: seq<Holder>, pick: Holder -> bool): Option<real> {
    if |hs| == 0 then None
    else
      var p := MaxPriceWhere(hs[..|hs| - 1], pick);
      var h := hs[|hs| - 1];
      if !pick(h) then p
      else match p
        case None => Some(h.pricePerShare)
        case Some(m) => Some(if h.pricePerShare > m then h.pricePerShare else m)
  }

  /** The highest price is absent exactly when no holder is selected, and is
      otherwise a selected holder's price no selected holder exceeds. */
  lemma {:induction false} MaxPriceWhereCorrect(hs: seq<Holder>, pick: Holder -> bool)
    ensures MaxPriceWhere(hs, pick).None? <==> forall i :: 0 <= i < |hs| ==> !pick(hs[i])
    ensures MaxPriceWhere(hs, pick).Some? ==>
              (exists i :: 0 <= i < |hs| && pick(hs[i]) && hs[i].pricePerShare == MaxPriceWhere(hs, pick).value)
              && forall i :: 0 <= i < |hs| && pick(hs[i]) ==> hs[i].pricePerShare <= MaxPriceWhere(hs, pick).value
  {
    if |hs| > 0 {
      var n := |hs| - 1;
      MaxPriceWhereCorrect(hs[..n], pick);
      assert forall i :: 0 <= i < n ==> hs[..n][i] == hs[i];
      if MaxPriceWhere(hs, pick).Some? {
        var m := MaxPriceWhere(hs, pick).value;
        if pick(hs[n]) && hs[n].pricePerShare == m {
        } else {
          var i :| 0 <= i < n && pick(hs[..n][i]) && hs[..n][i].pricePerShare == m;
          assert pick(hs[i]) && hs[i].pricePerShare == m;
        }
      }
    }
  }

  /** The highest price `pick` selects times `fd`, when that price is
      positive. */
  function ValuationAtMax(hs: seq<Holder>, pick: Holder -> bool, fd: real): Option<real> {
    match MaxPriceWhere(hs, pick)
    case Some(m) => if m > 0.0 then Some(m * fd) else None
    case None => None
  }

  /** Price of the latest preferred round times the fully diluted count, when
      a preferred holder paid a positive price. */
  function ImpliedValuation(t: CapTable): Option<real> {
    ValuationAtMax(t.holders, HoldsPreferred, t.fullyDilutedShares as real)
  }

  /** The valuation exists exactly when some selected holder (for
      `ImpliedValuation`, some preferred holder) paid a positive price; it is
      then `fd` priced at some selected holder's price, and no selected
      holder's price gives more. */
  lemma ValuationAtMaxCorrect(hs: seq<Holder>, pick: Holder -> bool, fd: real)
    requires fd >= 0.0
    ensures var iv := ValuationAtMax(hs, pick, fd);
      && (iv.Some? <==> exists i :: 0 <= i < |hs| && pick(hs[i]) && hs[i].pricePerShare > 0.0)
      && (iv.Some? ==> exists i :: 0 <= i < |hs| && pick(hs[i]) && iv.value == hs[i].pricePerShare * fd)
      && (iv.Some? ==> forall j :: 0 <= j < |hs| && pick(hs[j]) ==> hs[j].pricePerShare * fd <= iv.value)
  {
    MaxPriceWhereCorrect(hs, pick);
    var iv := ValuationAtMax(hs, pick, fd);
    match MaxPriceWhere(hs, pick)
    case None =>
      assert iv.None?;
    case Some(m) =>
      var i :| 0 <= i < |hs| && pick(hs[i]) && hs[i].pricePerShare == m;
      if m > 0.0 {
        var v := m * fd;
        assert iv == Some(v);
        assert pick(hs[i]) && v == hs[i].pricePerShare * fd;
        forall j | 0 <= j < |hs| && pick(hs[j])
          ensures hs[j].pricePerShare * fd <= v
        {
          ScaleLe(hs[j].pricePerShare, m, fd);
        }
      } else {
        assert iv.None?;
      }
  }

  lemma ScaleLe(x: real, y: real, f: real)
    requires x <= y && f >= 0.0
    ensures x * f <= y * f
  {
  }

  /** `generate_summary`: counts, the ownership percentage summed per holder
      type, the total invested and the implied valuation. */
  method GenerateSummary(t: CapTable) returns (s: Summary)
    ensures s.totalShares == t.totalSharesOutstanding && s.fullyDiluted == t.fullyDilutedShares
    ensures s.optionPoolPct == t.optionPoolPct
    ensures s.shareClassCount == |t.shareClasses| && s.holderCount == |t.holders|
    ensures s.ownershipByType.Keys == HolderTypes(t.holders)
    ensures forall ty :: ty in s.ownershipByType ==> s.ownershipByType[ty] == TypeOwnership(t.holders, ty)
    ensures s.totalInvested == InvestedSum(t.holders)
    ensures s.impliedValuation == ImpliedValuation(t)
  {
    var hs := t.holders;
    var byType: map<string, real> := map[];
    var i := 0;
    while i < |hs|
      invariant 0 <= i <= |hs|
      invariant byType.Keys == HolderTypes(hs[..i])
      invariant forall ty :: ty in byType ==> byType[ty] == TypeOwnership(hs[..i], ty)
    {
      var h := hs[i];
      assert hs[..i + 1][..i] == hs[..i];
      if h.holderType !in byType {
        byType := byType[h.holderType := 0.0];
        TypeOwnershipAbsent(hs[..i], h.holderType);
      }
      byType := byType[h.holderType := byType[h.holderType] + h.ownershipPct];
      HolderTypesStep(hs, i);
      i := i + 1;
    }
    assert hs[..i] == hs;
    s := Summary(t.totalSharesOutstanding, t.fullyDilutedShares, t.optionPoolPct,
                 |t.shareClasses|, |hs|, byType, InvestedSum(hs), ImpliedValuation(t));
  }

  lemma {:induction false} TypeOwnershipAbsent(hs: seq<Holder>, ty: string)
    requires ty !in HolderTypes(hs)
    ensures TypeOwnership(hs, ty) == 0.0
  {
    if |hs| > 0 {
      var n := |hs| - 1;
      assert hs[n].holderType in HolderTypes(hs);
      assert forall j :: 0 <= j < n ==> hs[..n][j] == hs[j];
      TypeOwnershipAbsent(hs[..n], ty);
    }
  }

  lemma HolderTypesStep(hs: seq<Holder>, i: nat)
    requires i < |hs|
    ensures HolderTypes(hs[..i + 1]) == HolderTypes(hs[..i]) + {hs[i].holderType}
  {
    var a, b := hs[..i + 1], hs[..i];
    forall x | x in HolderTypes(a) ensures x in HolderTypes(b) + {hs[i].holderType} {
      var j :| 0 <= j < |a| && a[j].holderType == x;
      if j < i { assert b[j] == a[j]; }
    }
    forall x | x in HolderTypes(b) ensures x in HolderTypes(a) {
      var j :| 0 <= j < |b| && b[j].holderType == x;
      assert a[j] == b[j];
    }
    assert a[i] == hs[i];
  }
}
