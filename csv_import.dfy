/** The CSV ingredient import (meal_planner.py:276-384): delimiter detection,
    header normalization and renaming, the check for required columns, the
    default category column, and the row-by-row import policy. Parsing the
    file into cells is pandas' business and is not part of this model: a
    row arrives here as its already-parsed cells. */
module CsvImport {
  import opened Text
  import opened Model

  // Delimiter

  /** `content.split('\n')[0]`. */
  function FirstLine(content: string): (l: string)
    ensures |l| <= |content| && l == content[..|l|]
    ensures '\n' !in l
    ensures |l| < |content| ==> content[|l|] == '\n'
  {
    if content == [] || content[0] == '\n' then [] else [content[0]] + FirstLine(content[1..])
  }

  /** `;` when the first line contains one, `,` (pandas' default) otherwise. */
  function Delimiter(content: string): char {
    if ';' in FirstLine(content) then ';' else ','
  }

  /** Only the first line decides the delimiter. */
  lemma {:induction false} DelimiterFromFirstLine(line: string, rest: string)
    requires '\n' !in line
    ensures FirstLine(line + "\n" + rest) == line
    ensures Delimiter(line + "\n" + rest) == (if ';' in line then ';' else ',')
    decreases |line|
  {
    if line == [] {
      assert (line + "\n" + rest)[0] == '\n';
    } else {
      assert (line + "\n" + rest)[1..] == line[1..] + "\n" + rest;
      DelimiterFromFirstLine(line[1..], rest);
      assert line == [line[0]] + line[1..];
    }
  }

  // Headers

  /** `df.columns.str.strip().str.lower()`, for one header. */
  function NormalizeHeader(h: string): string {
    Lower(Strip(h))
  }

  function NormalizeHeaders(headers: seq<string>): (r: seq<string>)
    ensures |r| == |headers| && forall i :: 0 <= i < |headers| ==> r[i] == NormalizeHeader(headers[i])
  {
    seq(|headers|, i requires 0 <= i < |headers| => NormalizeHeader(headers[i]))
  }

  lemma LowerCharKeepsSpace(c: char)
    ensures IsSpace(LowerChar(c)) <==> IsSpace(c)
  {
  }

  lemma LowerTwice(s: string)
    ensures Lower(Lower(s)) == Lower(s)
  {
  }

  /** A string without white space at either end is its own strip. */
  lemma StripOfTrimmed(t: string)
    requires t == [] || (!IsSpace(t[0]) && !IsSpace(t[|t| - 1]))
    ensures Strip(t) == t
  {
    var r := Strip(t);
    if t != [] {
      assert LeadingSpaces(t) == 0;
      assert |r| == |t|;
    }
  }

  /** Normalizing a normalized header changes nothing. */
  lemma NormalizeIdempotent(h: string)
    ensures NormalizeHeader(NormalizeHeader(h)) == NormalizeHeader(h)
  {
    var s := Strip(h);
    var t := Lower(s);
    if t != [] {
      LowerCharKeepsSpace(s[0]);
      LowerCharKeepsSpace(s[|s| - 1]);
    }
    StripOfTrimmed(t);
    LowerTwice(s);
  }

  /** `column_mapping`, in its order: the accepted spellings of each column. */
  const ColumnMapping: seq<(string, string)> := [
    ("name", "Name"), ("protein", "Protein"), ("kohlenhydrate", "Kohlenhydrate"),
    ("fette", "Fette"), ("fett", "Fette"), ("kcal", "Kcal"), ("kalorien", "Kcal"),
    ("kategorie", "Kategorie")]

  /** The columns the import needs, in the order the error message lists them. */
  const Required: seq<string> := ["Name", "Protein", "Kohlenhydrate", "Fette", "Kcal"]

  /** What `df.rename(columns={old: new})` does to one column name. */
  function RenameStep(c: string, pair: (string, string)): string {
    if c == pair.0 then pair.1 else c
  }

  /** A column name after the renames of `mapping`, one after the other. */
  function RenamedBy(c: string, mapping: seq<(string, string)>): string {
    if mapping == [] then c else RenameStep(RenamedBy(c, mapping[..|mapping| - 1]), mapping[|mapping| - 1])
  }

  /** The reference: the canonical name of a column is looked up once. */
  function Canonical(c: string): string {
    if c == "name" then "Name"
    else if c == "protein" then "Protein"
    else if c == "kohlenhydrate" then "Kohlenhydrate"
    else if c == "fette" || c == "fett" then "Fette"
    else if c == "kcal" || c == "kalorien" then "Kcal"
    else if c == "kategorie" then "Kategorie"
    else c
  }

  /** The renames one after the other amount to a single lookup, because no
      canonical name is a spelling that a later rename would change again. */
  lemma RenamedIsCanonical(c: string)
    ensures RenamedBy(c, ColumnMapping) == Canonical(c)
  {
    var m := ColumnMapping;
    assert m[..0] == [];
    assert m[..1][..0] == m[..0];
    assert m[..2][..1] == m[..1];
    assert m[..3][..2] == m[..2];
    assert m[..4][..3] == m[..3];
    assert m[..5][..4] == m[..4];
    assert m[..6][..5] == m[..5];
    assert m[..7][..6] == m[..6];
    assert m[..8] == m && m[..8][..7] == m[..7];
    assert RenamedBy(c, m[..0]) == c;
    var c1 := RenamedBy(c, m[..1]);
    var c2 := RenamedBy(c, m[..2]);
    var c3 := RenamedBy(c, m[..3]);
    var c4 := RenamedBy(c, m[..4]);
    var c5 := RenamedBy(c, m[..5]);
    var c6 := RenamedBy(c, m[..6]);
    var c7 := RenamedBy(c, m[..7]);
    assert c1 == RenameStep(c, m[0]);
    assert c2 == RenameStep(c1, m[1]);
    assert c3 == RenameStep(c2, m[2]);
    assert c4 == RenameStep(c3, m[3]);
    assert c5 == RenameStep(c4, m[4]);
    assert c6 == RenameStep(c5, m[5]);
    assert c7 == RenameStep(c6, m[6]);
    assert RenamedBy(c, m) == RenameStep(c7, m[7]);
  }

  /** The rename loop: for each pair of the mapping in order, every column
      of that spelling gets the canonical name. */
  method RenameColumns(cols: seq<string>) returns (r: seq<string>)
    ensures |r| == |cols|
    ensures forall i :: 0 <= i < |cols| ==> r[i] == Canonical(cols[i])
  {
    r := cols;
    for k := 0 to |ColumnMapping|
      invariant |r| == |cols|
      invariant forall i :: 0 <= i < |cols| ==> r[i] == RenamedBy(cols[i], ColumnMapping[..k])
    {
      var (oldName, newName) := ColumnMapping[k];
      assert ColumnMapping[..k + 1][..k] == ColumnMapping[..k];
      if oldName in r {
        r := seq(|r|, i requires 0 <= i < |r| => if r[i] == oldName then newName else r[i]);
      }
    }
    forall i | 0 <= i < |cols|
      ensures r[i] == Canonical(cols[i])
    {
      assert ColumnMapping[..|ColumnMapping|] == ColumnMapping;
      RenamedIsCanonical(cols[i]);
    }
  }

  /** `[col for col in required if col not in df.columns]`. */
  function MissingAmong(required: seq<string>, cols: seq<string>): (r: seq<string>)
    ensures |r| <= |required|
  {
    if required == [] then []
    else (if required[0] in cols then [] else [required[0]]) + MissingAmong(required[1..], cols)
  }

  /** Exactly the required columns that are absent are reported, so the
      check passes once every required column is there. */
  lemma {:induction false} MissingAmongMeaning(required: seq<string>, cols: seq<string>)
    ensures forall c :: c in MissingAmong(required, cols) <==> c in required && c !in cols
    ensures (forall c :: c in required ==> c in cols) ==> MissingAmong(required, cols) == []
  {
    if required != [] {
      MissingAmongMeaning(required[1..], cols);
      assert forall c :: c in required <==> c == required[0] || c in required[1..];
    }
  }

  function MissingColumns(cols: seq<string>): seq<string> {
    MissingAmong(Required, cols)
  }

  /** Blanks and case do not matter: a padded upper-case spelling of a
      column is accepted. */
  lemma PaddedSpellingAccepted()
    ensures Canonical(NormalizeHeader(" FETT")) == "Fette"
  {
    var h := " FETT";
    assert h[1..] == "FETT";
    assert LeadingSpaces(h[1..]) == 0;
    assert LeadingSpaces(h) == 1;
    assert TrailingSpaces(h) == 0;
    assert Strip(h) == "FETT";
    assert Lower("FETT") == "fett";
  }

  /** Each spelling of a column is accepted, in any case. */
  lemma AlternativeSpellingAccepted()
    ensures Canonical(NormalizeHeader("Kalorien")) == "Kcal"
  {
    var h := "Kalorien";
    assert LeadingSpaces(h) == 0 && TrailingSpaces(h) == 0;
    assert Strip(h) == h;
    assert Lower(h) == "kalorien";
  }

  /** The check reports the missing required columns in their order. */
  lemma MissingExample()
    ensures MissingColumns(["Name", "Protein", "Fette"]) == ["Kohlenhydrate", "Kcal"]
  {
    var a := ["Name", "Protein", "Fette"];
    var r := Required;
    assert r[1..] == ["Protein", "Kohlenhydrate", "Fette", "Kcal"];
    assert r[1..][1..] == ["Kohlenhydrate", "Fette", "Kcal"];
    assert r[1..][1..][1..] == ["Fette", "Kcal"];
    assert r[1..][1..][1..][1..] == ["Kcal"];
    assert r[1..][1..][1..][1..][1..] == [];
    assert MissingAmong(["Kcal"], a) == ["Kcal"];
    assert MissingAmong(["Fette", "Kcal"], a) == ["Kcal"];
    assert MissingAmong(["Kohlenhydrate", "Fette", "Kcal"], a) == ["Kohlenhydrate", "Kcal"];
  }

  /** Nothing is missing once all five required columns are there, in any
      order and beside other columns. */
  lemma NothingMissingExample()
    ensures MissingColumns(["Kategorie", "Kcal", "Fette", "Kohlenhydrate", "Protein", "Name"]) == []
  {
    var b := ["Kategorie", "Kcal", "Fette", "Kohlenhydrate", "Protein", "Name"];
    MissingAmongMeaning(Required, b);
    assert forall c :: c in Required ==> c in b;
  }

  // Rows

  /** A parsed cell: text, or pandas' NaN for an empty cell. */
  datatype Cell = Text(s: string) | NaN

  /** A parsed row. `values` is `None` when one of the four numeric cells
      does not convert with `float()`; `kategorie` is `None` while the file
      has no Kategorie column. */
  datatype CsvRow = CsvRow(name: Cell, values: Option<Nutrition>, kategorie: Option<Cell>)

  /** `df['Kategorie'] = 'Sonstiges'` when the column is absent: every row
      without a Kategorie cell gets "Sonstiges", every other row stays. */
  function AddDefaultKategorie(rows: seq<CsvRow>): (r: seq<CsvRow>)
    ensures |r| == |rows|
    ensures forall i :: 0 <= i < |rows| ==> r[i].kategorie.Some?
    ensures forall i :: 0 <= i < |rows| ==> r[i].name == rows[i].name && r[i].values == rows[i].values
    ensures forall i :: 0 <= i < |rows| && rows[i].kategorie.Some? ==> r[i] == rows[i]
    ensures forall i :: 0 <= i < |rows| && rows[i].kategorie.None? ==> r[i].kategorie == Some(Text("Sonstiges"))
  {
    seq(|rows|, i requires 0 <= i < |rows| =>
      if rows[i].kategorie.Some? then rows[i] else rows[i].(kategorie := Some(Text("Sonstiges"))))
  }

  /** `str(row['Name']).strip()`: an empty cell reads as "nan". */
  function RowName(row: CsvRow): string {
    match row.name
    case Text(s) => Strip(s)
    case NaN => Strip("nan")
  }

  /** `row.get('Kategorie', default)`, with an empty or NaN value replaced
      by the default. */
  function RowKategorie(row: CsvRow, default: string): string {
    match row.kategorie
    case None => default
    case Some(NaN) => default
    case Some(Text(s)) => if s == "" then default else s
  }

  datatype DuplicateAction = Skip | Overwrite

  /** The action in force: the user's choice when some raw name of the file
      is an existing ingredient, and skipping otherwise. */
  function EffectiveAction(existing: set<string>, rows: seq<CsvRow>, chosen: DuplicateAction): DuplicateAction {
    if exists i :: 0 <= i < |rows| && rows[i].name.Text? && rows[i].name.s in existing then chosen else Skip
  }

  /** What the import does with one row. */
  datatype RowOutcome = Skipped | Failed | Imported(name: string, zutat: Ingredient)

  function ImportRow(row: CsvRow, existing: set<string>, action: DuplicateAction, default: string): (o: RowOutcome)
    ensures o.Skipped? <==> RowName(row) in existing && action == Skip
    ensures o.Failed? <==> !(RowName(row) in existing && action == Skip) && row.values.None?
    ensures o.Imported? ==> o.name == RowName(row) && o.zutat.kategorie == Some(RowKategorie(row, default))
    ensures o.Imported? ==> row.values.Some?
                            && o.zutat.protein == row.values.value.protein
                            && o.zutat.kohlenhydrate == row.values.value.kohlenhydrate
                            && o.zutat.fett == row.values.value.fett
                            && o.zutat.kalorien == row.values.value.kalorien
  {
    var name := RowName(row);
    if name in existing && action == Skip then Skipped
    else
      match row.values
      case None => Failed
      case Some(v) => Imported(name, Ingredient(v.protein, v.kohlenhydrate, v.fett, v.kalorien, Some(RowKategorie(row, default))))
  }

  datatype ImportResult = ImportResult(zutaten: map<string, Ingredient>, imported: nat, skipped: nat, errors: seq<int>)

  /** One row's outcome recorded: a skip is counted, a failure reported
      with its line, an import stored under the row's name and counted. */
  function Record(prev: ImportResult, o: RowOutcome, line: int): ImportResult {
    match o
    case Skipped => prev.(skipped := prev.skipped + 1)
    case Failed => prev.(errors := prev.errors + [line])
    case Imported(name, zutat) => prev.(zutaten := prev.zutaten[name := zutat], imported := prev.imported + 1)
  }

  /** The outcomes recorded one after the other; the row at index `i` is
      line `i + 2` of the file (after the header, counting from one). */
  function RecordAll(zutaten: map<string, Ingredient>, outcomes: seq<RowOutcome>): ImportResult {
    if outcomes == [] then ImportResult(zutaten, 0, 0, [])
    else Record(RecordAll(zutaten, outcomes[..|outcomes| - 1]), outcomes[|outcomes| - 1], |outcomes| - 1 + 2)
  }

  function Outcomes(rows: seq<CsvRow>, existing: set<string>, action: DuplicateAction, default: string): (r: seq<RowOutcome>)
    ensures |r| == |rows| && forall i :: 0 <= i < |rows| ==> r[i] == ImportRow(rows[i], existing, action, default)
  {
    seq(|rows|, i requires 0 <= i < |rows| => ImportRow(rows[i], existing, action, default))
  }

  /** The row loop: `existing` is the set of names taken before the loop
      starts, so rows of the file repeating a name do not see each other. */
  function ImportRows(zutaten: map<string, Ingredient>, existing: set<string>, rows: seq<CsvRow>,
                      action: DuplicateAction, default: string): ImportResult
  {
    RecordAll(zutaten, Outcomes(rows, existing, action, default))
  }

  lemma RecordAllStep(zutaten: map<string, Ingredient>, outcomes: seq<RowOutcome>)
    requires outcomes != []
    ensures var n := |outcomes| - 1;
            var prev := RecordAll(zutaten, outcomes[..n]);
            var r := RecordAll(zutaten, outcomes);
            && r.imported == prev.imported + (if outcomes[n].Imported? then 1 else 0)
            && r.skipped == prev.skipped + (if outcomes[n].Skipped? then 1 else 0)
            && r.errors == prev.errors + (if outcomes[n].Failed? then [n + 2] else [])
            && r.zutaten == (if outcomes[n].Imported? then prev.zutaten[outcomes[n].name := outcomes[n].zutat] else prev.zutaten)
  {
    var n := |outcomes| - 1;
    var prev := RecordAll(zutaten, outcomes[..n]);
    assert prev.errors + [] == prev.errors;
  }

  /** Recording one more outcome of a list is recording it after its
      prefix. */
  lemma RecordAllPrefix(zutaten: map<string, Ingredient>, outcomes: seq<RowOutcome>, i: nat)
    requires i < |outcomes|
    ensures RecordAll(zutaten, outcomes[..i + 1]) == Record(RecordAll(zutaten, outcomes[..i]), outcomes[i], i + 2)
  {
    assert outcomes[..i + 1][..i] == outcomes[..i];
  }

  /** Every row is counted exactly once: imported, skipped or reported. */
  lemma {:induction false} CountsAddUp(zutaten: map<string, Ingredient>, outcomes: seq<RowOutcome>)
    ensures var r := RecordAll(zutaten, outcomes);
            r.imported + r.skipped + |r.errors| == |outcomes|
    decreases |outcomes|
  {
    if outcomes != [] {
      CountsAddUp(zutaten, outcomes[..|outcomes| - 1]);
      RecordAllStep(zutaten, outcomes);
    }
  }

  /** The reported lines are exactly those of the rows that failed. */
  lemma {:induction false} ErrorsAreFailedLines(zutaten: map<string, Ingredient>, outcomes: seq<RowOutcome>, k: int)
    ensures k in RecordAll(zutaten, outcomes).errors <==> 2 <= k < |outcomes| + 2 && outcomes[k - 2].Failed?
    decreases |outcomes|
  {
    if outcomes != [] {
      var n := |outcomes| - 1;
      ErrorsAreFailedLines(zutaten, outcomes[..n], k);
      RecordAllStep(zutaten, outcomes);
      if 2 <= k < n + 2 {
        assert outcomes[..n][k - 2] == outcomes[k - 2];
      }
    }
  }

  /** The reported lines come in increasing order, each between 2 and the
      number of rows plus one. */
  lemma {:induction false} ErrorsInOrder(zutaten: map<string, Ingredient>, outcomes: seq<RowOutcome>)
    ensures var e := RecordAll(zutaten, outcomes).errors;
            (forall a :: 0 <= a < |e| ==> 2 <= e[a] < |outcomes| + 2)
            && (forall a, b :: 0 <= a < b < |e| ==> e[a] < e[b])
    decreases |outcomes|
  {
    if outcomes != [] {
      var n := |outcomes| - 1;
      ErrorsInOrder(zutaten, outcomes[..n]);
      RecordAllStep(zutaten, outcomes);
    }
  }

  predicate ImportsAs(o: RowOutcome, name: string) {
    o.Imported? && o.name == name
  }

  /** The names in the resulting table: the old ones and those some row
      imports. */
  lemma {:induction false} ImportedNames(zutaten: map<string, Ingredient>, outcomes: seq<RowOutcome>, name: string)
    ensures name in RecordAll(zutaten, outcomes).zutaten
            <==> name in zutaten || exists k :: 0 <= k < |outcomes| && ImportsAs(outcomes[k], name)
    decreases |outcomes|
  {
    if outcomes != [] {
      var n := |outcomes| - 1;
      var init := outcomes[..n];
      ImportedNames(zutaten, init, name);
      RecordAllStep(zutaten, outcomes);
      assert forall k :: 0 <= k < n ==> init[k] == outcomes[k];
      if exists k :: 0 <= k < |outcomes| && ImportsAs(outcomes[k], name) {
        var k :| 0 <= k < |outcomes| && ImportsAs(outcomes[k], name);
        if k < n {
          assert ImportsAs(init[k], name);
        }
      }
    }
  }

  /** A name that several rows import holds the ingredient of the last of
      them: later rows overwrite earlier ones. */
  lemma {:induction false} LastRowWins(zutaten: map<string, Ingredient>, outcomes: seq<RowOutcome>, name: string, k: nat)
    requires k < |outcomes| && ImportsAs(outcomes[k], name)
    requires forall l :: k < l < |outcomes| ==> !ImportsAs(outcomes[l], name)
    ensures var r := RecordAll(zutaten, outcomes).zutaten;
            name in r && r[name] == outcomes[k].zutat
    decreases |outcomes|
  {
    var n := |outcomes| - 1;
    var init := outcomes[..n];
    RecordAllStep(zutaten, outcomes);
    if k < n {
      assert init[k] == outcomes[k];
      assert forall l :: k < l < n ==> init[l] == outcomes[l];
      LastRowWins(zutaten, init, name, k);
    }
  }

  /** A name no row imports keeps its old entry, or stays absent. */
  lemma {:induction false} UntouchedNames(zutaten: map<string, Ingredient>, outcomes: seq<RowOutcome>, name: string)
    requires forall k :: 0 <= k < |outcomes| ==> !ImportsAs(outcomes[k], name)
    ensures var r := RecordAll(zutaten, outcomes).zutaten;
            (name in r <==> name in zutaten) && (name in zutaten ==> r[name] == zutaten[name])
    decreases |outcomes|
  {
    if outcomes != [] {
      var n := |outcomes| - 1;
      var init := outcomes[..n];
      assert forall k :: 0 <= k < n ==> init[k] == outcomes[k];
      UntouchedNames(zutaten, init, name);
      RecordAllStep(zutaten, outcomes);
    }
  }

  /** Under "skip", no existing ingredient is changed by the import. */
  lemma SkipKeepsExisting(zutaten: map<string, Ingredient>, existing: set<string>, rows: seq<CsvRow>,
                          default: string, name: string)
    requires name in existing && name in zutaten
    ensures var r := ImportRows(zutaten, existing, rows, Skip, default).zutaten;
            name in r && r[name] == zutaten[name]
  {
    var outcomes := Outcomes(rows, existing, Skip, default);
    forall k | 0 <= k < |outcomes|
      ensures !ImportsAs(outcomes[k], name)
    {
    }
    UntouchedNames(zutaten, outcomes, name);
  }

  /** An imported ingredient's category is never empty when the default is
      not: an empty category falls back to the default. */
  lemma ImportedKategorie(row: CsvRow, existing: set<string>, action: DuplicateAction, default: string)
    requires default != ""
    requires ImportRow(row, existing, action, default).Imported?
    ensures ImportRow(row, existing, action, default).zutat.kategorie.Some?
    ensures ImportRow(row, existing, action, default).zutat.kategorie.value != ""
    ensures row.kategorie == None || row.kategorie == Some(NaN) || row.kategorie == Some(Text(""))
            ==> ImportRow(row, existing, action, default).zutat.kategorie == Some(default)
  {
  }

  /** A file without a Kategorie column imports every ingredient under
      "Sonstiges", whatever default the user picked: the column added before
      the loop is never empty. */
  lemma NoKategorieColumn(rows: seq<CsvRow>, existing: set<string>, action: DuplicateAction, default: string, i: nat)
    requires i < |rows| && rows[i].kategorie.None?
    requires ImportRow(AddDefaultKategorie(rows)[i], existing, action, default).Imported?
    ensures ImportRow(AddDefaultKategorie(rows)[i], existing, action, default).zutat.kategorie == Some("Sonstiges")
  {
  }

  /** With no raw name of the file among the existing ones, the action is
      "skip"; an existing name then still blocks a row whose name only
      matches after stripping. */
  lemma NoDuplicatesMeansSkip(existing: set<string>, rows: seq<CsvRow>, chosen: DuplicateAction)
    requires forall i :: 0 <= i < |rows| && rows[i].name.Text? ==> rows[i].name.s !in existing
    ensures EffectiveAction(existing, rows, chosen) == Skip
  {
  }
}
