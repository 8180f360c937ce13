/**
 * The advisory feature frame: the stored advisory documents turned into a
 * column-per-feature frame with nested weather and market fields flattened,
 * only the modelled columns kept, categories in canonical case, numeric
 * gaps imputed and a month derived from the creation timestamp.
 */
module FeatureStore {
  import opened Wrappers
  import opened Text
  import opened Records

  /** A data frame: column names in order, one cell sequence per column, all of length `height`. */
  datatype Frame = Frame(columns: seq<string>, cells: map<string, seq<Value>>, height: nat)

  /** The columns a frame keeps, in this order, when the documents provide them. */
  const Keep: seq<string> := ["crop", "soil_type", "manual_location", "temp", "humidity",
                              "market_price", "region", "advisory_text", "created_at"]
  const Categorical: seq<string> := ["crop", "soil_type", "manual_location", "region", "advisory_text"]
  const Numeric: seq<string> := ["temp", "humidity", "market_price"]

  /** Columns of a frame are distinct, each has a cell sequence, and every sequence is `height` long. */
  predicate WellFormed(f: Frame) {
    (forall i, j :: 0 <= i < j < |f.columns| ==> f.columns[i] != f.columns[j])
    && f.cells.Keys == set c | c in f.columns
    && forall c :: c in f.cells ==> |f.cells[c]| == f.height
  }

  // ---------------------------------------------------------------------
  // Building the raw frame

  /** The flattened columns exist whatever the documents hold; every other column only if some document has the key. */
  function Available(docs: seq<Document>): set<string> {
    Keys(docs) + {"temp", "humidity", "market_price", "region"}
  }

  /**
   * The raw column `key` after flattening: temp and humidity read out of
   * weather_info, market_price (the "price" key) and region out of market_info.
   */
  function RawColumn(docs: seq<Document>, key: string): (col: seq<Value>)
    ensures |col| == |docs|
  {
    if key == "temp" then Flatten(Column(docs, "weather_info"), "temp")
    else if key == "humidity" then Flatten(Column(docs, "weather_info"), "humidity")
    else if key == "market_price" then Flatten(Column(docs, "market_info"), "price")
    else if key == "region" then Flatten(Column(docs, "market_info"), "region")
    else Column(docs, key)
  }

  /** The names of `names` that are in `avail`, in the order of `names`. */
  function Filter(names: seq<string>, avail: set<string>): (r: seq<string>)
    ensures forall c :: c in r <==> c in names && c in avail
    ensures |r| <= |names|
  {
    if names == [] then []
    else (if names[0] in avail then [names[0]] else []) + Filter(names[1..], avail)
  }

  /** `a` is `b` with some elements left out, the rest in the same order. */
  predicate IsSubsequence(a: seq<string>, b: seq<string>)
    decreases |b|
  {
    a == [] || (b != [] && if a[0] == b[0] then IsSubsequence(a[1..], b[1..]) else IsSubsequence(a, b[1..]))
  }

  predicate Distinct(s: seq<string>) {
    forall i, j :: 0 <= i < j < |s| ==> s[i] != s[j]
  }

  // ---------------------------------------------------------------------
  // Per-column cleaning

  /** astype(str), then strip, lower and title on every cell. */
  function NormalizeColumn(col: seq<Value>, render: Value -> string): (r: seq<Value>)
    ensures |r| == |col|
  {
    seq(|col|, i requires 0 <= i < |col| => Str(Canonical(PyStr(col[i], render))))
  }

  /**
   * to_numeric with errors="coerce", then the gaps filled with the mean of
   * the present values, or every cell 0.0 when no value is present.
   */
  function Impute(col: seq<Value>): (r: seq<Value>)
    ensures |r| == |col|
  {
    var nums := Coerce(col);
    if |Present(nums)| > 0 then
      var filled := FillMissing(nums, Mean(Present(nums)));
      seq(|col|, i requires 0 <= i < |col| => Num(filled[i]))
    else
      seq(|col|, i => Num(0.0))
  }

  /** to_datetime with errors="coerce": a timestamp where the cell reads as one, NaT (NaN) elsewhere. */
  function DatetimeColumn(col: seq<Value>): (r: seq<Value>)
    ensures |r| == |col|
  {
    seq(|col|, i requires 0 <= i < |col| => match ToDatetime(col[i]) case Some(d) => Stamp(d) case None => NaN)
  }

  /** dt.month with NaT filled by 1, as an integer. */
  function MonthColumn(col: seq<Value>): (r: seq<Value>)
    ensures |r| == |col|
  {
    seq(|col|, i requires 0 <= i < |col| => if col[i].Stamp? then Num(col[i].date.month as real) else Num(1.0))
  }

  /** The month column of a frame without created_at. */
  function Ones(n: nat): (r: seq<Value>)
    ensures |r| == n && forall i :: 0 <= i < n ==> r[i] == Num(1.0)
  {
    seq(n, i => Num(1.0))
  }

  /**
   * The cleaned column `c` of the frame built from `docs`: the raw column
   * after the categorical pass, the numeric pass and the date pass, each of
   * which touches only the columns it names.
   */
  function CleanColumn(raw: seq<Value>, c: string, render: Value -> string): (r: seq<Value>)
    ensures |r| == |raw|
  {
    var normalized := if c in Categorical then NormalizeColumn(raw, render) else raw;
    var imputed := if c in Numeric then Impute(normalized) else normalized;
    if c == "created_at" then DatetimeColumn(imputed) else imputed
  }

  /** The flattened raw columns of the kept names. */
  function RawCells(docs: seq<Document>, columns: seq<string>): (m: map<string, seq<Value>>)
    ensures m.Keys == set c | c in columns
    ensures forall c :: c in m ==> m[c] == RawColumn(docs, c)
  {
    map c | c in columns :: RawColumn(docs, c)
  }

  /**
   * Every raw column cleaned, plus month: the month of each created_at cell
   * that reads as a date and 1 elsewhere, or 1 in every row when the frame
   * has no created_at column.
   */
  function CleanCells(raw: map<string, seq<Value>>, render: Value -> string, height: nat): map<string, seq<Value>> {
    (map c | c in raw :: CleanColumn(raw[c], c, render))
      ["month" := if "created_at" in raw then MonthColumn(DatetimeColumn(raw["created_at"])) else Ones(height)]
  }

  /**
   * The frame the pipeline returns: an empty frame without documents, a
   * KeyError naming the container when no document has weather_info or
   * market_info, and otherwise the kept columns cleaned, followed by month.
   */
  function Advisories(docs: seq<Document>, render: Value -> string): Result<Frame, string> {
    if docs == [] then Success(Frame([], map[], 0))
    else if "weather_info" !in Keys(docs) then Failure("weather_info")
    else if "market_info" !in Keys(docs) then Failure("market_info")
    else
      var kept := Filter(Keep, Available(docs));
      Success(Frame(kept + ["month"], CleanCells(RawCells(docs, kept), render, |docs|), |docs|))
  }

  /**
   * fetch_advisories_df after the documents have been read: the frame is
   * rebuilt column by column, the categorical and numeric columns in two
   * loops over their name lists, then the date columns.
   */
  method FetchAdvisoriesFrame(docs: seq<Document>, render: Value -> string) returns (r: Result<Frame, string>)
    ensures r == Advisories(docs, render)
  {
    if docs == [] {
      return Success(Frame([], map[], 0));
    }
    if "weather_info" !in Keys(docs) {
      return Failure("weather_info");
    }
    if "market_info" !in Keys(docs) {
      return Failure("market_info");
    }
    var columns := Filter(Keep, Available(docs));
    var raw := RawCells(docs, columns);
    assert "month" !in raw by {
      ColumnLists();
    }
    var cells := CleanKept(raw, render, |docs|);
    r := Success(Frame(columns + ["month"], cells, |docs|));
  }

  /** The cleaning steps on the kept columns: categorical, then numeric, then dates. */
  method CleanKept(raw: map<string, seq<Value>>, render: Value -> string, height: nat)
    returns (cells: map<string, seq<Value>>)
    requires "month" !in raw
    ensures cells == CleanCells(raw, render, height)
  {
    assert Distinct(Categorical) && Distinct(Numeric) by {
      ColumnLists();
    }
    var normalized := NormalizeColumns(raw, Categorical, render);
    var imputed := ImputeColumns(normalized, Numeric);
    cells := imputed;
    if "created_at" in cells {
      cells := cells["created_at" := DatetimeColumn(cells["created_at"])];
      cells := cells["month" := MonthColumn(cells["created_at"])];
    } else {
      cells := cells["month" := Ones(height)];
    }
    CleanedCells(raw, normalized, imputed, cells, render, height);
  }

  /** The cells the column-by-column rebuild produces are those of the specified frame. */
  lemma CleanedCells(raw: map<string, seq<Value>>, normalized: map<string, seq<Value>>,
                     imputed: map<string, seq<Value>>, cells: map<string, seq<Value>>,
                     render: Value -> string, height: nat)
    requires "month" !in raw
    requires normalized.Keys == raw.Keys
    requires forall c :: c in normalized ==>
      normalized[c] == if c in Categorical then NormalizeColumn(raw[c], render) else raw[c]
    requires imputed.Keys == normalized.Keys
    requires forall c :: c in imputed ==>
      imputed[c] == if c in Numeric then Impute(normalized[c]) else normalized[c]
    requires cells == if "created_at" in imputed
      then imputed["created_at" := DatetimeColumn(imputed["created_at"])]["month" := MonthColumn(DatetimeColumn(imputed["created_at"]))]
      else imputed["month" := Ones(height)]
    ensures cells == CleanCells(raw, render, height)
  {
    var spec := CleanCells(raw, render, height);
    assert cells.Keys == spec.Keys;
    forall c | c in cells
      ensures cells[c] == spec[c]
    {
      if c == "month" {
        if "created_at" in raw {
          assert "created_at" !in Categorical && "created_at" !in Numeric by {
            ColumnLists();
          }
          assert imputed["created_at"] == raw["created_at"];
        }
      } else {
        CleanedCell(raw[c], normalized[c], imputed[c], cells[c], c, render);
      }
    }
    MapsAgree(cells, spec);
  }

  /** One column through the three passes is the cleaned column. */
  lemma CleanedCell(raw: seq<Value>, normalized: seq<Value>, imputed: seq<Value>, cell: seq<Value>,
                    c: string, render: Value -> string)
    requires normalized == if c in Categorical then NormalizeColumn(raw, render) else raw
    requires imputed == if c in Numeric then Impute(normalized) else normalized
    requires cell == if c == "created_at" then DatetimeColumn(imputed) else imputed
    ensures cell == CleanColumn(raw, c, render)
  {
  }

  /** Two maps with the same keys and the same value at every key are equal. */
  lemma MapsAgree<K, V>(a: map<K, V>, b: map<K, V>)
    requires a.Keys == b.Keys
    requires forall k :: k in a ==> a[k] == b[k]
    ensures a == b
  {
  }

  /** In a list without duplicates, no name occurs before its own position. */
  lemma NotEarlier(names: seq<string>, i: int)
    requires Distinct(names) && 0 <= i < |names|
    ensures names[i] !in names[..i]
  {
  }

  /**
   * One pass of a loop that rewrites the listed columns in place: rewriting
   * a column not yet done extends the done list by it and leaves the rest.
   */
  lemma RewriteStep<V>(cells: map<string, V>, want: map<string, V>, out: map<string, V>,
                       done: seq<string>, col: string)
    requires want.Keys == cells.Keys && out.Keys == cells.Keys && col !in done
    requires forall c :: c in out ==> out[c] == if c in done then want[c] else cells[c]
    ensures var next := if col in out then out[col := want[col]] else out;
      next.Keys == cells.Keys
      && forall c :: c in next ==> next[c] == if c in done + [col] then want[c] else cells[c]
  {
  }

  /** The loop over the categorical names: each one present in the frame is normalized in place. */
  method NormalizeColumns(cells: map<string, seq<Value>>, names: seq<string>, render: Value -> string)
    returns (out: map<string, seq<Value>>)
    requires Distinct(names)
    ensures out.Keys == cells.Keys
    ensures forall c :: c in out ==> out[c] == if c in names then NormalizeColumn(cells[c], render) else cells[c]
  {
    ghost var want := map c | c in cells :: NormalizeColumn(cells[c], render);
    out := cells;
    for i := 0 to |names|
      invariant out.Keys == cells.Keys
      invariant forall c :: c in out ==> out[c] == if c in names[..i] then want[c] else cells[c]
    {
      var col := names[i];
      NotEarlier(names, i);
      RewriteStep(cells, want, out, names[..i], col);
      assert names[..i + 1] == names[..i] + [col];
      if col in out {
        assert out[col] == cells[col];
        out := out[col := NormalizeColumn(out[col], render)];
      }
    }
    assert names[..|names|] == names;
  }

  /** The loop over the numeric names: each one present in the frame is coerced and imputed in place. */
  method ImputeColumns(cells: map<string, seq<Value>>, names: seq<string>)
    returns (out: map<string, seq<Value>>)
    requires Distinct(names)
    ensures out.Keys == cells.Keys
    ensures forall c :: c in out ==> out[c] == if c in names then Impute(cells[c]) else cells[c]
  {
    ghost var want := map c | c in cells :: Impute(cells[c]);
    out := cells;
    for i := 0 to |names|
      invariant out.Keys == cells.Keys
      invariant forall c :: c in out ==> out[c] == if c in names[..i] then want[c] else cells[c]
    {
      var col := names[i];
      NotEarlier(names, i);
      RewriteStep(cells, want, out, names[..i], col);
      assert names[..i + 1] == names[..i] + [col];
      if col in out {
        assert out[col] == cells[col];
        out := out[col := Impute(out[col])];
      }
    }
    assert names[..|names|] == names;
  }

  /** The facts about the column lists the cleaning relies on. */
  lemma ColumnLists()
    ensures Distinct(Categorical) && Distinct(Numeric) && Distinct(Keep)
    ensures forall c :: c in Numeric ==> c !in Categorical && c != "created_at"
    ensures "created_at" !in Categorical && "month" !in Keep
    ensures forall c :: c in Keep <==> c in Categorical || c in Numeric || c == "created_at"
  {
  }

  // ---------------------------------------------------------------------
  // Properties of the frame

  /** With no stored documents the result is the empty frame. */
  lemma NoDocumentsEmptyFrame(render: Value -> string)
    ensures Advisories([], render) == Success(Frame([], map[], 0))
  {
  }

  /** The pipeline fails exactly when there are documents but none has weather_info or none has market_info. */
  lemma AdvisoriesFailure(docs: seq<Document>, render: Value -> string)
    ensures Advisories(docs, render).Failure? <==>
      docs != [] && ("weather_info" !in Keys(docs) || "market_info" !in Keys(docs))
  {
  }

  lemma {:induction false} FilterIsSubsequence(names: seq<string>, avail: set<string>)
    requires Distinct(names)
    ensures IsSubsequence(Filter(names, avail), names)
    ensures Distinct(Filter(names, avail))
  {
    if names != [] {
      FilterIsSubsequence(names[1..], avail);
      var rest := Filter(names[1..], avail);
      if names[0] in avail {
        assert Filter(names, avail) == [names[0]] + rest;
      } else {
        assert Filter(names, avail) == rest;
        assert names[0] !in rest;
        assert rest == [] || rest[0] != names[0];
      }
    }
  }

  lemma DistinctAppend(s: seq<string>, x: string)
    requires Distinct(s) && x !in s
    ensures Distinct(s + [x])
  {
    forall i, j | 0 <= i < j < |s| + 1
      ensures (s + [x])[i] != (s + [x])[j]
    {
      if j == |s| {
        assert (s + [x])[i] == s[i];
      }
    }
  }

  /** A successful frame is well formed, loses no row and ends with month. */
  lemma AdvisoriesShape(docs: seq<Document>, render: Value -> string)
    requires Advisories(docs, render).Success? && docs != []
    ensures var f := Advisories(docs, render).value;
      WellFormed(f) && f.height == |docs| && f.columns[|f.columns| - 1] == "month"
      && f.columns[..|f.columns| - 1] == Filter(Keep, Available(docs))
  {
    var kept := Filter(Keep, Available(docs));
    var raw := RawCells(docs, kept);
    assert Distinct(kept) && "month" !in kept by {
      assert Distinct(Keep) && "month" !in Keep by {
        ColumnLists();
      }
      FilterIsSubsequence(Keep, Available(docs));
    }
    FrameOfKept(kept, raw, render, |docs|);
    AdvisoriesFrame(docs, render);
  }

  /** The frame of documents that have both containers. */
  lemma AdvisoriesFrame(docs: seq<Document>, render: Value -> string)
    requires Advisories(docs, render).Success? && docs != []
    ensures var kept := Filter(Keep, Available(docs));
      Advisories(docs, render).value == Frame(kept + ["month"], CleanCells(RawCells(docs, kept), render, |docs|), |docs|)
  {
  }

  /** A kept column of the cleaned cells is its raw column through the passes for its kind. */
  lemma CleanCellAt(raw: map<string, seq<Value>>, render: Value -> string, height: nat, c: string)
    requires c in raw && c != "month"
    ensures c in CleanCells(raw, render, height)
    ensures CleanCells(raw, render, height)[c] == CleanColumn(raw[c], c, render)
  {
  }

  /** A kept column of the frame is its raw column through the passes for its kind. */
  lemma AdvisoriesColumn(docs: seq<Document>, render: Value -> string, c: string)
    requires Advisories(docs, render).Success? && docs != []
    requires c in Keep && c in Available(docs)
    ensures c in Advisories(docs, render).value.cells
    ensures Advisories(docs, render).value.cells[c] == CleanColumn(RawColumn(docs, c), c, render)
  {
    var kept := Filter(Keep, Available(docs));
    AdvisoriesFrame(docs, render);
    ColumnLists();
    CleanCellAt(RawCells(docs, kept), render, |docs|, c);
  }

  /** The pass each kind of kept column goes through. */
  lemma CleanColumnKinds(raw: seq<Value>, c: string, render: Value -> string)
    ensures c in Categorical ==> forall i :: 0 <= i < |raw| ==>
      CleanColumn(raw, c, render)[i] == Str(Canonical(PyStr(raw[i], render)))
    ensures c in Numeric ==> CleanColumn(raw, c, render) == Impute(raw)
    ensures c == "created_at" ==> forall i :: 0 <= i < |raw| ==>
      CleanColumn(raw, c, render)[i] == match ToDatetime(raw[i]) case Some(d) => Stamp(d) case None => NaN
  {
    ColumnLists();
  }

  /**
   * Each kept column holds its raw cells cleaned by the pass for its kind:
   * the canonical text of every cell for a categorical column, the imputed
   * numbers for a numeric one, and for created_at the date each cell reads
   * as, NaT where it reads as none.
   */
  lemma AdvisoriesCells(docs: seq<Document>, render: Value -> string, c: string)
    requires Advisories(docs, render).Success? && docs != []
    requires c in Keep && c in Available(docs)
    ensures c in Advisories(docs, render).value.cells
    ensures c in Categorical ==> forall i :: 0 <= i < |docs| ==>
      Advisories(docs, render).value.cells[c][i] == Str(Canonical(PyStr(RawColumn(docs, c)[i], render)))
    ensures c in Numeric ==> Advisories(docs, render).value.cells[c] == Impute(RawColumn(docs, c))
    ensures c == "created_at" ==> forall i :: 0 <= i < |docs| ==>
      Advisories(docs, render).value.cells[c][i] == match ToDatetime(Field(docs[i], c)) case Some(d) => Stamp(d) case None => NaN
  {
    AdvisoriesColumn(docs, render, c);
    CleanColumnKinds(RawColumn(docs, c), c, render);
    if c == "created_at" {
      assert RawColumn(docs, c) == Column(docs, c);
    }
  }

  /**
   * Before month, a frame holds exactly the keep-list columns the documents
   * provide, in keep-list order.
   */
  lemma KeptColumns(docs: seq<Document>)
    ensures IsSubsequence(Filter(Keep, Available(docs)), Keep)
    ensures forall c :: c in Filter(Keep, Available(docs)) <==> c in Keep && c in Available(docs)
  {
    assert Distinct(Keep) by {
      ColumnLists();
    }
    FilterIsSubsequence(Keep, Available(docs));
  }

  /** Cleaning keeps every column and every column's length, and adds month. */
  lemma CleanCellsShape(raw: map<string, seq<Value>>, render: Value -> string, height: nat)
    requires forall c :: c in raw ==> |raw[c]| == height
    ensures CleanCells(raw, render, height).Keys == raw.Keys + {"month"}
    ensures forall c :: c in CleanCells(raw, render, height) ==> |CleanCells(raw, render, height)[c]| == height
  {
  }

  /** The frame of distinct kept columns, cleaned, is well formed and ends with month. */
  lemma FrameOfKept(kept: seq<string>, raw: map<string, seq<Value>>, render: Value -> string, height: nat)
    requires Distinct(kept) && "month" !in kept
    requires raw.Keys == set c | c in kept
    requires forall c :: c in raw ==> |raw[c]| == height
    ensures var f := Frame(kept + ["month"], CleanCells(raw, render, height), height);
      WellFormed(f) && f.columns[|f.columns| - 1] == "month" && f.columns[..|f.columns| - 1] == kept
  {
    DistinctAppend(kept, "month");
    CleanCellsShape(raw, render, height);
    assert (kept + ["month"])[..|kept|] == kept;
    assert (set c | c in kept + ["month"]) == (set c | c in kept) + {"month"};
  }

  /** The flattened columns are always in the frame, whatever the documents hold. */
  lemma FlattenedColumnsKept(docs: seq<Document>, render: Value -> string)
    requires Advisories(docs, render).Success? && docs != []
    ensures forall c :: c in ["temp", "humidity", "market_price", "region", "month"] ==>
      c in Advisories(docs, render).value.cells
  {
  }

  /** temp and humidity are read from weather_info, market_price and region from market_info; a non-dict container gives a missing value. */
  lemma FlattenSources(docs: seq<Document>, i: int)
    requires 0 <= i < |docs|
    ensures RawColumn(docs, "temp")[i] == Get(Field(docs[i], "weather_info"), "temp")
    ensures RawColumn(docs, "humidity")[i] == Get(Field(docs[i], "weather_info"), "humidity")
    ensures RawColumn(docs, "market_price")[i] == Get(Field(docs[i], "market_info"), "price")
    ensures RawColumn(docs, "region")[i] == Get(Field(docs[i], "market_info"), "region")
    ensures !Field(docs[i], "weather_info").Dict? ==> RawColumn(docs, "temp")[i] == Null
  {
  }

  /** Cleaning a categorical cell twice gives what cleaning it once gave, so "  WHEAT " and "wheat" meet at "Wheat". */
  lemma NormalizeIdempotent(col: seq<Value>, render: Value -> string)
    ensures NormalizeColumn(NormalizeColumn(col, render), render) == NormalizeColumn(col, render)
  {
    var once := NormalizeColumn(col, render);
    forall i | 0 <= i < |col|
      ensures NormalizeColumn(once, render)[i] == once[i]
    {
      CanonicalIdempotent(PyStr(col[i], render));
    }
  }

  /**
   * A categorical cell is stringified before it is cleaned: None becomes
   * "None", an absent key "Nan", and text its canonical form.
   */
  lemma NormalizeMissing(col: seq<Value>, render: Value -> string)
    ensures forall i :: 0 <= i < |col| && col[i] == Null ==> NormalizeColumn(col, render)[i] == Str("None")
    ensures forall i :: 0 <= i < |col| && col[i] == NaN ==> NormalizeColumn(col, render)[i] == Str("Nan")
    ensures forall i :: 0 <= i < |col| && col[i].Str? ==> NormalizeColumn(col, render)[i] == Str(Canonical(col[i].s))
  {
    CanonicalOfNone();
    CanonicalOfNan();
  }

  /**
   * Imputation keeps every numeric cell, fills every other cell with the mean
   * of the numeric ones, and leaves that mean unchanged.
   */
  lemma ImputeFillsWithMean(col: seq<Value>)
    requires exists i :: 0 <= i < |col| && col[i].Num?
    ensures var m := Mean(Present(Coerce(col)));
      (forall i :: 0 <= i < |col| && col[i].Num? ==> Impute(col)[i] == col[i])
      && (forall i :: 0 <= i < |col| && !col[i].Num? ==> Impute(col)[i] == Num(m))
  {
    var nums := Coerce(col);
    var i :| 0 <= i < |col| && col[i].Num?;
    assert nums[i].Some?;
  }

  /** Every imputed cell is a number, and the column's mean is that of the numeric cells it started with. */
  lemma ImputeKeepsMean(col: seq<Value>)
    requires exists i :: 0 <= i < |col| && col[i].Num?
    ensures forall i :: 0 <= i < |col| ==> Impute(col)[i].Num?
    ensures Mean(Present(Coerce(Impute(col)))) == Mean(Present(Coerce(col)))
  {
    var nums := Coerce(col);
    var filled := ImputeIsFilled(col);
    FillWithMeanKeepsMean(nums);
    CoerceOfNumbers(filled);
    PresentOfAll(filled);
  }

  /** With some number present, imputing wraps the mean-filled numbers. */
  lemma ImputeIsFilled(col: seq<Value>) returns (filled: seq<real>)
    requires exists i :: 0 <= i < |col| && col[i].Num?
    ensures |Present(Coerce(col))| > 0
    ensures filled == FillMissing(Coerce(col), Mean(Present(Coerce(col))))
    ensures Impute(col) == seq(|filled|, j requires 0 <= j < |filled| => Num(filled[j]))
  {
    var nums := Coerce(col);
    var i :| 0 <= i < |col| && col[i].Num?;
    assert nums[i].Some?;
    filled := FillMissing(nums, Mean(Present(nums)));
  }

  /** to_numeric of a column of numbers keeps every one. */
  lemma CoerceOfNumbers(xs: seq<real>)
    ensures Coerce(seq(|xs|, j requires 0 <= j < |xs| => Num(xs[j]))) == seq(|xs|, j requires 0 <= j < |xs| => Some(xs[j]))
  {
  }

  /** Every value present: dropna gives them all back. */
  lemma {:induction false} PresentOfAll(xs: seq<real>)
    ensures Present(seq(|xs|, j requires 0 <= j < |xs| => Some(xs[j]))) == xs
  {
    if xs != [] {
      var wrapped := seq(|xs|, j requires 0 <= j < |xs| => Some(xs[j]));
      PresentOfAll(xs[1..]);
      assert wrapped[1..] == seq(|xs[1..]|, j requires 0 <= j < |xs[1..]| => Some(xs[1..][j]));
    }
  }

  /** A numeric column without a single number becomes all 0.0. */
  lemma ImputeWithoutNumbers(col: seq<Value>)
    requires forall i :: 0 <= i < |col| ==> !col[i].Num?
    ensures forall i :: 0 <= i < |col| ==> Impute(col)[i] == Num(0.0)
  {
    assert |Present(Coerce(col))| == 0;
  }

  /** A whole month number, 1 to 12. */
  predicate IsMonthNumber(v: Value) {
    v.Num? && 1.0 <= v.x <= 12.0 && v.x == v.x.Floor as real
  }

  /**
   * The month of every row is a whole month number: that of the date the
   * created_at cell reads as, and 1 where it does not read as one.
   */
  lemma MonthColumnInRange(col: seq<Value>)
    requires forall i :: 0 <= i < |col| && col[i].Stamp? ==> ValidDate(col[i].date)
    ensures |MonthColumn(DatetimeColumn(col))| == |col|
    ensures forall i :: 0 <= i < |col| ==> IsMonthNumber(MonthColumn(DatetimeColumn(col))[i])
    ensures forall i :: 0 <= i < |col| && ToDatetime(col[i]).None? ==> MonthColumn(DatetimeColumn(col))[i] == Num(1.0)
    ensures forall i :: 0 <= i < |col| && ToDatetime(col[i]).Some? ==>
      MonthColumn(DatetimeColumn(col))[i] == Num(ToDatetime(col[i]).value.month as real)
  {
    var dt := DatetimeColumn(col);
    forall i | 0 <= i < |col|
      ensures IsMonthNumber(MonthColumn(dt)[i])
    {
      if dt[i].Stamp? {
        assert ValidDate(dt[i].date);
      }
    }
  }

  /** The month column built from the kept columns of some documents. */
  lemma KeptMonth(docs: seq<Document>, kept: seq<string>, render: Value -> string)
    requires forall c :: c in kept <==> c in Keep && c in Available(docs)
    ensures var month := CleanCells(RawCells(docs, kept), render, |docs|)["month"];
      ("created_at" in Keys(docs) ==> month == MonthColumn(DatetimeColumn(Column(docs, "created_at"))))
      && ("created_at" !in Keys(docs) ==> month == Ones(|docs|))
  {
    assert "created_at" in Keep;
  }

  /** The month column comes from created_at when some document has it, and is 1 in every row otherwise. */
  lemma AdvisoriesMonth(docs: seq<Document>, render: Value -> string)
    requires Advisories(docs, render).Success? && docs != []
    ensures var month := Advisories(docs, render).value.cells["month"];
      ("created_at" in Keys(docs) ==> month == MonthColumn(DatetimeColumn(Column(docs, "created_at"))))
      && ("created_at" !in Keys(docs) ==> month == Ones(|docs|))
  {
    KeptColumns(docs);
    KeptMonth(docs, Filter(Keep, Available(docs)), render);
    AdvisoriesFrame(docs, render);
  }
}
