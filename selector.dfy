/**
 * The events selector file of mpulse-annotator.py: `decomment` drops the
 * comments and blank lines, and `parseEventsSelector` turns the remaining
 * comma-separated rows into a table from event definition ID to the class to
 * instantiate and the criteria string handed to its `matchCriteria`.
 */
module Selector {
  import opened Wrappers
  import opened Json
  import opened Text
  import opened Events

  // ----- decomment -----

  /** `row.split('#')[0].strip()`: a line without its comment and surrounding whitespace. */
  function Cleaned(line: string): (r: string)
    ensures '#' !in r
  {
    var piece := Split(line, '#')[0];
    StripOmits(piece, '#');
    Strip(piece)
  }

  /** `decomment(csvfile)`: the cleaned lines that are not empty, in file order. */
  function Decomment(lines: seq<string>): (r: seq<string>)
    ensures |r| <= |lines|
    ensures forall k :: 0 <= k < |r| ==> r[k] != [] && '#' !in r[k] && Stripped(r[k])
  {
    if lines == [] then [] else Kept(lines[0]) + Decomment(lines[1..])
  }

  /** What `decomment` yields for one line: its cleaned text, unless that is empty. */
  function Kept(line: string): (r: seq<string>)
    ensures |r| <= 1
    ensures |r| == 1 <==> Cleaned(line) != []
    ensures forall k :: 0 <= k < |r| ==> r[k] == Cleaned(line) && r[k] != [] && Stripped(r[k])
  {
    if Cleaned(line) != [] then [Cleaned(line)] else []
  }

  /**
   * A `#` anywhere in a line cuts the rest of it; the text before the first
   * `#` is then only stripped.
   */
  lemma HashCutsLine(p: string, t: string)
    ensures Cleaned(p + ['#'] + t) == Cleaned(p)
    ensures '#' !in p ==> Cleaned(p) == Strip(p)
  {
    FirstPieceCut(p, '#', t);
    if '#' !in p {
      SplitPiece(p, '#');
    }
  }

  /** Each line is filtered on its own: decommenting a file is decommenting its parts. */
  lemma {:induction false} DecommentAppend(a: seq<string>, b: seq<string>)
    ensures Decomment(a + b) == Decomment(a) + Decomment(b)
  {
    if a == [] {
      assert a + b == b;
    } else {
      assert (a + b)[0] == a[0];
      assert (a + b)[1..] == a[1..] + b;
      DecommentAppend(a[1..], b);
    }
  }

  /** A line `decomment` yields is its own cleaned text. */
  lemma KeptIdempotent(line: string)
    ensures Decomment(Kept(line)) == Kept(line)
  {
    var kept := Kept(line);
    if kept != [] {
      var raw := kept[0];
      SplitPiece(raw, '#');
      assert Kept(raw) == [raw];
      assert kept[1..] == [];
    }
  }

  /** Every line `decomment` yields comes back unchanged from it, so a second pass changes nothing. */
  lemma {:induction false} DecommentIdempotent(lines: seq<string>)
    ensures Decomment(Decomment(lines)) == Decomment(lines)
  {
    if lines != [] {
      var rest := Decomment(lines[1..]);
      DecommentIdempotent(lines[1..]);
      KeptIdempotent(lines[0]);
      DecommentAppend(Kept(lines[0]), rest);
    }
  }

  // ----- parseEventsSelector -----

  /** The class name a selector row gives for each kind of event. */
  function ClassName(kind: Kind): string {
    match kind
    case FastPurge => "FastPurgeEvent"
    case PropertyManager => "PropertyManagerEvent"
    case Eccu => "EccuEvent"
  }

  /** The class a second column names, if it names one exactly. */
  function KindNamed(name: string): (r: Option<Kind>)
    ensures r.Some? ==> ClassName(r.value) == name
    ensures forall kind :: ClassName(kind) == name ==> r == Some(kind)
  {
    if name == "FastPurgeEvent" then Some(FastPurge)
    else if name == "PropertyManagerEvent" then Some(PropertyManager)
    else if name == "EccuEvent" then Some(Eccu)
    else None
  }

  /** A table value: `[ <class>, <criteria> ]`. */
  datatype SelectorEntry = SelectorEntry(kind: Kind, criteria: string)

  /** The selector: event definition ID to the entry its row gave. */
  type Table = map<string, SelectorEntry>

  /** The rows `csv.reader` hands over, read as plain comma-separated fields. */
  function Rows(lines: seq<string>): (r: seq<seq<string>>)
    ensures |r| == |Decomment(lines)|
    ensures forall k :: 0 <= k < |r| ==> |r[k]| >= 1 && Join(r[k], ',') == Decomment(lines)[k]
    ensures forall k, f :: 0 <= k < |r| && f in r[k] ==> ',' !in f
  {
    var raws := Decomment(lines);
    SplitsJoinBack(raws);
    seq(|raws|, k requires 0 <= k < |raws| => Split(raws[k], ','))
  }

  lemma SplitsJoinBack(raws: seq<string>)
    ensures forall k :: 0 <= k < |raws| ==> Join(Split(raws[k], ','), ',') == raws[k]
  {
    forall k | 0 <= k < |raws|
      ensures Join(Split(raws[k], ','), ',') == raws[k]
    {
      JoinSplit(raws[k], ',');
    }
  }

  /**
   * The table update one row makes: none for a class name it does not know,
   * and `IndexError` when `row[1]`, or `row[2]` of a known class, is missing.
   */
  function RowEntry(row: seq<string>): Result<Option<(string, SelectorEntry)>, PyError> {
    if |row| < 2 then Failure(IndexError(1))
    else
      var kind := KindNamed(row[1]);
      if kind.None? then Success(None)
      else if |row| < 3 then Failure(IndexError(2))
      else Success(Some((row[0], SelectorEntry(kind.value, row[2]))))
  }

  /**
   * A row naming a class exactly maps its first column to that class and its
   * third column; a row naming none adds nothing; a missing column raises.
   */
  lemma RowEntryMeaning(row: seq<string>, kind: Kind)
    ensures |row| < 2 ==> RowEntry(row) == Failure(IndexError(1))
    ensures |row| >= 2 && (forall k :: row[1] != ClassName(k)) ==> RowEntry(row) == Success(None)
    ensures |row| == 2 && row[1] == ClassName(kind) ==> RowEntry(row) == Failure(IndexError(2))
    ensures |row| >= 3 && row[1] == ClassName(kind) ==>
              RowEntry(row) == Success(Some((row[0], SelectorEntry(kind, row[2]))))
  {
  }

  /** The selector after one row. */
  function Put(t: Table, e: Option<(string, SelectorEntry)>): Table {
    if e.Some? then t[e.value.0 := e.value.1] else t
  }

  /** The selector after all rows, or the exception of the first row that raises. */
  function Build(rows: seq<seq<string>>): Result<Table, PyError> {
    if rows == [] then Success(map[])
    else
      var t :- Build(rows[..|rows| - 1]);
      var e :- RowEntry(rows[|rows| - 1]);
      Success(Put(t, e))
  }

  lemma BuildStep(rows: seq<seq<string>>, i: nat)
    requires i < |rows|
    requires Build(rows[..i]).Success? && RowEntry(rows[i]).Success?
    ensures Build(rows[..i + 1]) == Success(Put(Build(rows[..i]).value, RowEntry(rows[i]).value))
  {
    assert rows[..i + 1][..i] == rows[..i];
  }

  /** Reading stops with the exception of the first row that raises. */
  lemma {:induction false} BuildStopsAt(rows: seq<seq<string>>, i: nat)
    requires i < |rows|
    requires Build(rows[..i]).Success? && RowEntry(rows[i]).Failure?
    ensures Build(rows) == Failure(RowEntry(rows[i]).error)
    decreases |rows|
  {
    if i < |rows| - 1 {
      var init := rows[..|rows| - 1];
      assert init[..i] == rows[..i];
      BuildStopsAt(init, i);
    } else {
      assert rows[..|rows| - 1] == rows[..i];
    }
  }

  /** The file is rejected exactly when one of its rows raises. */
  lemma {:induction false} BuildFailsIff(rows: seq<seq<string>>)
    ensures Build(rows).Failure? <==> exists i :: 0 <= i < |rows| && RowEntry(rows[i]).Failure?
  {
    if rows != [] {
      var init := rows[..|rows| - 1];
      BuildFailsIff(init);
      if Build(init).Failure? {
        var i :| 0 <= i < |init| && RowEntry(init[i]).Failure?;
        assert RowEntry(rows[i]).Failure?;
      }
      if exists i :: 0 <= i < |rows| && RowEntry(rows[i]).Failure? {
        var i :| 0 <= i < |rows| && RowEntry(rows[i]).Failure?;
        if i < |init| {
          assert RowEntry(init[i]).Failure?;
        }
      }
    }
  }

  /** A row with a class name the selector does not know leaves the table as it was. */
  lemma UnknownClassIgnored(rows: seq<seq<string>>, row: seq<string>)
    requires |row| >= 2 && forall kind :: row[1] != ClassName(kind)
    ensures Build(rows + [row]) == Build(rows)
  {
    assert (rows + [row])[..|rows|] == rows;
  }

  /** Row `i` maps `id` to an entry. */
  ghost predicate Defines(rows: seq<seq<string>>, id: string, i: int) {
    && 0 <= i < |rows|
    && RowEntry(rows[i]).Success?
    && RowEntry(rows[i]).value.Some?
    && RowEntry(rows[i]).value.value.0 == id
  }

  /** Dropping the last row keeps the definitions of the others. */
  lemma DefinesInit(rows: seq<seq<string>>, id: string, i: int)
    requires rows != [] && 0 <= i < |rows| - 1
    ensures Defines(rows[..|rows| - 1], id, i) <==> Defines(rows, id, i)
  {
  }

  /** An ID is in the table exactly when some row defines it. */
  lemma {:induction false} BuildHas(rows: seq<seq<string>>, id: string)
    requires Build(rows).Success?
    ensures id in Build(rows).value <==> exists i :: Defines(rows, id, i)
  {
    if rows != [] {
      var init := rows[..|rows| - 1];
      BuildHas(init, id);
      if !Defines(rows, id, |rows| - 1) {
        if exists i :: Defines(rows, id, i) {
          var i :| Defines(rows, id, i);
          DefinesInit(rows, id, i);
        }
        if exists i :: Defines(init, id, i) {
          var i :| Defines(init, id, i);
          DefinesInit(rows, id, i);
        }
      }
    }
  }

  /** A defined ID maps to the entry of the last row that defines it. */
  lemma {:induction false} BuildLastWins(rows: seq<seq<string>>, id: string, i: int)
    requires Build(rows).Success?
    requires Defines(rows, id, i) && forall j :: i < j < |rows| ==> !Defines(rows, id, j)
    ensures id in Build(rows).value && Build(rows).value[id] == RowEntry(rows[i]).value.value.1
  {
    var n := |rows| - 1;
    if i < n {
      var init := rows[..n];
      DefinesInit(rows, id, i);
      forall j | i < j < n
        ensures !Defines(init, id, j)
      {
        DefinesInit(rows, id, j);
      }
      BuildLastWins(init, id, i);
      assert !Defines(rows, id, n);
      assert init[i] == rows[i];
      assert Build(rows).value == Put(Build(init).value, RowEntry(rows[n]).value);
    }
  }

  /** The body of the `for row in reader` loop: the three class-name tests, each storing `[ class, row[2] ]` under `row[0]`. */
  method ApplyRow(selector: Table, row: seq<string>) returns (r: Result<Table, PyError>)
    ensures RowEntry(row).Failure? ==> r == Failure(RowEntry(row).error)
    ensures RowEntry(row).Success? ==> r == Success(Put(selector, RowEntry(row).value))
  {
    if |row| < 2 {
      return Failure(IndexError(1));
    }
    var t := selector;
    if row[1] == "FastPurgeEvent" {
      if |row| < 3 {
        return Failure(IndexError(2));
      }
      t := t[row[0] := SelectorEntry(FastPurge, row[2])];
    }
    if row[1] == "PropertyManagerEvent" {
      if |row| < 3 {
        return Failure(IndexError(2));
      }
      t := t[row[0] := SelectorEntry(PropertyManager, row[2])];
    }
    if row[1] == "EccuEvent" {
      if |row| < 3 {
        return Failure(IndexError(2));
      }
      t := t[row[0] := SelectorEntry(Eccu, row[2])];
    }
    return Success(t);
  }

  /** `parseEventsSelector(csvfile)` on the lines of the file. */
  method ParseEventsSelector(lines: seq<string>) returns (r: Result<Table, PyError>)
    ensures r == Build(Rows(lines))
  {
    var rows := Rows(lines);
    var selector: Table := map[];
    var i := 0;
    while i < |rows|
      invariant 0 <= i <= |rows|
      invariant Build(rows[..i]) == Success(selector)
    {
      var next := ApplyRow(selector, rows[i]);
      if next.Failure? {
        BuildStopsAt(rows, i);
        return Failure(next.error);
      }
      selector := next.value;
      BuildStep(rows, i);
      i := i + 1;
    }
    assert rows[..i] == rows;
    return Success(selector);
  }
}
