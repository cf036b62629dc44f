/** The student table: the loaded records in document order, and the four
    column widths (name, group, avg, debt) that the printed table uses. */
module Table {
  import opened Results
  import opened Json
  import opened Students

  /** The four column widths, in column order (`length_1_field` to
      `length_4_field`). */
  datatype Lengths = Lengths(name: nat, group: nat, avg: nat, debt: nat)

  datatype Column = NameCol | GroupCol | AvgCol | DebtCol

  function At(w: Lengths, c: Column): nat
  {
    match c
    case NameCol => w.name
    case GroupCol => w.group
    case AvgCol => w.avg
    case DebtCol => w.debt
  }

  /** The widths of a table that holds no records. */
  const Seed := Lengths(15, 8, 6, 15)

  /** How long the printed text of the cells is whose text the record code
      decides: an integer group, the average, a null debt and a debt list.
      Names, string groups and string debts print as themselves. */
  datatype Layout = Layout(
    groupIntLen: int -> nat,
    avgLen: real -> nat,
    noDebtLen: nat,
    debtListLen: seq<Value> -> nat)

  /** The printed length of each of a record's four cells. */
  function CellLengths(s: Student, lay: Layout): Lengths
  {
    Lengths(
      |s.name|,
      match s.group
        case GStr(t) => |t|
        case GInt(n) => lay.groupIntLen(n),
      lay.avgLen(s.avg),
      match s.debt
        case DNone => lay.noDebtLen
        case DOne(t) => |t|
        case DMany(ts) => lay.debtListLen(ts))
  }

  function Cells(ss: seq<Student>, lay: Layout): (cs: seq<Lengths>)
    ensures |cs| == |ss|
    ensures forall k :: 0 <= k < |ss| ==> cs[k] == CellLengths(ss[k], lay)
  {
    seq(|ss|, k requires 0 <= k < |ss| => CellLengths(ss[k], lay))
  }

  /** A column of width `width` after a cell of length `len`: one more than
      the cell when the cell does not fit with a space to spare. */
  function Fit(width: nat, len: nat): nat
  {
    if len + 1 > width then len + 1 else width
  }

  function Grow(w: Lengths, cell: Lengths): Lengths
  {
    Lengths(Fit(w.name, cell.name), Fit(w.group, cell.group),
            Fit(w.avg, cell.avg), Fit(w.debt, cell.debt))
  }

  /** The widths after growing the seed over the cells, first to last. */
  function Widths(cells: seq<Lengths>): Lengths
  {
    if cells == [] then Seed else Grow(Widths(cells[..|cells| - 1]), cells[|cells| - 1])
  }

  /** Each width is the larger of the column's minimum and one more than the
      longest cell in that column: it is at least both, and equal to one of
      them. */
  lemma {:induction false} WidthsIsMax(cells: seq<Lengths>, c: Column)
    ensures At(Widths(cells), c) >= At(Seed, c)
    ensures forall k :: 0 <= k < |cells| ==> At(Widths(cells), c) >= At(cells[k], c) + 1
    ensures At(Widths(cells), c) == At(Seed, c) ||
            exists k :: 0 <= k < |cells| && At(Widths(cells), c) == At(cells[k], c) + 1
  {
    if cells != [] {
      var n := |cells| - 1;
      var init := cells[..n];
      WidthsIsMax(init, c);
      assert forall k :: 0 <= k < n ==> init[k] == cells[k];
      assert At(Widths(cells), c) == Fit(At(Widths(init), c), At(cells[n], c));
    }
  }

  /** Widths only grow as more records are taken into account. */
  lemma {:induction false} WidthsGrowWithPrefix(cells: seq<Lengths>, n: nat, c: Column)
    requires n <= |cells|
    ensures At(Widths(cells[..n]), c) <= At(Widths(cells), c)
    decreases |cells|
  {
    if n < |cells| {
      var init := cells[..|cells| - 1];
      assert init[..n] == cells[..n];
      WidthsGrowWithPrefix(init, n, c);
      assert At(Widths(cells), c) == Fit(At(Widths(init), c), At(cells[|cells| - 1], c));
    } else {
      assert cells[..n] == cells;
    }
  }

  function Dashes(n: nat): (r: string)
    ensures |r| == n && forall k :: 0 <= k < n ==> r[k] == '-'
  {
    seq(n, _ => '-')
  }

  /** The positions of the five '|' in the rule for widths `w`. */
  predicate IsBar(w: Lengths, k: int)
  {
    k == 0 || k == w.name + 1 || k == w.name + w.group + 2 ||
    k == w.name + w.group + w.avg + 3 || k == w.name + w.group + w.avg + w.debt + 4
  }

  /** The rule printed under the header: each column is a run of as many '-'
      as its width, and the columns are framed by '|'. */
  function Separator(w: Lengths): (r: string)
    ensures |r| == w.name + w.group + w.avg + w.debt + 5
    ensures forall k :: 0 <= k < |r| ==> r[k] == (if IsBar(w, k) then '|' else '-')
  {
    "|" + Dashes(w.name) + "|" + Dashes(w.group) + "|" + Dashes(w.avg) + "|" + Dashes(w.debt) + "|"
  }

  /** The rule of an empty table. */
  lemma SeedSeparator()
    ensures Separator(Seed) == "|---------------|--------|------|---------------|"
  {
    assert Dashes(15) == "---------------";
    assert Dashes(8) == "--------";
    assert Dashes(6) == "------";
    // The solver joins literal strings one piece at a time.
    assert "|" + "---------------" == "|---------------";
    assert "|---------------" + "|" == "|---------------|";
    assert "|---------------|" + "--------" == "|---------------|--------";
    assert "|---------------|--------" + "|" == "|---------------|--------|";
    assert "|---------------|--------|" + "------" == "|---------------|--------|------";
    assert "|---------------|--------|------" + "|" == "|---------------|--------|------|";
    assert "|---------------|--------|------|" + "---------------" == "|---------------|--------|------|---------------";
    assert "|---------------|--------|------|---------------" + "|" == "|---------------|--------|------|---------------|";
  }

  /** A document of the shape the table loads, with the given items and
      declared count. */
  function Document(items: seq<Value>, count: int): Value
  {
    Obj(map["items" := Arr(items), "_meta" := Obj(map["count" := Int(count)])])
  }

  /** Checks the document envelope and gives its items: `items` must be an
      array and `_meta.count` an integer equal to the array's length. */
  function Envelope(doc: Value): (r: Result<seq<Value>>)
    ensures r.Success? <==>
      Has(doc, "items") && doc.fields["items"].Arr? &&
      Has(doc, "_meta") && Has(doc.fields["_meta"], "count") &&
      doc.fields["_meta"].fields["count"] == Int(|doc.fields["items"].elems|)
    ensures r.Success? ==> Has(doc, "items") && doc.fields["items"] == Arr(r.value)
    ensures r.Success? ==> (Has(doc, "_meta") && Has(doc.fields["_meta"], "count") &&
      doc.fields["_meta"].fields["count"] == Int(|r.value|))
    ensures !Has(doc, "items") || !doc.fields["items"].Arr? ==> r.Failure?
  {
    if !Has(doc, "items") || !doc.fields["items"].Arr? then Failure(InvalidArgument)
    else
      var items := doc.fields["items"].elems;
      if !Has(doc, "_meta") || !Has(doc.fields["_meta"], "count") then Failure(InvalidArgument)
      else if doc.fields["_meta"].fields["count"] != Int(|items|) then Failure(InvalidArgument)
      else Success(items)
  }

  /** The envelope is read back from any document built with the right count,
      and refused when the count is wrong. */
  lemma EnvelopeOfDocument(items: seq<Value>, count: int)
    ensures Envelope(Document(items, count)) ==
      if count == |items| then Success(items) else Failure(InvalidArgument)
  {
  }

  /** Validates every item into a record; the first item that fails fails
      the whole list. */
  function ValidateAll(items: seq<Value>): (r: Result<seq<Student>>)
    ensures r.Success? <==> forall k :: 0 <= k < |items| ==> FromJson(items[k]).Success?
    ensures r.Success? ==> (|r.value| == |items| &&
      forall k :: 0 <= k < |items| ==> FromJson(items[k]) == Success(r.value[k]))
  {
    if items == [] then Success([])
    else
      match FromJson(items[0])
      case Failure(e) => Failure(e)
      case Success(s) =>
        match ValidateAll(items[1..])
        case Failure(e) => Failure(e)
        case Success(rest) => Success([s] + rest)
  }

  /** The records a document loads, in document order, or the error. */
  function Load(doc: Value): Result<seq<Student>>
  {
    match Envelope(doc)
    case Failure(e) => Failure(e)
    case Success(items) => ValidateAll(items)
  }

  /** A load succeeds exactly when the envelope is right and every item is a
      valid record; it then yields one record per item, in order. */
  lemma LoadSpec(doc: Value)
    ensures Load(doc).Success? <==> (Envelope(doc).Success? &&
      forall k :: 0 <= k < |Envelope(doc).value| ==> FromJson(Envelope(doc).value[k]).Success?)
    ensures Load(doc).Success? ==>
      |Load(doc).value| == |Envelope(doc).value| == doc.fields["_meta"].fields["count"].i &&
      forall k :: 0 <= k < |Load(doc).value| ==> FromJson(Envelope(doc).value[k]) == Success(Load(doc).value[k])
  {
  }

  class Parser {
    const layout: Layout
    /** The loaded records, in document order. */
    var students: seq<Student>
    /** The current column widths. */
    var l: Lengths

    /** The widths always fit the loaded records. */
    ghost predicate Valid()
      reads this
    {
      l == Widths(Cells(students, layout))
    }

    /** An empty table with the minimum widths. */
    constructor (layout: Layout)
      ensures this.layout == layout
      ensures students == [] && l == Seed && Valid()
    {
      this.layout := layout;
      students := [];
      l := Seed;
    }

    /** The loaded records, in document order. */
    function GetStudents(): (r: seq<Student>)
      reads this
      ensures r == students
    {
      students
    }

    /** The widths, which fit the loaded records. */
    function GetL(): (r: Lengths)
      reads this
      requires Valid()
      ensures r == Widths(Cells(students, layout))
    {
      l
    }

    /** The rule for the widths that fit the loaded records. */
    function GetSeparator(): (r: string)
      reads this
      requires Valid()
      ensures r == Separator(Widths(Cells(students, layout)))
    {
      Separator(l)
    }

    /** True when no record is loaded. */
    function EmptyJSONobject(): (r: bool)
      reads this
      ensures r <==> |students| == 0
    {
      students == []
    }

    /** Recomputes the widths from the minimums over every loaded record. */
    method SetLengths()
      modifies this`l
      ensures l == Widths(Cells(students, layout))
    {
      var cells := Cells(students, layout);
      l := Seed;
      var i := 0;
      while i < |students|
        invariant 0 <= i <= |students|
        invariant l == Widths(cells[..i])
      {
        var c := CellLengths(students[i], layout);
        if c.name + 1 > l.name { l := l.(name := c.name + 1); }
        if c.group + 1 > l.group { l := l.(group := c.group + 1); }
        if c.avg + 1 > l.avg { l := l.(avg := c.avg + 1); }
        if c.debt + 1 > l.debt { l := l.(debt := c.debt + 1); }
        assert cells[..i + 1][..i] == cells[..i];
        i := i + 1;
      }
      assert cells[..i] == cells;
    }

    /** Loads a document: on success the records become the document's items
        in order and the widths are recomputed; on failure nothing changes. */
    method SetJSONString(doc: Value) returns (res: Outcome)
      requires Valid()
      modifies this
      ensures Valid()
      ensures res.Pass? <==> Load(doc).Success?
      ensures res.Pass? ==> students == Load(doc).value
      ensures res.Fail? ==> students == old(students) && l == old(l)
    {
      var env := Envelope(doc);
      if env.Failure? {
        return Fail(env.error);
      }
      var items := env.value;
      var loaded: seq<Student> := [];
      var i := 0;
      while i < |items|
        invariant 0 <= i <= |items|
        invariant |loaded| == i
        invariant forall k :: 0 <= k < i ==> FromJson(items[k]) == Success(loaded[k])
      {
        var r := FromJson(items[i]);
        if r.Failure? {
          return Fail(r.error);
        }
        loaded := loaded + [r.value];
        i := i + 1;
      }
      students := loaded;
      SetLengths();
      res := Pass;
    }
  }
}
