/** The documents and records of the repository's tests, and what the model
    says about them. */
module Scenarios {
  import opened Results
  import opened Json
  import opened Students
  import opened Table
  import Decimal

  function Record(name: string, group: Value, avg: Value, debt: Value): Value
  {
    Obj(map["name" := Str(name), "group" := group, "avg" := avg, "debt" := debt])
  }

  /** A record object is built exactly when its group, average and debt
      validate, with the name it carries. */
  lemma FromRecord(name: string, group: Value, avg: Value, debt: Value)
    ensures FromJson(Record(name, group, avg, debt)) ==
      if GroupFrom(group).Success? && AvgFrom(avg).Success? && DebtFrom(debt).Success?
      then Success(Student(name, GroupFrom(group).value, AvgFrom(avg).value, DebtFrom(debt).value))
      else Failure(InvalidArgument)
  {
    var j := Record(name, group, avg, debt);
    assert j.fields["name"] == Str(name);
    assert j.fields["group"] == group;
    assert j.fields["avg"] == avg;
    assert j.fields["debt"] == debt;
  }

  /** The three records of the loading tests, with the long name, group and
      debt of the width test when `long` is set. */
  function Items(long: bool): seq<Value>
  {
    [Record(if long then "Ivanov Petr Petrovich" else "Ivanov Petr", Str("1"), Str("4.25"), Null),
     Record("Sidorov Ivan", Int(31), Int(4), Str(if long then "C++ Java Python C#" else "C++")),
     Record("Pertov Nikita", Str(if long then "IU8-31-2019-2025" else "IU8-31"), Num(3.33),
            Arr([Str("C++"), Str("Linux"), Str("Network")]))]
  }

  lemma ParsesFourPointTwoFive()
    ensures Decimal.ParseDecimal("4.25") == Some(4.25)
  {
    Decimal.ParseDecimalOfText(false, "4", "25");
    assert Decimal.DecimalText(false, "4", "25") == "4.25";
    assert "25"[..1] == "2";
    assert Decimal.DigitsValue("25") == 25;
  }

  /** Each kind a field may take is accepted, and stored as itself. */
  lemma AcceptedRecords()
    ensures FromJson(Record("Ivanov Petr", Str("1"), Str("4.25"), Null)) ==
            Success(Student("Ivanov Petr", GStr("1"), 4.25, DNone))
    ensures FromJson(Record("Sidorov Ivan", Int(31), Int(4), Str("C++"))) ==
            Success(Student("Sidorov Ivan", GInt(31), 4.0, DOne("C++")))
    ensures FromJson(Record("Pertov Nikita", Str("IU8-31"), Num(3.33), Arr([Str("C++"), Str("Linux"), Str("Network")]))) ==
            Success(Student("Pertov Nikita", GStr("IU8-31"), 3.33, DMany([Str("C++"), Str("Linux"), Str("Network")])))
  {
    ParsesFourPointTwoFive();
    FromRecord("Ivanov Petr", Str("1"), Str("4.25"), Null);
    FromRecord("Sidorov Ivan", Int(31), Int(4), Str("C++"));
    FromRecord("Pertov Nikita", Str("IU8-31"), Num(3.33), Arr([Str("C++"), Str("Linux"), Str("Network")]));
  }

  /** An object with a key missing, or an array for the average, is refused,
      and so is a non-numeric string or an array given to the average setter. */
  lemma RejectedRecords(s: Student)
    ensures FromJson(Obj(map[])).Failure?
    ensures FromJson(Record("Sidorov Ivan", Str("31"), Arr([]), Str("C++"))).Failure?
    ensures FromJson(Record("Sidorov Ivan", Int(31), Arr([]), Str("C++"))).Failure?
    ensures SetAvg(s, Str("avg")).Failure?
    ensures SetAvg(s, Arr([])).Failure?
  {
  }

  /** Setting all four fields of any record and then the group again leaves
      the new group beside the other three fields. */
  lemma SettersReplaceOneField(s0: Student)
    ensures var s1 := SetName(s0, Str("Sidorov Ivan")).value;
      var s2 := SetGroup(s1, Int(31)).value;
      var s3 := SetAvg(s2, Int(4)).value;
      var s4 := SetDebt(s3, Str("C++")).value;
      s4 == Student("Sidorov Ivan", GInt(31), 4.0, DOne("C++")) &&
      SetGroup(s4, Int(24)) == Success(Student("Sidorov Ivan", GInt(24), 4.0, DOne("C++")))
  {
  }

  /** The test document loads three records in order; its variants with the
      items given as an object, or with a wrong count, fail. */
  lemma LoadScenarios()
    ensures Load(Document(Items(false), 3)).Success?
    ensures |Load(Document(Items(false), 3)).value| == 3
    ensures Load(Document(Items(false), 3)).value[1] == Student("Sidorov Ivan", GInt(31), 4.0, DOne("C++"))
    ensures Load(Obj(map["items" := Record("Ivanov Petr", Str("1"), Str("4.25"), Null)])).Failure?
    ensures Load(Document(Items(false), 4)).Failure?
  {
    AcceptedRecords();
    EnvelopeOfDocument(Items(false), 3);
    EnvelopeOfDocument(Items(false), 4);
    var items := Items(false);
    assert FromJson(items[0]).Success? && FromJson(items[1]).Success? && FromJson(items[2]).Success?;
  }

  /** Cell lengths the width test relies on for the cells whose text the
      record code decides: none is longer than the widest string cell of its
      column, and no average is longer than five characters. */
  predicate ShortCells(lay: Layout)
  {
    lay.groupIntLen(31) <= 16 && lay.avgLen(4.25) <= 5 && lay.avgLen(4.0) <= 5 &&
    lay.avgLen(3.33) <= 5 && lay.noDebtLen <= 18 &&
    lay.debtListLen([Str("C++"), Str("Linux"), Str("Network")]) <= 18
  }

  /** The records the width test's document holds. */
  function LongStudents(): seq<Student>
  {
    [Student("Ivanov Petr Petrovich", GStr("1"), 4.25, DNone),
     Student("Sidorov Ivan", GInt(31), 4.0, DOne("C++ Java Python C#")),
     Student("Pertov Nikita", GStr("IU8-31-2019-2025"), 3.33, DMany([Str("C++"), Str("Linux"), Str("Network")]))]
  }

  lemma LongRecordsValid()
    ensures FromJson(Record("Ivanov Petr Petrovich", Str("1"), Str("4.25"), Null)) ==
            Success(Student("Ivanov Petr Petrovich", GStr("1"), 4.25, DNone))
    ensures FromJson(Record("Sidorov Ivan", Int(31), Int(4), Str("C++ Java Python C#"))) ==
            Success(Student("Sidorov Ivan", GInt(31), 4.0, DOne("C++ Java Python C#")))
    ensures FromJson(Record("Pertov Nikita", Str("IU8-31-2019-2025"), Num(3.33), Arr([Str("C++"), Str("Linux"), Str("Network")]))) ==
            Success(Student("Pertov Nikita", GStr("IU8-31-2019-2025"), 3.33, DMany([Str("C++"), Str("Linux"), Str("Network")])))
  {
    ParsesFourPointTwoFive();
    FromRecord("Ivanov Petr Petrovich", Str("1"), Str("4.25"), Null);
    FromRecord("Sidorov Ivan", Int(31), Int(4), Str("C++ Java Python C#"));
    FromRecord("Pertov Nikita", Str("IU8-31-2019-2025"), Num(3.33), Arr([Str("C++"), Str("Linux"), Str("Network")]));
  }

  lemma LongItemsLoad()
    ensures Load(Document(Items(true), 3)) == Success(LongStudents())
  {
    LongRecordsValid();
    EnvelopeOfDocument(Items(true), 3);
    var items, ss := Items(true), LongStudents();
    var r := ValidateAll(items);
    assert r.Success?;
    assert r.value[0] == ss[0] && r.value[1] == ss[1] && r.value[2] == ss[2];
    assert r.value == ss;
  }

  /** The width test: the longest name (21), group (16) and debt (18) give
      widths one larger, and the average column keeps its minimum. */
  lemma WidthScenario(lay: Layout)
    requires ShortCells(lay)
    ensures Load(Document(Items(true), 3)).Success?
    ensures Widths(Cells(Load(Document(Items(true), 3)).value, lay)) == Lengths(22, 17, 6, 19)
  {
    LongItemsLoad();
    var cells := Cells(LongStudents(), lay);
    assert cells[..2][..1] == cells[..1];
    assert cells[..3][..2] == cells[..2];
    assert cells[..3] == cells;
    assert cells[..1][..0] == [];
    assert cells[0].debt == lay.noDebtLen <= 18;
    var w1 := Widths(cells[..1]);
    assert Widths(cells[..1][..0]) == Seed;
    assert w1.name == 22 && w1.group == 8 && w1.avg == 6 && w1.debt <= 19;
    var w2 := Widths(cells[..2]);
    assert w2.name == 22 && w2.group <= 17 && w2.avg == 6 && w2.debt == 19;
  }

  /** The table tests, run against the class's contracts. */
  method TableScenario(lay: Layout)
    requires ShortCells(lay)
  {
    var empty := new Parser(lay);
    assert empty.EmptyJSONobject();
    assert empty.GetL() == Lengths(15, 8, 6, 15);
    SeedSeparator();
    assert empty.GetSeparator() == "|---------------|--------|------|---------------|";

    LoadScenarios();
    var loaded := new Parser(lay);
    var res := loaded.SetJSONString(Document(Items(false), 3));
    assert res.Pass? && !loaded.EmptyJSONobject() && |loaded.GetStudents()| == 3;

    WidthScenario(lay);
    var wide := new Parser(lay);
    res := wide.SetJSONString(Document(Items(true), 3));
    assert wide.GetL() == Lengths(22, 17, 6, 19);

    var miscounted := new Parser(lay);
    res := miscounted.SetJSONString(Document(Items(false), 4));
    assert res.Fail? && miscounted.EmptyJSONobject();
  }
}
