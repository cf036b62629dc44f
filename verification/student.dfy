/** One student record: four fields, three of which accept more than one
    JSON kind. A record exists only once all four fields have validated;
    a field setter re-validates its argument and replaces that field alone.
    Records are values: the table keeps them by value in its list. */
module Students {
  import opened Results
  import opened Json
  import Decimal

  /** A group is named by a string or numbered by an integer. */
  datatype Group = GStr(text: string) | GInt(number: int)

  /** No debt (JSON null), one debt (a string) or several (an array, whose
      elements are kept as they came). */
  datatype Debt = DNone | DOne(item: string) | DMany(items: seq<Value>)

  /** `avg` is the `real` stand-in for the stored `double`. */
  datatype Student = Student(name: string, group: Group, avg: real, debt: Debt)

  /** The JSON node a group is written as. */
  function GroupJson(g: Group): Value
  {
    match g
    case GStr(t) => Str(t)
    case GInt(n) => Int(n)
  }

  /** The JSON node a debt is written as. */
  function DebtJson(d: Debt): Value
  {
    match d
    case DNone => Null
    case DOne(t) => Str(t)
    case DMany(ts) => Arr(ts)
  }

  /** A name must be a JSON string. */
  function NameFrom(j: Value): (r: Result<string>)
    ensures r.Success? <==> j.Str?
    ensures r.Success? ==> Str(r.value) == j
  {
    if j.Str? then Success(j.s) else Failure(InvalidArgument)
  }

  /** A group must be a JSON string or a JSON integer; nothing else, not even
      a floating-point number, is accepted. */
  function GroupFrom(j: Value): (r: Result<Group>)
    ensures r.Success? <==> j.Str? || j.Int?
    ensures r.Success? ==> GroupJson(r.value) == j
  {
    match j
    case Str(t) => Success(GStr(t))
    case Int(n) => Success(GInt(n))
    case _ => Failure(InvalidArgument)
  }

  /** An average must be a JSON number (integer or floating-point) or a
      numeric string; the stored value is the number, or the string's value. */
  function AvgFrom(j: Value): (r: Result<real>)
    ensures r.Success? <==> j.Int? || j.Num? || (j.Str? && Decimal.ParseDecimal(j.s).Some?)
    ensures j.Int? ==> r == Success(j.i as real)
    ensures j.Num? ==> r == Success(j.r)
    ensures j.Str? && r.Success? ==> Decimal.ParseDecimal(j.s) == Some(r.value)
  {
    match j
    case Int(n) => Success(n as real)
    case Num(x) => Success(x)
    case Str(t) =>
      (match Decimal.ParseDecimal(t)
       case Some(x) => Success(x)
       case None => Failure(InvalidArgument))
    case _ => Failure(InvalidArgument)
  }

  /** A debt must be JSON null, a JSON string or a JSON array. */
  function DebtFrom(j: Value): (r: Result<Debt>)
    ensures r.Success? <==> j.Null? || j.Str? || j.Arr?
    ensures r.Success? ==> DebtJson(r.value) == j
  {
    match j
    case Null => Success(DNone)
    case Str(t) => Success(DOne(t))
    case Arr(ts) => Success(DMany(ts))
    case _ => Failure(InvalidArgument)
  }

  /** True when `j` is an object binding all four record keys. */
  predicate HasAllKeys(j: Value)
  {
    Has(j, "name") && Has(j, "group") && Has(j, "avg") && Has(j, "debt")
  }

  /** Builds a record from a JSON object: every key must be present (other
      keys are ignored) and every field must validate. */
  function FromJson(j: Value): (r: Result<Student>)
    ensures r.Success? <==>
      HasAllKeys(j) &&
      NameFrom(j.fields["name"]).Success? && GroupFrom(j.fields["group"]).Success? &&
      AvgFrom(j.fields["avg"]).Success? && DebtFrom(j.fields["debt"]).Success?
    ensures r.Success? ==>
      NameFrom(j.fields["name"]) == Success(r.value.name) &&
      GroupFrom(j.fields["group"]) == Success(r.value.group) &&
      AvgFrom(j.fields["avg"]) == Success(r.value.avg) &&
      DebtFrom(j.fields["debt"]) == Success(r.value.debt)
  {
    if !HasAllKeys(j) then Failure(InvalidArgument)
    else
      var name := NameFrom(j.fields["name"]);
      var group := GroupFrom(j.fields["group"]);
      var avg := AvgFrom(j.fields["avg"]);
      var debt := DebtFrom(j.fields["debt"]);
      if name.Failure? || group.Failure? || avg.Failure? || debt.Failure? then Failure(InvalidArgument)
      else Success(Student(name.value, group.value, avg.value, debt.value))
  }

  /** The record written back as a JSON object with exactly the four keys. */
  function ToJson(s: Student): Value
  {
    Obj(map["name" := Str(s.name), "group" := GroupJson(s.group),
            "avg" := Num(s.avg), "debt" := DebtJson(s.debt)])
  }

  /** Validation loses nothing: a written record validates back to itself. */
  lemma FromToJson(s: Student)
    ensures FromJson(ToJson(s)) == Success(s)
  {
  }

  /** A numeric string is accepted as an average, with the value it spells. */
  lemma AvgFromNumericString(negative: bool, ip: string, fp: string)
    requires ip != [] && Decimal.AllDigits(ip) && Decimal.AllDigits(fp)
    ensures AvgFrom(Str(Decimal.DecimalText(negative, ip, fp))) ==
            Success(Decimal.Signed(negative, Decimal.DecimalValue(ip, fp)))
  {
    Decimal.ParseDecimalOfText(negative, ip, fp);
  }

  /** Replaces the name; fails, changing nothing, unless `j` is a string. */
  function SetName(s: Student, j: Value): (r: Result<Student>)
    ensures r.Success? <==> NameFrom(j).Success?
    ensures r.Success? ==> (NameFrom(j) == Success(r.value.name) &&
      r.value.group == s.group && r.value.avg == s.avg && r.value.debt == s.debt)
  {
    match NameFrom(j)
    case Success(v) => Success(s.(name := v))
    case Failure(e) => Failure(e)
  }

  /** Replaces the group; fails unless `j` is a string or an integer. */
  function SetGroup(s: Student, j: Value): (r: Result<Student>)
    ensures r.Success? <==> GroupFrom(j).Success?
    ensures r.Success? ==> (GroupFrom(j) == Success(r.value.group) &&
      r.value.name == s.name && r.value.avg == s.avg && r.value.debt == s.debt)
  {
    match GroupFrom(j)
    case Success(v) => Success(s.(group := v))
    case Failure(e) => Failure(e)
  }

  /** Replaces the average; fails unless `j` is a number or a numeric string. */
  function SetAvg(s: Student, j: Value): (r: Result<Student>)
    ensures r.Success? <==> AvgFrom(j).Success?
    ensures r.Success? ==> (AvgFrom(j) == Success(r.value.avg) &&
      r.value.name == s.name && r.value.group == s.group && r.value.debt == s.debt)
  {
    match AvgFrom(j)
    case Success(v) => Success(s.(avg := v))
    case Failure(e) => Failure(e)
  }

  /** Replaces the debt; fails unless `j` is null, a string or an array. */
  function SetDebt(s: Student, j: Value): (r: Result<Student>)
    ensures r.Success? <==> DebtFrom(j).Success?
    ensures r.Success? ==> (DebtFrom(j) == Success(r.value.debt) &&
      r.value.name == s.name && r.value.group == s.group && r.value.avg == s.avg)
  {
    match DebtFrom(j)
    case Success(v) => Success(s.(debt := v))
    case Failure(e) => Failure(e)
  }

  /** Setting the four fields one by one from an object's values, starting
      from any record, succeeds exactly when building a record from the
      object does, and gives the same record. */
  lemma SettersAgreeWithFromJson(s: Student, j: Value)
    requires HasAllKeys(j)
    ensures var r1 := SetName(s, j.fields["name"]);
      var r2 := if r1.Success? then SetGroup(r1.value, j.fields["group"]) else r1;
      var r3 := if r2.Success? then SetAvg(r2.value, j.fields["avg"]) else r2;
      var r4 := if r3.Success? then SetDebt(r3.value, j.fields["debt"]) else r3;
      r4.Success? == FromJson(j).Success? && (r4.Success? ==> r4 == FromJson(j))
  {
  }
}
