# Student table parser — a Dafny model

The program reads a JSON document holding a list of student records and prints them
as a table with four fixed columns: name, group, average mark and debts. This project
models two parts of it in Dafny and proves properties of the model:

- **the record** (`Student`). It is built from a JSON object that must bind `name`,
  `group`, `avg` and `debt`, and each field accepts only certain JSON kinds:
  - `name`: a string;
  - `group`: a string or an integer;
  - `avg`: a number, or a string that spells a decimal number;
  - `debt`: null, a string or an array.

  Each field also has a setter that re-validates its argument and replaces that field alone.
- **the table** (`Parser`). It holds the loaded records in document order and four
  column widths, seeded at 15, 8, 6 and 15. `setJSONString` does three things:
  - it checks the envelope: `items` must be an array, and `_meta.count` must equal the array's length;
  - it validates every item;
  - it replaces the records and recomputes the widths.

  Each width is the larger of the column's minimum and one more than the longest cell
  of that column. The table also answers whether it is empty, gives its widths, and
  builds the dash rule, framed by bars, printed under the header.

Files and modules:

- `results.dfy` (`Results`): `Option`, `Result` and `Outcome`. There is one error
  kind, `InvalidArgument`, because every refusal in the modelled part is a
  `std::invalid_argument`.
- `json.dfy` (`Json`): the parsed JSON tree (`Value`), with separate integer and
  floating-point number kinds. A `real` stands in for a `double`.
- `decimal.dfy` (`Decimal`): the numeric strings an average accepts. The grammar is
  an optional `-`, one or more digits, and optionally `.` followed by one or more
  digits. The module holds their exact value and the round trip between text and value.
- `student.dfy` (`Students`): the tagged unions `Group = GStr | GInt` and
  `Debt = DNone | DOne | DMany` in place of the source's `std::any` fields. It also
  holds the `Student` value, the per-field validators, the record validator
  `FromJson`, the four setters, and `ToJson`, the inverse of `FromJson`.
- `table.dfy` (`Table`): `Lengths` (the source's `Lengths_of_fields`), the width rule
  as a function (`Widths`), the rule line (`Separator`), the envelope check
  (`Envelope`), the specification of a load (`Load`), and the class `Parser`:
  - fields `students` and `l`;
  - the invariant `Valid()`, which says the widths fit the loaded records;
  - `SetLengths`, which loops over the records and updates the widths in place;
  - `SetJSONString`, which loops over the items building the new list and then swaps it in;
  - the read-only queries.
- `scenarios.dfy` (`Scenarios`): the documents and records of `tests/test.cpp`. It
  states what the model says about them: each as a lemma, plus a client method that
  drives the class the way the tests do.

Choices made where the declarations and tests leave the behaviour open:

- A load is all-or-nothing. If the envelope or any item is refused, the records and
  widths stay as they were.
- `SetLengths` recomputes the widths from the minimums over the whole new record list.
  It does not keep growing the widths left by an earlier load. The two agree on every
  load into a fresh table, which is what the tests exercise.
- Some cells have text that the record code decides: an integer group, the average,
  a null debt and a debt array. Their printed length comes from a `Layout` value that
  is given to the constructor. Names, string groups and string debts count as their
  own length.

## Model

| member | source | states |
|---|---|---|
| `Decimal.ParseDecimalOfText` | tests/test.cpp:166-177 | every numeric string (sign, integer digits, optional fraction) is accepted and read as exactly the value it spells |
| `Decimal.ParsedIsText` | tests/test.cpp:277-288 | only numeric strings are accepted: any accepted string is some sign + digits + optional fraction, with that value |
| `Students.NameFrom` | tests/test.cpp:166-205 | a name is accepted iff it is a JSON string, and the stored name writes back to that string |
| `Students.GroupFrom` | tests/test.cpp:174-186 | a group is accepted iff it is a string or an integer, and the stored variant writes back to the same JSON node |
| `Students.AvgFrom` | tests/test.cpp:166-205 | an average is accepted iff it is an integer, a floating-point number or a numeric string; the stored value is the number or the string's value |
| `Students.DebtFrom` | tests/test.cpp:166-205 | a debt is accepted iff it is null, a string or an array, and the stored variant writes back to the same JSON node |
| `Students.FromJson` | tests/test.cpp:166-208 | a record is built iff the object binds all four keys and each field validates, and each stored field is that field's validated value |
| `Students.FromToJson` | tests/test.cpp:166-205 | validation loses nothing: any record written back as JSON validates to itself |
| `Students.AvgFromNumericString` | tests/test.cpp:166-177 | a numeric string given as the average is accepted with the value it spells |
| `Students.SetName` | tests/test.cpp:247-265 | succeeds iff the argument is a valid name; replaces the name and keeps group, avg and debt |
| `Students.SetGroup` | tests/test.cpp:247-265 | succeeds iff the argument is a valid group; replaces the group and keeps name, avg and debt |
| `Students.SetAvg` | tests/test.cpp:277-288 | succeeds iff the argument is a valid average; replaces the average and keeps name, group and debt |
| `Students.SetDebt` | tests/test.cpp:247-265 | succeeds iff the argument is a valid debt; replaces the debt and keeps name, group and avg |
| `Students.SettersAgreeWithFromJson` | tests/test.cpp:209-265 | setting the four fields of any record from an object's values succeeds iff building a record from the object does, and yields the same record |
| `Table.WidthsIsMax` | include/parser.hpp:35-36 | each width is at least the column minimum, at least one more than every cell of the column, and equal to one of these |
| `Table.WidthsGrowWithPrefix` | include/parser.hpp:36 | widths never shrink as more records are taken into account |
| `Table.Separator` | include/parser.hpp:27 | the rule has width-sum + 5 characters: '|' exactly at the five column borders and '-' everywhere else |
| `Table.SeedSeparator` | tests/test.cpp:161-164 | with the minimum widths the rule is exactly the tests' 49-character literal: a bar, 15 dashes, a bar, 8 dashes, a bar, 6 dashes, a bar, 15 dashes, a bar |
| `Table.Envelope` | include/parser.hpp:31 | the envelope is accepted iff `items` is an array and `_meta.count` is an integer equal to its length (other keys allowed), and then yields that array |
| `Table.EnvelopeOfDocument` | tests/test.cpp:56-85 | a document is accepted with its items when the declared count equals their number, and refused otherwise |
| `Table.ValidateAll` | include/parser.hpp:31 | the item list is accepted iff every item is a valid record, and then yields one record per item in order |
| `Table.LoadSpec` | include/parser.hpp:31 | a load succeeds iff the envelope and every item are valid, and then yields `_meta.count` records, the k-th built from the k-th item |
| `Table.Parser.constructor` | include/parser.hpp:34-35 | a new table holds no records and has widths (15, 8, 6, 15), which fit its (empty) records |
| `Table.Parser.GetStudents` | include/parser.hpp:24 | returns the loaded records in document order; how many there are and how each is built from its item is stated by `Table.Parser.SetJSONString` and `Table.LoadSpec` |
| `Table.Parser.GetL` | include/parser.hpp:25 | the widths returned are the widths that fit the loaded records |
| `Table.Parser.GetSeparator` | include/parser.hpp:27 | the rule returned is the rule for the widths that fit the loaded records |
| `Table.Parser.EmptyJSONobject` | include/parser.hpp:30 | true iff no record is loaded |
| `Table.Parser.SetLengths` | include/parser.hpp:36 | after the loop the widths are those grown from the minimums over every loaded record |
| `Table.Parser.SetJSONString` | include/parser.hpp:31 | succeeds iff the document loads; the records then become exactly the loaded ones and the widths fit them; on failure records and widths are unchanged |
| `Scenarios.FromRecord` | tests/test.cpp:166-208 | an object binding the four keys is built into a record exactly when its group, average and debt validate (any string is a name), with those fields |
| `Scenarios.ParsesFourPointTwoFive` | tests/test.cpp:175 | the string "4.25" reads as 4.25 |
| `Scenarios.AcceptedRecords` | tests/test.cpp:166-205 | the three test records validate to the expected name, group variant, average and debt variant |
| `Scenarios.RejectedRecords` | tests/test.cpp:266-298 | `{}` and a record whose average is `[]` are refused; the average setter refuses "avg" and `[]` |
| `Scenarios.SettersReplaceOneField` | tests/test.cpp:247-265 | setting the four fields, then the group to 24, gives group 24 beside the unchanged name, average and debt |
| `Scenarios.LoadScenarios` | tests/test.cpp:42-86 | the three-record document loads three records in order; with `items` an object, or with count 4, it is refused |
| `Scenarios.LongRecordsValid` | tests/test.cpp:93-121 | the width test's three records validate to the expected values |
| `Scenarios.LongItemsLoad` | tests/test.cpp:93-121 | the width test's document loads exactly those three records |
| `Scenarios.WidthScenario` | tests/test.cpp:87-126 | for every layout whose integer-group, null-debt and debt-list cells are no longer than the test's widest string cell of their column (16 and 18) and whose averages are at most 5 long, loading the width test's document gives widths (22, 17, 6, 19) |

## Left out

- `Parser(path)` and `parser(path)` are left out because they read a file. The
  refusal of an empty path and the `out_of_range` for a missing file go with them.
- `printData` and `printRow` are left out because they write to the console. Only the
  rule line they print is modelled.
- Turning JSON text into a tree belongs to the JSON library and is left out. The
  model starts from the parsed `Value`.
- `avg` is a `double` in the source. The model keeps it as an exact `real`, so
  rounding in the string-to-double conversion is not modelled.
- `Decimal.ParseDecimal` accepts only the grammar above. The source's string-to-number
  conversion may also accept exponents, a leading `+`, a leading or trailing point
  (`".5"`, `"5."`), surrounding blanks, or a numeric prefix followed by other text. Its body is not part of this model.
- `getGroup` and `getDebt` return `std::any` in the source. The model replaces them
  with the `Group` and `Debt` tagged unions.
- Some printed text is decided by the record code: an integer group, an average, a
  null debt and a debt array. Its body is not part of this model, so the lengths of
  these cells are a `Layout` parameter.
- `Table.Parser.constructor` takes that `Layout`, while the source's default
  constructor takes no argument.
- `Students.NameFrom` accepts any string, the empty one included. No shown code rejects an empty name.
- `Students.DebtFrom` does not check the kinds of a debt array's elements. They are kept as given.
- The default `Student()` constructor is not modelled, because its initial field
  values are not shown. The setter lemmas hold for any starting record instead.
- The member `Student::from_json` and the free function `from_json` behave the same in
  the tests. Both are modelled by `Students.FromJson`.
- Widths are `size_t` and integers are `int` in the source. The model uses unbounded
  naturals and integers, so overflow is not modelled.
- String lengths count characters. The source counts the bytes of UTF-8 strings, so
  the two differ for non-ASCII names.
- Every refusal is the same `InvalidArgument`. The model does not fix which check
  fails first when a document breaks several rules.
