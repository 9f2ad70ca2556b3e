/** What the two CSV importers share: rows of a `;`-delimited table read
    with its header, decimal-comma numbers, the spreadsheet-quoted pair of
    joint indices in the `joints` column, and the per-interval fields.
    The number parsers (`float()` and `int()` on text) are parameters. */
module CsvFormat {
  import opened Common
  import opened Text

  /** One row of a table: column name to cell text. */
  type Row = map<string, string>

  /** `row[column]`: the cell text, or a missing-column error naming it. */
  function Cell(row: Row, column: string): (r: Result<string>)
    ensures r.Ok? <==> column in row
    ensures r.Ok? ==> r.value == row[column]
    ensures r.Err? ==> r.error == MissingColumn(column)
  {
    if column in row then Ok(row[column]) else Err(MissingColumn(column))
  }

  /** `int(s)`: the parser's value, or a number error naming the text. */
  function IntOf(parseInt: string -> Option<int>, s: string): (r: Result<int>)
    ensures r.Ok? <==> parseInt(s).Some?
    ensures r.Ok? ==> parseInt(s) == Some(r.value)
    ensures r.Err? ==> r.error == NotANumber(s)
  {
    if parseInt(s).Some? then Ok(parseInt(s).value) else Err(NotANumber(s))
  }

  /** `joints_dict[key]`: the entry, or an unknown-joint error naming the key. */
  function Lookup<J>(joints: map<int, J>, key: int): (r: Result<J>)
    ensures r.Ok? <==> key in joints
    ensures r.Ok? ==> r.value == joints[key]
    ensures r.Err? ==> r.error == UnknownJoint(key as real)
  {
    if key in joints then Ok(joints[key]) else Err(UnknownJoint(key as real))
  }

  /** The text `float_comma` hands to the number parser: the same length,
      no comma, each comma turned into '.', every other character kept. */
  function DecimalPoint(s: string): (r: string)
    ensures |r| == |s| && ',' !in r
    ensures forall i :: 0 <= i < |s| ==> r[i] == if s[i] == ',' then '.' else s[i]
  {
    ReplaceChar(s, ',', '.')
  }

  /** Normalising the number parser's input again changes nothing. */
  lemma DecimalPointIdempotent(s: string)
    ensures DecimalPoint(DecimalPoint(s)) == DecimalPoint(s)
  {
    ReplaceCharIdempotent(s, ',', '.');
  }

  /** `float_comma(s)`: `float(s.replace(',', '.'))`. */
  function FloatComma(parseFloat: string -> Option<real>, s: string): (r: Result<real>)
    ensures r.Ok? <==> parseFloat(DecimalPoint(s)).Some?
    ensures r.Ok? ==> parseFloat(DecimalPoint(s)) == Some(r.value)
    ensures r.Err? ==> r.error == NotANumber(DecimalPoint(s)) && ',' !in r.error.text
  {
    var t := DecimalPoint(s);
    if parseFloat(t).Some? then Ok(parseFloat(t).value) else Err(NotANumber(t))
  }

  /** A decimal comma and a decimal point read the same: `"12,5"` gives
      what `"12.5"` gives, and so does any other comma/point spelling. */
  lemma FloatCommaNormalises(parseFloat: string -> Option<real>, s: string)
    ensures FloatComma(parseFloat, s) == FloatComma(parseFloat, DecimalPoint(s))
  {
    ReplaceCharIdempotent(s, ',', '.');
  }

  /** Text without a comma goes to the number parser unchanged. */
  lemma FloatCommaWithoutComma(parseFloat: string -> Option<real>, s: string)
    requires ',' !in s
    ensures FloatComma(parseFloat, s) == if parseFloat(s).Some? then Ok(parseFloat(s).value) else Err(NotANumber(s))
  {
    ReplaceCharAbsent(s, ',', '.');
  }

  /** The `joints` cell with every `=` and `"` deleted. */
  function StripQuoting(cell: string): (r: string)
    ensures '=' !in r && '"' !in r
  {
    var noEquals := DeleteChar(cell, '=');
    var r := DeleteChar(noEquals, '"');
    DeleteCharMultiset(noEquals, '"');
    assert multiset(r)['='] == multiset(noEquals)['='] == 0;
    r
  }

  /** `alpha_idx, omega_idx = cell.replace('=', '').replace('"', '').split(',')`:
      succeeds exactly when one comma is left, and the two parts are what
      stands before and after it. */
  function DecodeJointPair(cell: string): (r: Result<(string, string)>)
    ensures r.Ok? <==> multiset(StripQuoting(cell))[','] == 1
    ensures r.Ok? ==> r.value.0 + [','] + r.value.1 == StripQuoting(cell)
    ensures r.Ok? ==> ',' !in r.value.0 && ',' !in r.value.1
    ensures r.Err? ==> r.error == NotAPair(StripQuoting(cell), multiset(StripQuoting(cell))[','] + 1)
  {
    var text := StripQuoting(cell);
    var parts := Split(text, ',');
    SplitParts(text, ',');
    JoinSplit(text, ',');
    if |parts| == 2 then
      assert Join(parts, ',') == parts[0] + [','] + parts[1];
      Ok((parts[0], parts[1]))
    else
      Err(NotAPair(text, |parts|))
  }

  /** Stripping leaves text without `=` and `"` as it is. */
  lemma StripQuotingPlain(plain: string)
    requires '=' !in plain && '"' !in plain
    ensures StripQuoting(plain) == plain
  {
    DeleteCharAbsent(plain, '=');
    DeleteCharAbsent(plain, '"');
  }

  /** Stripping removes the quotes around such text. */
  lemma {:induction false} StripQuotingQuoted(plain: string)
    requires '=' !in plain && '"' !in plain
    ensures StripQuoting(['"'] + plain + ['"']) == plain
  {
    var quoted := ['"'] + plain + ['"'];
    assert '=' !in quoted;
    DeleteCharAbsent(quoted, '=');
    DeleteCharAppend(['"'] + plain, ['"'], '"');
    DeleteCharAppend(['"'], plain, '"');
    DeleteCharAbsent(plain, '"');
  }

  /** Stripping removes the formula sign and the quotes around such text. */
  lemma {:induction false} StripQuotingFormula(plain: string)
    requires '=' !in plain && '"' !in plain
    ensures StripQuoting(['='] + (['"'] + plain + ['"'])) == plain
  {
    var quoted := ['"'] + plain + ['"'];
    assert '=' !in quoted;
    DeleteCharAppend(['='], quoted, '=');
    DeleteCharAbsent(quoted, '=');
    assert DeleteChar(['='] + quoted, '=') == quoted;
    StripQuotingQuoted(plain);
  }

  /** A stripped cell `a,b` decodes to `(a, b)`. */
  lemma DecodeStrippedPair(cell: string, a: string, b: string)
    requires ',' !in a && ',' !in b
    requires StripQuoting(cell) == a + "," + b
    ensures DecodeJointPair(cell) == Ok((a, b))
  {
    SplitJoin([a, b], ',');
    assert Join([a, b], ',') == a + "," + b;
  }

  /** The spreadsheet quoting is transparent: `="a,b"`, `"a,b"` and `a,b`
      all decode to `(a, b)` when neither part holds `,`, `=` or `"`. */
  lemma DecodeJointPairQuoted(a: string, b: string)
    requires ',' !in a && '=' !in a && '"' !in a
    requires ',' !in b && '=' !in b && '"' !in b
    ensures DecodeJointPair("=\"" + a + "," + b + "\"") == Ok((a, b))
    ensures DecodeJointPair("\"" + a + "," + b + "\"") == Ok((a, b))
    ensures DecodeJointPair(a + "," + b) == Ok((a, b))
  {
    var plain := a + "," + b;
    var quoted := ['"'] + plain + ['"'];
    assert "\"" + a + "," + b + "\"" == quoted;
    assert "=\"" + a + "," + b + "\"" == ['='] + quoted;
    StripQuotingPlain(plain);
    StripQuotingQuoted(plain);
    StripQuotingFormula(plain);
    DecodeStrippedPair(plain, a, b);
    DecodeStrippedPair(quoted, a, b);
    DecodeStrippedPair(['='] + quoted, a, b);
  }

  /** The two joint indices a row's `joints` cell names, if it names two:
      the stripped cell is `a,b` with `a` and `b` integer text. */
  function EndpointKeys(row: Row, parseInt: string -> Option<int>): (r: Option<(int, int)>)
    ensures "joints" !in row ==> r.None?
    ensures r.Some? ==> "joints" in row && exists a: string, b: string ::
      && ',' !in a && ',' !in b && StripQuoting(row["joints"]) == a + [','] + b
      && parseInt(a) == Some(r.value.0) && parseInt(b) == Some(r.value.1)
    ensures "joints" in row && multiset(StripQuoting(row["joints"]))[','] != 1 ==> r.None?
  {
    if "joints" in row && DecodeJointPair(row["joints"]).Ok? then
      var pair := DecodeJointPair(row["joints"]).value;
      if parseInt(pair.0).Some? && parseInt(pair.1).Some? then
        Some((parseInt(pair.0).value, parseInt(pair.1).value))
      else None
    else None
  }

  /** A `joints` cell that strips to `a,b`, with both parts integer text,
      names the two parsed indices: `="3,7"` names joints 3 and 7. */
  lemma EndpointKeysOfPair(row: Row, parseInt: string -> Option<int>, a: string, b: string)
    requires "joints" in row && ',' !in a && ',' !in b && StripQuoting(row["joints"]) == a + [','] + b
    requires parseInt(a).Some? && parseInt(b).Some?
    ensures EndpointKeys(row, parseInt) == Some((parseInt(a).value, parseInt(b).value))
  {
    DecodeStrippedPair(row["joints"], a, b);
  }

  /** `alpha=joints_dict[int(alpha_idx)], omega=joints_dict[int(omega_idx)]`,
      evaluated in that order. */
  function Endpoints<J>(row: Row, joints: map<int, J>, parseInt: string -> Option<int>): (r: Result<(J, J)>)
    ensures r.Ok? <==>
      EndpointKeys(row, parseInt).Some? &&
      EndpointKeys(row, parseInt).value.0 in joints && EndpointKeys(row, parseInt).value.1 in joints
    ensures r.Ok? ==>
      r.value == (joints[EndpointKeys(row, parseInt).value.0], joints[EndpointKeys(row, parseInt).value.1])
    ensures EndpointKeys(row, parseInt).Some? && EndpointKeys(row, parseInt).value.0 !in joints ==>
      r == Err(UnknownJoint(EndpointKeys(row, parseInt).value.0 as real))
    ensures EndpointKeys(row, parseInt).Some? && EndpointKeys(row, parseInt).value.0 in joints &&
            EndpointKeys(row, parseInt).value.1 !in joints ==>
      r == Err(UnknownJoint(EndpointKeys(row, parseInt).value.1 as real))
  {
    var cell :- Cell(row, "joints");
    var pair :- DecodeJointPair(cell);
    var a :- IntOf(parseInt, pair.0);
    var alpha :- Lookup(joints, a);
    var o :- IntOf(parseInt, pair.1);
    var omega :- Lookup(joints, o);
    Ok((alpha, omega))
  }

  /** The non-joint fields of an interval row. */
  datatype Attributes = Attributes(
    intervalType: string, strain: real, elasticity: real, linearDensity: real, role: string, length: real)

  /** Whether every field of an interval row is present and readable. */
  predicate AttributesReadable(row: Row, parseFloat: string -> Option<real>) {
    && "type" in row && "role" in row
    && "strain" in row && parseFloat(DecimalPoint(row["strain"])).Some?
    && "elasticity" in row && parseFloat(DecimalPoint(row["elasticity"])).Some?
    && "linear density" in row && parseFloat(DecimalPoint(row["linear density"])).Some?
    && "length" in row && parseFloat(DecimalPoint(row["length"])).Some?
  }

  /** `type` and `role` copied verbatim; `strain`, `elasticity`,
      `linear density` and `length` through `float_comma`, in that order. */
  function ReadAttributes(row: Row, parseFloat: string -> Option<real>): (r: Result<Attributes>)
    ensures r.Ok? <==> AttributesReadable(row, parseFloat)
    ensures r.Ok? ==>
      && r.value.intervalType == row["type"] && r.value.role == row["role"]
      && parseFloat(DecimalPoint(row["strain"])) == Some(r.value.strain)
      && parseFloat(DecimalPoint(row["elasticity"])) == Some(r.value.elasticity)
      && parseFloat(DecimalPoint(row["linear density"])) == Some(r.value.linearDensity)
      && parseFloat(DecimalPoint(row["length"])) == Some(r.value.length)
  {
    var intervalType :- Cell(row, "type");
    var strainText :- Cell(row, "strain");
    var strain :- FloatComma(parseFloat, strainText);
    var elasticityText :- Cell(row, "elasticity");
    var elasticity :- FloatComma(parseFloat, elasticityText);
    var densityText :- Cell(row, "linear density");
    var linearDensity :- FloatComma(parseFloat, densityText);
    var role :- Cell(row, "role");
    var lengthText :- Cell(row, "length");
    var length :- FloatComma(parseFloat, lengthText);
    Ok(Attributes(intervalType, strain, elasticity, linearDensity, role, length))
  }
}
