/**
 * The line-oriented `key=value` grammar the three generation calls share: the
 * numbered response line ("3. category=ai, rank=top", digit first, number before
 * the first "."), and `_extract_field` over comma-separated segments
 * (hndigest/categorize.py:156-162, reused by hn_digest/process.py).
 */
module Fields {
  import opened Wrappers
  import opened Text

  // ---------------------------------------------------------------- numbered lines

  /** How a response line reads: not a numbered line at all, a numbered line whose
      number `int()` rejects, or a 0-based index with the text after the first ".". */
  datatype LineParse = Skip | NotInteger | Numbered(index: int, rest: string)

  /**
   * Strip the line; skip it when it is empty, its first character is not a digit or
   * it has no "."; otherwise `int(parts[0].strip()) - 1`, with `parts[1]` as the rest.
   */
  function ParseNumbered(raw: string): (r: LineParse)
    ensures var line := Strip(raw); r == Skip <==> line == [] || !IsDigit(line[0]) || '.' !in line
  {
    var line := Strip(raw);
    if line == [] || !IsDigit(line[0]) then Skip
    else
      var parts := SplitOnce(line, '.');
      if |parts| != 2 then Skip
      else
        match ParseInt(Strip(parts[0]))
        case None => NotInteger
        case Some(n) => Numbered(n - 1, parts[1])
  }

  /** A line numbered `i + 1` as the prompt numbers stories reads back as index `i`,
      whatever the text after the "." is, as long as it does not end in blank. */
  lemma NumberedRoundTrip(i: nat, body: string)
    requires |body| > 0 && !IsSpace(body[|body| - 1])
    ensures ParseNumbered(NatToString(i + 1) + "." + body) == Numbered(i, body)
  {
    var d := NatToString(i + 1);
    var line := d + "." + body;
    assert line[0] == d[0];
    assert line[|line| - 1] == body[|body| - 1];
    StripByStripped(line, IsSpace);
    assert '.' !in d;
    assert line[|d|] == '.';
    SplitOnceAt(d, '.', body);
    assert IsStripped(d) by {
      assert !IsSpace(d[0]) && !IsSpace(d[|d| - 1]);
    }
    StripByStripped(d, IsSpace);
    ParseIntOfNat(i + 1);
  }

  /** `int("1a")` raises. */
  lemma ParseIntRejectsLetter()
    ensures ParseInt("1a") == None
  {
    assert Strip("1a") == "1a" by {
      StripByStripped("1a", IsSpace);
    }
    assert !IsDecimal("1a") by {
      assert !IsDigit("1a"[1]);
    }
  }

  /** A stripped, digit-led line with a "." whose number `int()` rejects. */
  lemma NotIntegerLine(line: string, d: string, body: string)
    requires IsStripped(line) && line == d + "." + body
    requires |d| > 0 && IsDigit(d[0]) && '.' !in d && ParseInt(Strip(d)) == None
    ensures ParseNumbered(line) == NotInteger
  {
    StripByStripped(line, IsSpace);
    SplitOnceAt(d, '.', body);
    assert line[0] == d[0];
  }

  /** For instance "1a. x". */
  lemma NotIntegerExample()
    ensures ParseNumbered("1a. x") == NotInteger
  {
    var line := "1a. x";
    assert IsStripped(line) by {
      assert line[0] == '1' && line[|line| - 1] == 'x';
    }
    assert line == "1a" + "." + " x";
    assert Strip("1a") == "1a" by {
      StripByStripped("1a", IsSpace);
    }
    ParseIntRejectsLetter();
    NotIntegerLine(line, "1a", " x");
  }

  // ---------------------------------------------------------------- fields

  /** The first segment that starts with `field=` decides; "" when none does. */
  function ExtractFrom(parts: seq<string>, field: string): (r: string)
    ensures (forall k :: 0 <= k < |parts| ==> ',' !in parts[k]) ==> ',' !in r
    ensures IsStripped(r)
  {
    if parts == [] then ""
    else
      var part := Strip(parts[0]);
      if StartsWith(part, field + "=") then
        var kv := SplitOnce(part, '=');
        assert part[|field|] == '=';
        Strip(kv[1])
      else ExtractFrom(parts[1..], field)
  }

  /** `_extract_field(text, field)`. Values never contain a comma: a value is cut at
      the first comma after it. */
  function ExtractField(text: string, field: string): (r: string)
    ensures ',' !in r && IsStripped(r)
  {
    ExtractFrom(Split(text, ','), field)
  }

  /** A segment `field=value` read back: `value`, when `field` has no "=" and `value`
      is stripped. */
  lemma SegmentValue(field: string, value: string)
    requires '=' !in field && IsStripped(field + "=" + value) && IsStripped(value)
    ensures var part := field + "=" + value;
      Strip(part) == part && StartsWith(part, field + "=") && Strip(SplitOnce(part, '=')[1]) == value
  {
    var part := field + "=" + value;
    StripByStripped(part, IsSpace);
    assert part[..|field| + 1] == field + "=";
    SplitOnceAt(field, '=', value);
    StripByStripped(value, IsSpace);
  }

  /** The value of `field` is read from the first segment written as `field=value`. */
  lemma {:induction false} ExtractFromAt(parts: seq<string>, field: string, k: nat, value: string)
    requires k < |parts|
    requires forall j :: 0 <= j < k ==> !StartsWith(Strip(parts[j]), field + "=")
    requires '=' !in field && Strip(parts[k]) == field + "=" + value
    requires IsStripped(field + "=" + value) && IsStripped(value)
    ensures ExtractFrom(parts, field) == value
  {
    if k == 0 {
      SegmentValue(field, value);
    } else {
      assert !StartsWith(Strip(parts[0]), field + "=");
      assert forall j :: 0 <= j < k - 1 ==> parts[1..][j] == parts[j + 1];
      ExtractFromAt(parts[1..], field, k - 1, value);
    }
  }

  /** How both cache formats write the rank flag. */
  function RankText(isTop: bool): string {
    if isTop then "top" else "regular"
  }

  // ---------------------------------------------------------------- records

  /** Field names a record can carry: non-empty, not blank-led, without "=" or ",",
      and no two starting with the same character. */
  predicate FieldNames(fields: seq<string>) {
    && (forall i :: 0 <= i < |fields| ==>
          |fields[i]| > 0 && !IsSpace(fields[i][0]) && '=' !in fields[i] && ',' !in fields[i])
    && (forall i, j :: 0 <= i < j < |fields| ==> fields[i][0] != fields[j][0])
  }

  /** Values a record can carry and still read back: stripped and comma-free. */
  predicate FieldValues(values: seq<string>) {
    forall i :: 0 <= i < |values| ==> IsStripped(values[i]) && ',' !in values[i]
  }

  function Segments(fields: seq<string>, values: seq<string>): (r: seq<string>)
    requires |fields| == |values|
    ensures |r| == |fields|
    ensures forall i :: 0 <= i < |r| ==> r[i] == fields[i] + "=" + values[i]
  {
    seq(|fields|, i requires 0 <= i < |fields| => fields[i] + "=" + values[i])
  }

  /** "f1=v1,f2=v2,...": how the cache values are written. */
  function Record(fields: seq<string>, values: seq<string>): string
    requires |fields| == |values|
  {
    Join(Segments(fields, values), ",")
  }

  /** A four-field record written out, grouped as the text is built left to right. */
  lemma RecordFour(fields: seq<string>, values: seq<string>)
    requires |fields| == |values| == 4
    ensures Record(fields, values) == (fields[0] + "=") + values[0] + ("," + fields[1] + "=") + values[1]
                                      + ("," + fields[2] + "=") + values[2] + ("," + fields[3] + "=") + values[3]
  {
    var segs := Segments(fields, values);
    assert Join(segs[3..], ",") == segs[3];
    assert Join(segs[2..], ",") == segs[2] + "," + segs[3];
    assert Join(segs[1..], ",") == segs[1] + "," + Join(segs[2..], ",");
    assert Join(segs, ",") == segs[0] + "," + Join(segs[1..], ",");
  }

  lemma SegmentStripped(field: string, value: string)
    requires |field| > 0 && !IsSpace(field[0]) && IsStripped(value)
    ensures IsStripped(field + "=" + value)
  {
    var seg := field + "=" + value;
    assert seg[0] == field[0];
    if value == [] {
      assert seg[|seg| - 1] == '=';
    } else {
      assert seg[|seg| - 1] == value[|value| - 1];
    }
  }

  /** One "field=value" piece has no comma and no blank at either end. */
  lemma SegmentClean(field: string, value: string)
    requires |field| > 0 && !IsSpace(field[0]) && ',' !in field && IsStripped(value) && ',' !in value
    ensures var seg := field + "=" + value;
      ',' !in seg && IsStripped(seg) && Strip(seg) == seg
  {
    SegmentStripped(field, value);
    StripByStripped(field + "=" + value, IsSpace);
  }

  /** A piece for one field is not read as another field starting with a different character. */
  lemma SegmentOtherField(field: string, value: string, other: string)
    requires |field| > 0 && !IsSpace(field[0]) && IsStripped(value)
    requires |other| > 0 && other[0] != field[0]
    ensures !StartsWith(Strip(field + "=" + value), other + "=")
  {
    var seg := field + "=" + value;
    SegmentStripped(field, value);
    StripByStripped(seg, IsSpace);
    assert seg[0] == field[0];
  }

  /** Every field of a record reads back as the value written for it. */
  lemma RecordField(fields: seq<string>, values: seq<string>, k: nat)
    requires |fields| == |values| && FieldNames(fields) && FieldValues(values) && k < |fields|
    ensures ExtractField(Record(fields, values), fields[k]) == values[k]
  {
    var segs := Segments(fields, values);
    forall i | 0 <= i < |segs|
      ensures ',' !in segs[i] && IsStripped(segs[i]) && Strip(segs[i]) == segs[i]
    {
      SegmentClean(fields[i], values[i]);
    }
    SplitJoin(segs, ',');
    assert Join(segs, [',']) == Record(fields, values);
    forall j | 0 <= j < k
      ensures !StartsWith(Strip(segs[j]), fields[k] + "=")
    {
      SegmentOtherField(fields[j], values[j], fields[k]);
    }
    ExtractFromAt(segs, fields[k], k, values[k]);
  }

  /** A record, as the `.strip()` of `read_text` sees it, is unchanged. */
  lemma {:induction false} RecordStripped(fields: seq<string>, values: seq<string>)
    requires |fields| == |values| && |fields| > 0 && FieldNames(fields) && FieldValues(values)
    ensures Strip(Record(fields, values)) == Record(fields, values)
  {
    var segs := Segments(fields, values);
    JoinEnds(segs, ",");
    SegmentStripped(fields[0], values[0]);
    SegmentStripped(fields[|fields| - 1], values[|fields| - 1]);
    StripByStripped(Record(fields, values), IsSpace);
  }

  // ---------------------------------------------------------------- response layout

  /** The record pieces with a blank after every comma. */
  function Spaced(segs: seq<string>): (r: seq<string>)
    ensures |r| == |segs|
    ensures forall i :: 0 <= i < |r| ==> r[i] == if i == 0 then segs[0] else " " + segs[i]
  {
    seq(|segs|, i requires 0 <= i < |segs| => if i == 0 then segs[0] else " " + segs[i])
  }

  /** "f1=v1, f2=v2, ...": the layout the prompts ask response lines to use. */
  function SpacedRecord(fields: seq<string>, values: seq<string>): string
    requires |fields| == |values|
  {
    Join(Spaced(Segments(fields, values)), ",")
  }

  /** The blanks after the commas do not disturb reading a field back. */
  lemma SpacedRecordField(fields: seq<string>, values: seq<string>, k: nat)
    requires |fields| == |values| && FieldNames(fields) && FieldValues(values) && k < |fields|
    ensures ExtractField(SpacedRecord(fields, values), fields[k]) == values[k]
  {
    var segs := Segments(fields, values);
    var pieces := Spaced(segs);
    forall i | 0 <= i < |segs|
      ensures ',' !in pieces[i] && IsStripped(segs[i]) && Strip(pieces[i]) == segs[i]
    {
      SegmentStripped(fields[i], values[i]);
      if i == 0 {
        StripByStripped(segs[i], IsSpace);
      } else {
        StripLeadingBlank(segs[i]);
      }
    }
    SplitJoin(pieces, ',');
    assert Join(pieces, [',']) == SpacedRecord(fields, values);
    forall j | 0 <= j < k
      ensures !StartsWith(Strip(pieces[j]), fields[k] + "=")
    {
      assert segs[j][0] == fields[j][0];
    }
    ExtractFromAt(pieces, fields[k], k, values[k]);
  }

  /** A spaced record starts with its first field name and ends like its last value
      (or its "=" when that value is empty), so it is stripped. */
  lemma {:induction false} SpacedRecordStripped(fields: seq<string>, values: seq<string>)
    requires |fields| == |values| && |fields| > 0 && FieldNames(fields) && FieldValues(values)
    ensures IsStripped(SpacedRecord(fields, values)) && SpacedRecord(fields, values) != []
  {
    var segs := Segments(fields, values);
    var pieces := Spaced(segs);
    var n := |fields| - 1;
    assert forall i :: 0 <= i < |pieces| ==> |pieces[i]| > 0;
    JoinEnds(pieces, ",");
    SegmentStripped(fields[0], values[0]);
    SegmentStripped(fields[n], values[n]);
    assert pieces[n][|pieces[n]| - 1] == segs[n][|segs[n]| - 1];
  }

  /** Each value lowercased. */
  function LowerAll(values: seq<string>): (r: seq<string>)
    ensures |r| == |values|
    ensures forall i :: 0 <= i < |r| ==> r[i] == Lower(values[i])
  {
    seq(|values|, i requires 0 <= i < |values| => Lower(values[i]))
  }

  lemma {:induction false} LowerJoin(xs: seq<string>)
    ensures Lower(Join(xs, ",")) == Join(LowerAll(xs), ",")
  {
    if |xs| > 1 {
      LowerJoin(xs[1..]);
      LowerConcat(xs[0] + ",", Join(xs[1..], ","));
      LowerConcat(xs[0], ",");
      assert Lower(",") == ",";
      assert LowerAll(xs)[1..] == LowerAll(xs[1..]);
    }
  }

  /** Lowercasing a spaced record with lowercase field names lowercases its values. */
  lemma LowerSpacedRecord(fields: seq<string>, values: seq<string>)
    requires |fields| == |values|
    requires forall i :: 0 <= i < |fields| ==> Lower(fields[i]) == fields[i]
    ensures Lower(SpacedRecord(fields, values)) == SpacedRecord(fields, LowerAll(values))
  {
    var pieces := Spaced(Segments(fields, values));
    var lowered := Spaced(Segments(fields, LowerAll(values)));
    LowerJoin(pieces);
    forall i | 0 <= i < |pieces|
      ensures LowerAll(pieces)[i] == lowered[i]
    {
      LowerConcat(fields[i] + "=", values[i]);
      LowerConcat(fields[i], "=");
      assert Lower("=") == "=";
      if i > 0 {
        LowerConcat(" ", fields[i] + "=" + values[i]);
        assert Lower(" ") == " ";
      }
    }
    assert LowerAll(pieces) == lowered;
  }

  lemma LowerValues(values: seq<string>)
    requires FieldValues(values)
    ensures FieldValues(LowerAll(values))
  {
    forall i | 0 <= i < |values|
      ensures IsStripped(LowerAll(values)[i]) && ',' !in LowerAll(values)[i]
    {
      LowerShape(values[i]);
    }
  }
}
