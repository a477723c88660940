/** The CSV export: a header row with the first record's keys, then one row
    per record with every field wrapped in double quotes. */
module Csv {

  /** A flat export record, standing for a JavaScript object. The order of
      `fields` is the order `Object.keys` lists the object's keys in, and,
      as in an object, no key occurs twice (the sequence type does not
      enforce this; `Lookup` takes the first match). Each value is already
      rendered as text. */
  datatype Record = Record(fields: seq<(string, string)>)

  /** `Object.keys(record)`. */
  function Keys(fields: seq<(string, string)>): (keys: seq<string>)
    ensures |keys| == |fields|
    ensures forall i :: 0 <= i < |fields| ==> keys[i] == fields[i].0
    decreases |fields|
  {
    if |fields| == 0 then [] else [fields[0].0] + Keys(fields[1..])
  }

  /** `record[key]` rendered by a template literal: the value of the key,
      or "undefined" when the record has no such key. */
  function Lookup(fields: seq<(string, string)>, key: string): (v: string)
    ensures (exists i :: 0 <= i < |fields| && fields[i].0 == key)
            ==> exists i :: 0 <= i < |fields| && fields[i].0 == key && fields[i].1 == v
                 && forall j :: 0 <= j < i ==> fields[j].0 != key
    ensures (forall i :: 0 <= i < |fields| ==> fields[i].0 != key) ==> v == "undefined"
    decreases |fields|
  {
    if |fields| == 0 then "undefined"
    else if fields[0].0 == key then fields[0].1
    else Lookup(fields[1..], key)
  }

  /** `parts.join(sep)`. */
  function Join(parts: seq<string>, sep: char): string
    decreases |parts|
  {
    if |parts| == 0 then ""
    else if |parts| == 1 then parts[0]
    else parts[0] + [sep] + Join(parts[1..], sep)
  }

  /** The position of the first `c` in `s`. */
  function IndexOf(s: string, c: char): (i: nat)
    requires c in s
    ensures i < |s| && s[i] == c && c !in s[..i]
    decreases |s|
  {
    if s[0] == c then 0
    else
      var j := IndexOf(s[1..], c);
      assert s[1..][..j] == s[1..j + 1];
      j + 1
  }

  /** `s.split(sep)`: the pieces between separators, always at least one. */
  function Split(s: string, sep: char): (parts: seq<string>)
    ensures |parts| >= 1
    decreases |s|
  {
    if sep in s then
      var i := IndexOf(s, sep);
      [s[..i]] + Split(s[i + 1..], sep)
    else [s]
  }

  /** Splitting a join at a separator no part contains gives the parts back. */
  lemma {:induction false} SplitJoin(parts: seq<string>, sep: char)
    requires |parts| >= 1
    requires forall k :: 0 <= k < |parts| ==> sep !in parts[k]
    ensures Split(Join(parts, sep), sep) == parts
    decreases |parts|
  {
    if |parts| > 1 {
      var p0, rest := parts[0], Join(parts[1..], sep);
      var s := p0 + [sep] + rest;
      assert s[|p0|] == sep;
      var i := IndexOf(s, sep);
      assert forall j :: 0 <= j < i ==> s[..i][j] == s[j] != sep;
      assert forall j :: 0 <= j < |p0| ==> s[j] == p0[j] != sep;
      assert i == |p0|;
      assert s[..i] == p0 && s[i + 1..] == rest;
      SplitJoin(parts[1..], sep);
    }
  }

  /** A join of two or more parts holds the separator. */
  lemma JoinHasSeparator(parts: seq<string>, sep: char)
    requires |parts| >= 2
    ensures sep in Join(parts, sep)
  {
    assert Join(parts, sep)[|parts[0]|] == sep;
  }

  /** A field wrapped in double quotes, with nothing inside escaped. */
  function Quote(v: string): string {
    "\"" + v + "\""
  }

  /** One data row's fields: the record's value under each header, quoted. */
  function QuotedFields(fields: seq<(string, string)>, headers: seq<string>): (q: seq<string>)
    ensures |q| == |headers|
    ensures forall i :: 0 <= i < |headers| ==> q[i] == Quote(Lookup(fields, headers[i]))
    decreases |headers|
  {
    if |headers| == 0 then [] else [Quote(Lookup(fields, headers[0]))] + QuotedFields(fields, headers[1..])
  }

  /** The data rows, one per record, in record order. */
  function DataRows(data: seq<Record>, headers: seq<string>): (rows: seq<string>)
    ensures |rows| == |data|
    ensures forall k :: 0 <= k < |data| ==> rows[k] == Join(QuotedFields(data[k].fields, headers), ',')
    decreases |data|
  {
    if |data| == 0 then [] else [Join(QuotedFields(data[0].fields, headers), ',')] + DataRows(data[1..], headers)
  }

  /** `convertToCSV`: nothing for no records, otherwise the header row and
      the data rows joined by newlines. */
  function ConvertToCsv(data: seq<Record>): (csv: string)
    ensures csv == "" <==> |data| == 0
  {
    if |data| == 0 then ""
    else
      var headers := Keys(data[0].fields);
      var rows := [Join(headers, ',')] + DataRows(data, headers);
      JoinHasSeparator(rows, '\n');
      Join(rows, '\n')
  }

  /** No key and no value of any record contains `c`. */
  predicate FreeOf(data: seq<Record>, c: char) {
    forall k, i :: 0 <= k < |data| && 0 <= i < |data[k].fields| ==>
      c !in data[k].fields[i].0 && c !in data[k].fields[i].1
  }

  /** A quoted field never contains a character its value lacks, except the quote. */
  lemma QuotedFreeOf(data: seq<Record>, k: nat, key: string, c: char)
    requires k < |data| && FreeOf(data, c) && c != '\"' && c !in "undefined"
    ensures c !in Quote(Lookup(data[k].fields, key))
  {
  }

  /** When no key or value holds a newline, the output has exactly one row
      more than there are records: the header row, the first record's keys
      joined by commas, then each record's quoted values in order. */
  lemma {:induction false} CsvRows(data: seq<Record>)
    requires |data| > 0 && FreeOf(data, '\n')
    ensures var rows := Split(ConvertToCsv(data), '\n');
      && |rows| == 1 + |data|
      && rows[0] == Join(Keys(data[0].fields), ',')
      && forall k :: 0 <= k < |data| ==> rows[k + 1] == Join(QuotedFields(data[k].fields, Keys(data[0].fields)), ',')
  {
    var headers := Keys(data[0].fields);
    var rows := [Join(headers, ',')] + DataRows(data, headers);
    forall k | 0 <= k < |rows| ensures '\n' !in rows[k] {
      if k == 0 {
        JoinFreeOf(headers, ',', '\n');
      } else {
        var q := QuotedFields(data[k - 1].fields, headers);
        forall i | 0 <= i < |q| ensures '\n' !in q[i] {
          QuotedFreeOf(data, k - 1, headers[i], '\n');
        }
        JoinFreeOf(q, ',', '\n');
      }
    }
    SplitJoin(rows, '\n');
  }

  /** A join holds `c` only where a part or the separator does. */
  lemma {:induction false} JoinFreeOf(parts: seq<string>, sep: char, c: char)
    requires c != sep && forall k :: 0 <= k < |parts| ==> c !in parts[k]
    ensures c !in Join(parts, sep)
    decreases |parts|
  {
    if |parts| > 1 {
      JoinFreeOf(parts[1..], sep, c);
    }
  }

  /** When no key or value holds a comma, each data row splits into exactly
      one field per header, and stripping a field's outer quotes gives the
      record's value back verbatim: embedded quotes are left as they are.
      This covers comma-free data only: the export's own records hold commas
      (line lists joined with ", " and alert descriptions), and for those a
      comma split does not recover the fields. */
  lemma DataRowFields(data: seq<Record>, k: nat)
    requires k < |data| && FreeOf(data, ',')
    ensures var headers := Keys(data[0].fields);
      var cells := Split(Join(QuotedFields(data[k].fields, headers), ','), ',');
      && |cells| == (if |headers| == 0 then 1 else |headers|)
      && forall i :: 0 <= i < |headers| ==>
           |cells[i]| >= 2 && cells[i][0] == '\"' && cells[i][|cells[i]| - 1] == '\"'
           && cells[i][1..|cells[i]| - 1] == Lookup(data[k].fields, headers[i])
  {
    var headers := Keys(data[0].fields);
    var q := QuotedFields(data[k].fields, headers);
    if |headers| > 0 {
      forall i | 0 <= i < |q| ensures ',' !in q[i] {
        QuotedFreeOf(data, k, headers[i], ',');
      }
      SplitJoin(q, ',');
    }
  }
}
