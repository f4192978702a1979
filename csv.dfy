/** Comma-separated text as the exports write it with quoting switched off:
    fields joined by ',', records by a line break. Without quoting, reading
    the text back gives the records again exactly when no field holds a
    comma or a line break. */
module Csv {

  /** `parts` joined with `sep` between each two. */
  function JoinWith(sep: char, parts: seq<string>): string
    requires |parts| > 0
  {
    if |parts| == 1 then parts[0] else parts[0] + [sep] + JoinWith(sep, parts[1..])
  }

  /** `s.split(sep)`. */
  function SplitAt(sep: char, s: string): (parts: seq<string>)
    ensures |parts| > 0
  {
    if s == [] then [""]
    else
      var rest := SplitAt(sep, s[1..]);
      if s[0] == sep then [""] + rest else [[s[0]] + rest[0]] + rest[1..]
  }

  /** Text without the separator, followed by one, splits off as the first
      part. */
  lemma {:induction false} SplitFirst(sep: char, x: string, rest: string)
    requires sep !in x
    ensures SplitAt(sep, x + [sep] + rest) == [x] + SplitAt(sep, rest)
    ensures SplitAt(sep, x) == [x]
  {
    if x != [] {
      SplitFirst(sep, x[1..], rest);
      assert (x + [sep] + rest)[1..] == x[1..] + [sep] + rest;
      assert [x[0]] + x[1..] == x;
    }
  }

  /** Splitting undoes joining when no part holds the separator. */
  lemma {:induction false} SplitJoin(sep: char, parts: seq<string>)
    requires |parts| > 0 && forall i :: 0 <= i < |parts| ==> sep !in parts[i]
    ensures SplitAt(sep, JoinWith(sep, parts)) == parts
  {
    if |parts| == 1 {
      SplitFirst(sep, parts[0], "");
    } else {
      SplitJoin(sep, parts[1..]);
      SplitFirst(sep, parts[0], JoinWith(sep, parts[1..]));
    }
  }

  /** Joining adds no character but the separator. */
  lemma {:induction false} JoinLacks(c: char, sep: char, parts: seq<string>)
    requires |parts| > 0 && c != sep && forall i :: 0 <= i < |parts| ==> c !in parts[i]
    ensures c !in JoinWith(sep, parts)
  {
    if |parts| > 1 {
      JoinLacks(c, sep, parts[1..]);
      var rest := JoinWith(sep, parts[1..]);
      assert forall x :: x in parts[0] + [sep] + rest ==> x in parts[0] || x == sep || x in rest;
    }
  }

  /** A field the unquoted format can carry. */
  predicate Plain(field: string) {
    ',' !in field && '\n' !in field
  }

  predicate Records(records: seq<seq<string>>) {
    |records| > 0 && forall i :: 0 <= i < |records| ==> |records[i]| > 0
  }

  /** The records as lines of comma-joined fields. */
  function Text(records: seq<seq<string>>): string
    requires Records(records)
  {
    JoinWith('\n', seq(|records|, i requires 0 <= i < |records| => JoinWith(',', records[i])))
  }

  /** Reading text back: lines split at the commas. */
  function Parse(text: string): seq<seq<string>> {
    var lines := SplitAt('\n', text);
    seq(|lines|, i requires 0 <= i < |lines| => SplitAt(',', lines[i]))
  }

  /** Reading the text gives back the records when every field is plain. */
  lemma ParseText(records: seq<seq<string>>)
    requires Records(records)
    requires forall i, j :: 0 <= i < |records| && 0 <= j < |records[i]| ==> Plain(records[i][j])
    ensures Parse(Text(records)) == records
  {
    var lines := seq(|records|, i requires 0 <= i < |records| => JoinWith(',', records[i]));
    forall i | 0 <= i < |records| ensures '\n' !in lines[i] && SplitAt(',', lines[i]) == records[i] {
      JoinLacks('\n', ',', records[i]);
      SplitJoin(',', records[i]);
    }
    SplitJoin('\n', lines);
  }
}
