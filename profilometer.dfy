/**
 * The profilometer text loader (datamerger/io/profilometer.py). The file's
 * text is split into lines; at least four lines are required; the first
 * three are a header and are dropped; every remaining line is split on tabs
 * and each field becomes one cell: the placeholder when the field is exactly
 * the text of the most negative 32-bit float, otherwise the field's value as
 * a Python `float`, which is a parameter of the model (None where `float`
 * raises ValueError).
 */
module Profilometer {
  import opened Wrappers

  /** The exact spelling the loader replaces with the placeholder. */
  const Sentinel: string := "-3.4028235E+38"

  /** Lines dropped before the data rows. */
  const HeaderLines: nat := 3

  datatype LoadError =
    | TooFewLines                  // the `len(lines) >= 4` assertion fails
    | InvalidNumber(field: string) // `float(field)` raises ValueError

  /** `s.split(sep)`: the pieces between separators, always at least one. */
  function Split(s: string, sep: char): (r: seq<string>)
    ensures |r| >= 1
    ensures forall i :: 0 <= i < |r| ==> sep !in r[i]
  {
    if s == [] then [""]
    else
      var rest := Split(s[1..], sep);
      if s[0] == sep then [""] + rest
      else [[s[0]] + rest[0]] + rest[1..]
  }

  /** `sep.join(pieces)`. */
  function Join(pieces: seq<string>, sep: char): string
  {
    if pieces == [] then ""
    else if |pieces| == 1 then pieces[0]
    else pieces[0] + [sep] + Join(pieces[1..], sep)
  }

  /** Splitting loses nothing: joining the pieces gives the text back. */
  lemma {:induction false} JoinSplit(s: string, sep: char)
    ensures Join(Split(s, sep), sep) == s
  {
    if s != [] {
      var rest := Split(s[1..], sep);
      JoinSplit(s[1..], sep);
      if s[0] == sep {
        assert [""] + rest == Split(s, sep);
        assert ([""] + rest)[1..] == rest;
      } else {
        var r := Split(s, sep);
        assert r[0] == [s[0]] + rest[0] && r[1..] == rest[1..];
        if |rest| == 1 {
          assert s == [s[0]] + s[1..];
        } else {
          assert Join(r, sep) == r[0] + [sep] + Join(rest[1..], sep);
          assert Join(rest, sep) == rest[0] + [sep] + Join(rest[1..], sep);
          assert s == [s[0]] + s[1..];
        }
      }
    }
  }

  /** A prefix without separators extends the first piece. */
  lemma {:induction false} SplitPrefix(a: string, t: string, sep: char)
    requires sep !in a
    ensures Split(a + t, sep) == [a + Split(t, sep)[0]] + Split(t, sep)[1..]
  {
    if a != [] {
      var r := Split(t, sep);
      assert (a + t)[1..] == a[1..] + t;
      SplitPrefix(a[1..], t, sep);
      var rest := Split(a[1..] + t, sep);
      assert rest[0] == a[1..] + r[0] && rest[1..] == r[1..];
      assert (a + t)[0] == a[0] && a[0] != sep;
      assert Split(a + t, sep) == [[a[0]] + rest[0]] + rest[1..];
      assert [a[0]] + (a[1..] + r[0]) == a + r[0];
    } else {
      var r := Split(t, sep);
      assert a + t == t && a + r[0] == r[0];
      assert [r[0]] + r[1..] == r;
    }
  }

  /** Joining pieces free of the separator and splitting again gives the pieces back. */
  lemma {:induction false} SplitJoin(pieces: seq<string>, sep: char)
    requires |pieces| >= 1
    requires forall i :: 0 <= i < |pieces| ==> sep !in pieces[i]
    ensures Split(Join(pieces, sep), sep) == pieces
  {
    if |pieces| == 1 {
      SplitPrefix(pieces[0], "", sep);
      assert pieces[0] + "" == pieces[0];
    } else {
      var rest := Join(pieces[1..], sep);
      SplitJoin(pieces[1..], sep);
      assert pieces[0] + [sep] + rest == pieces[0] + ([sep] + rest);
      SplitPrefix(pieces[0], [sep] + rest, sep);
      assert ([sep] + rest)[1..] == rest;
      assert Split([sep] + rest, sep) == [""] + pieces[1..];
      assert ([""] + pieces[1..])[1..] == pieces[1..];
      assert pieces[0] + "" == pieces[0];
      assert pieces == [pieces[0]] + pieces[1..];
    }
  }

  /** A line ending in a tab has an empty last field. */
  lemma {:induction false} TrailingSeparatorGivesEmptyField(s: string, sep: char)
    ensures var r := Split(s + [sep], sep); r[|r| - 1] == ""
  {
    if s == [] {
      assert Split([sep], sep) == [""] + Split([], sep);
    } else {
      assert (s + [sep])[1..] == s[1..] + [sep];
      TrailingSeparatorGivesEmptyField(s[1..], sep);
    }
  }

  /**
   * `text.splitlines()`, for text whose only line break is "\n": the pieces
   * between line breaks, where a final "\n" ends the last line rather than
   * starting an empty one.
   */
  function SplitLines(text: string): (r: seq<string>)
    ensures r == [] <==> text == []
    ensures forall i :: 0 <= i < |r| ==> '\n' !in r[i]
  {
    if text == [] then []
    else if text[|text| - 1] == '\n' then Split(text[..|text| - 1], '\n')
    else Split(text, '\n')
  }

  /** The lines, joined by "\n" and followed by the final "\n" if there was one, give the text back. */
  lemma SplitLinesJoin(text: string)
    requires text != []
    ensures Join(SplitLines(text), '\n') + (if text[|text| - 1] == '\n' then "\n" else "") == text
  {
    if text[|text| - 1] == '\n' {
      JoinSplit(text[..|text| - 1], '\n');
      assert text[..|text| - 1] + "\n" == text;
    } else {
      JoinSplit(text, '\n');
    }
  }

  /** One field: the sentinel becomes the placeholder, anything else goes through `float`. */
  function Cell<V>(field: string, placeholder: V, parse: string -> Option<V>): Option<V>
  {
    if field == Sentinel then Some(placeholder) else parse(field)
  }

  /**
   * One data line's fields, in order. It fails on the first field `float`
   * rejects, naming that field; otherwise every field gives exactly one cell.
   */
  function ParseRow<V>(fields: seq<string>, placeholder: V, parse: string -> Option<V>): (r: Result<seq<V>, LoadError>)
    ensures r.Success? <==> forall j :: 0 <= j < |fields| ==> Cell(fields[j], placeholder, parse).Some?
    ensures r.Success? ==> |r.value| == |fields|
    ensures r.Success? ==> forall j :: 0 <= j < |fields| ==> Cell(fields[j], placeholder, parse) == Some(r.value[j])
    ensures r.Failure? ==>
              exists k :: 0 <= k < |fields| && r.error == InvalidNumber(fields[k])
                          && Cell(fields[k], placeholder, parse).None?
                          && forall j :: 0 <= j < k ==> Cell(fields[j], placeholder, parse).Some?
  {
    if fields == [] then Success([])
    else match Cell(fields[0], placeholder, parse)
      case None => Failure(InvalidNumber(fields[0]))
      case Some(v) =>
        match ParseRow(fields[1..], placeholder, parse)
        case Failure(e) =>
          ghost var k :| 0 <= k < |fields| - 1 && e == InvalidNumber(fields[1..][k])
                         && Cell(fields[1..][k], placeholder, parse).None?
                         && forall j :: 0 <= j < k ==> Cell(fields[1..][j], placeholder, parse).Some?;
          assert forall j :: 0 <= j < k + 1 ==> Cell(fields[j], placeholder, parse).Some? by {
            forall j | 0 <= j < k + 1 ensures Cell(fields[j], placeholder, parse).Some? {
              if j > 0 { assert fields[j] == fields[1..][j - 1]; }
            }
          }
          assert fields[k + 1] == fields[1..][k];
          Failure(e)
        case Success(cells) =>
          assert forall j :: 0 < j < |fields| ==> fields[j] == fields[1..][j - 1];
          Success([v] + cells)
  }

  /** One data line: its tab-separated fields parsed as a row. */
  function ParseLine<V>(line: string, placeholder: V, parse: string -> Option<V>): Result<seq<V>, LoadError>
  {
    ParseRow(Split(line, '\t'), placeholder, parse)
  }

  /** The data lines, in order; it fails with the first failing line's error. */
  function ParseRows<V>(lines: seq<string>, placeholder: V, parse: string -> Option<V>): (r: Result<seq<seq<V>>, LoadError>)
    ensures r.Success? <==> forall i :: 0 <= i < |lines| ==> ParseLine(lines[i], placeholder, parse).Success?
    ensures r.Success? ==> |r.value| == |lines|
    ensures r.Success? ==>
              forall i :: 0 <= i < |lines| ==> ParseLine(lines[i], placeholder, parse) == Success(r.value[i])
    ensures r.Failure? ==>
              exists k :: 0 <= k < |lines| && ParseLine(lines[k], placeholder, parse) == Failure(r.error)
                          && forall i :: 0 <= i < k ==> ParseLine(lines[i], placeholder, parse).Success?
  {
    if lines == [] then Success([])
    else
      var tail := lines[1..];
      assert forall i :: 0 < i < |lines| ==> lines[i] == tail[i - 1];
      match ParseLine(lines[0], placeholder, parse)
      case Failure(e) => Failure(e)
      case Success(row) =>
        match ParseRows(tail, placeholder, parse)
        case Failure(e) =>
          ghost var k :| 0 <= k < |tail| && ParseLine(tail[k], placeholder, parse) == Failure(e)
                         && forall i :: 0 <= i < k ==> ParseLine(tail[i], placeholder, parse).Success?;
          assert lines[k + 1] == tail[k];
          Failure(e)
        case Success(rows) =>
          Success([row] + rows)
  }

  /** `load` on the file's lines: check there are at least four, drop the header, parse the rest. */
  function LoadLines<V>(lines: seq<string>, placeholder: V, parse: string -> Option<V>): (r: Result<seq<seq<V>>, LoadError>)
    ensures |lines| <= HeaderLines ==> r == Failure(TooFewLines)
    ensures r.Success? ==> |lines| > HeaderLines && |r.value| == |lines| - HeaderLines
  {
    if |lines| < HeaderLines + 1 then Failure(TooFewLines)
    else ParseRows(lines[HeaderLines..], placeholder, parse)
  }

  /** `load(path, placeholder)`, with the file read replaced by its text. */
  function Load<V>(text: string, placeholder: V, parse: string -> Option<V>): (r: Result<seq<seq<V>>, LoadError>)
    ensures |SplitLines(text)| <= HeaderLines ==> r == Failure(TooFewLines)
    ensures r.Success? ==> |r.value| == |SplitLines(text)| - HeaderLines
  {
    LoadLines(SplitLines(text), placeholder, parse)
  }

  /**
   * Row i of a successful load comes from line i + 3, with one cell per
   * tab-separated field in field order: the placeholder exactly where the
   * field is the sentinel, and `float` of the field everywhere else.
   */
  lemma LoadCells<V>(lines: seq<string>, placeholder: V, parse: string -> Option<V>, i: nat, j: nat)
    requires LoadLines(lines, placeholder, parse).Success?
    requires i < |lines| - HeaderLines
    ensures var rows := LoadLines(lines, placeholder, parse).value;
            var fields := Split(lines[i + HeaderLines], '\t');
            && |rows[i]| == |fields|
            && (j < |fields| && fields[j] == Sentinel ==> rows[i][j] == placeholder)
            && (j < |fields| && fields[j] != Sentinel ==> parse(fields[j]) == Some(rows[i][j]))
  {
    var rows := LoadLines(lines, placeholder, parse).value;
    var data := lines[HeaderLines..];
    assert data[i] == lines[i + HeaderLines];
    assert ParseLine(data[i], placeholder, parse) == Success(rows[i]);
  }

  /** Every field of the line is the sentinel or a number `float` accepts. */
  ghost predicate Readable<V>(line: string, parse: string -> Option<V>)
  {
    forall f :: f in Split(line, '\t') ==> f == Sentinel || parse(f).Some?
  }

  /**
   * `load` succeeds exactly when there are at least four lines and every
   * field after the header is the sentinel or a number `float` accepts.
   */
  lemma LoadSucceedsIff<V>(lines: seq<string>, placeholder: V, parse: string -> Option<V>)
    ensures LoadLines(lines, placeholder, parse).Success?
        <==> |lines| > HeaderLines && forall i :: HeaderLines <= i < |lines| ==> Readable(lines[i], parse)
  {
    if |lines| > HeaderLines {
      var data := lines[HeaderLines..];
      forall i | HeaderLines <= i < |lines|
        ensures Readable(lines[i], parse) <==> ParseLine(data[i - HeaderLines], placeholder, parse).Success?
      {
        assert data[i - HeaderLines] == lines[i];
      }
      if !ParseRows(data, placeholder, parse).Success? {
        var k :| 0 <= k < |data| && !ParseLine(data[k], placeholder, parse).Success?;
        assert data[k] == lines[k + HeaderLines];
      }
    }
  }

  /**
   * The sentinel is matched by exact spelling: a field that writes the same
   * number with a lower-case exponent is handed to `float` like any other.
   */
  lemma SentinelMatchIsExact<V>(placeholder: V, parse: string -> Option<V>)
    ensures Cell(Sentinel, placeholder, parse) == Some(placeholder)
    ensures Cell("-3.4028235e+38", placeholder, parse) == parse("-3.4028235e+38")
  {
  }

  /** A data line that ends in a tab has an empty last field, so the load fails when `float` rejects "". */
  lemma TrailingTabFails<V>(lines: seq<string>, placeholder: V, parse: string -> Option<V>, i: nat, line: string)
    requires HeaderLines <= i < |lines|
    requires lines[i] == line + "\t"
    requires parse("").None?
    ensures LoadLines(lines, placeholder, parse).Failure?
  {
    TrailingSeparatorGivesEmptyField(line, '\t');
    var fields := Split(lines[i], '\t');
    assert fields[|fields| - 1] == "";
    assert !Readable(lines[i], parse);
    LoadSucceedsIff(lines, placeholder, parse);
  }
}
