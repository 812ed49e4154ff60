/**
 Fitting a reply to the OLED: every source line is hard-wrapped to the screen's width and the rows are
 clipped to the screen's height, with an ellipsis only when something was cut.
 */
module OledFit {
  import opened Basics

  const ELLIPSIS := '\U{2026}'

  predicate NoNewline(s: string) {
    forall i :: 0 <= i < |s| ==> s[i] != '\n'
  }

  predicate AllRows(rows: seq<string>, width: nat) {
    forall i :: 0 <= i < |rows| ==> NoNewline(rows[i]) && |rows[i]| <= width
  }

  /** text.split("\n") */
  function Split(text: string): (lines: seq<string>)
    ensures |lines| > 0 && forall i :: 0 <= i < |lines| ==> NoNewline(lines[i])
  {
    if text == [] then [""]
    else
      var rest := Split(text[1..]);
      if text[0] == '\n' then [""] + rest else [[text[0]] + rest[0]] + rest[1..]
  }

  /** "\n".join(lines) */
  function Join(lines: seq<string>): string {
    if lines == [] then "" else if |lines| == 1 then lines[0] else lines[0] + "\n" + Join(lines[1..])
  }

  lemma {:induction false} JoinSplit(text: string)
    ensures Join(Split(text)) == text
  {
    if text != [] {
      var rest := Split(text[1..]);
      JoinSplit(text[1..]);
      if text[0] == '\n' {
        assert Split(text)[1..] == rest;
      } else if |rest| > 1 {
        assert Split(text)[1..] == rest[1..];
      }
    }
  }

  lemma {:induction false} SplitLine(line: string, tail: string)
    requires NoNewline(line)
    ensures Split(line) == [line]
    ensures Split(line + "\n" + tail) == [line] + Split(tail)
  {
    if line == [] {
      assert line + "\n" + tail == ['\n'] + tail;
    } else {
      SplitLine(line[1..], tail);
      var whole := line + "\n" + tail;
      assert whole[1..] == line[1..] + "\n" + tail;
      assert [line[0]] + line[1..] == line;
    }
  }

  lemma {:induction false} SplitJoin(lines: seq<string>)
    requires lines != [] && forall i :: 0 <= i < |lines| ==> NoNewline(lines[i])
    ensures Split(Join(lines)) == lines
  {
    if |lines| == 1 {
      SplitLine(lines[0], "");
    } else {
      SplitLine(lines[0], Join(lines[1..]));
      SplitJoin(lines[1..]);
    }
  }

  /** One source line cut into rows of the given width; an empty line is one empty row. */
  function Wrap(line: string, width: nat): (rows: seq<string>)
    requires width > 0
    ensures |rows| > 0
  {
    if |line| <= width then [line] else [line[..width]] + Wrap(line[width..], width)
  }

  /** What a hard wrap is: nothing lost, and every row but the last is full. */
  lemma {:induction false} WrapIsHardWrap(line: string, width: nat)
    requires width > 0
    ensures var rows := Wrap(line, width);
            && Flatten(rows) == line
            && (forall i :: 0 <= i < |rows| - 1 ==> |rows[i]| == width)
            && |rows[|rows| - 1]| <= width && (line != "" ==> rows[|rows| - 1] != "")
            && (NoNewline(line) ==> AllRows(rows, width))
  {
    if |line| > width {
      WrapIsHardWrap(line[width..], width);
      assert line[..width] + line[width..] == line;
    } else {
      assert Flatten([line]) == line + Flatten<char>([]);
    }
  }

  function Rows(lines: seq<string>, width: nat): (rows: seq<string>)
    requires width > 0
    ensures |rows| >= |lines|
  {
    if lines == [] then [] else Rows(lines[..|lines| - 1], width) + Wrap(lines[|lines| - 1], width)
  }

  lemma {:induction false} RowsConcat(a: seq<string>, b: seq<string>, width: nat)
    requires width > 0
    ensures Rows(a + b, width) == Rows(a, width) + Rows(b, width)
  {
    if b == [] {
      assert a + b == a;
    } else {
      RowsConcat(a, b[..|b| - 1], width);
      assert (a + b)[..|a + b| - 1] == a + b[..|b| - 1];
      Associative(Rows(a, width), Rows(b[..|b| - 1], width), Wrap(b[|b| - 1], width));
      hide Wrap;
    }
  }

  lemma {:induction false} RowsFit(lines: seq<string>, width: nat)
    requires width > 0 && forall i :: 0 <= i < |lines| ==> NoNewline(lines[i])
    ensures AllRows(Rows(lines, width), width)
    ensures Flatten(Rows(lines, width)) == Flatten(lines)
  {
    if lines != [] {
      var init, last := lines[..|lines| - 1], lines[|lines| - 1];
      RowsFit(init, width);
      WrapIsHardWrap(last, width);
      FlattenConcat(Rows(init, width), Wrap(last, width));
      FlattenAppend(init, last);
      assert lines == init + [last];
    }
  }

  lemma {:induction false} RowsUnchanged(rows: seq<string>, width: nat)
    requires width > 0 && AllRows(rows, width)
    ensures Rows(rows, width) == rows
  {
    if rows != [] {
      RowsUnchanged(rows[..|rows| - 1], width);
    }
  }

  predicate EndsWithEllipsis(row: string) {
    row != "" && row[|row| - 1] == ELLIPSIS
  }

  /** The last visible row when rows below it were cut. */
  function Clip(row: string, width: nat): string
    requires width > 0
  {
    if EndsWithEllipsis(row) then row
    else if |row| >= width then row[..width - 1] + [ELLIPSIS]
    else row + [ELLIPSIS]
  }

  /** The simple form: hard-wrap every source line, then clip. */
  function FitRows(text: string, height: nat, width: nat): (rows: seq<string>)
    requires height > 0 && width > 0
  {
    var rows := Rows(Split(text), width);
    if |rows| <= height then rows else rows[..height - 1] + [Clip(rows[height - 1], width)]
  }

  function Fit(text: string, height: nat, width: nat): string
    requires height > 0 && width > 0
  {
    Join(FitRows(text, height, width))
  }

  lemma {:induction false} NoRows(width: nat)
    requires width > 0
    ensures Rows([], width) == []
  {
  }

  /** The gateway's wrapping loop. */
  method FitOled(text: string, maxLines: nat := 4, maxChars: nat := 12) returns (fitted: string)
    requires maxLines > 0 && maxChars > 0
    ensures fitted == Fit(text, maxLines, maxChars)
  {
    hide Rows, Split, Cut, NoNewline, Marked, FitRows;
    var sourceLines := Split(text);
    NoRows(maxChars);
    ghost var rows := Rows(sourceLines, maxChars);
    var out: seq<string> := [];
    var truncated := false;
    var index := 0;
    while index < |sourceLines| && !truncated
      invariant 0 <= index <= |sourceLines|
      invariant !truncated ==> out == Rows(sourceLines[..index], maxChars) && |out| <= maxLines
      invariant truncated ==> Cut(out, rows, maxLines, maxChars)
      decreases |sourceLines| - index, !truncated
    {
      var raw := sourceLines[index];
      ghost var upTo := Rows(sourceLines[..index + 1], maxChars);
      RowsPrefix(sourceLines, index, maxChars);
      if |out| >= maxLines {
        truncated := true;
        CutAtRow(out, rows, maxLines, maxChars);
        break;
      }
      if raw == "" {
        out := out + [""];
        index := index + 1;
        continue;
      }
      while raw != "" && !truncated
        invariant !truncated ==> out + (if raw == "" then [] else Wrap(raw, maxChars)) == upTo && |out| <= maxLines
        invariant !truncated && raw != "" ==> |out| < maxLines
        invariant truncated ==> Cut(out, rows, maxLines, maxChars)
        decreases |raw|, !truncated
      {
        if |out| >= maxLines {
          truncated := true;
          break;
        }
        if |raw| <= maxChars {
          out := out + [raw];
          raw := "";
        } else if |out| == maxLines - 1 {
          CutLongRow(out, raw, upTo, rows, maxChars);
          out := out + [raw[..maxChars - 1] + [ELLIPSIS]];
          truncated := true;
          raw := "";
        } else {
          out := out + [raw[..maxChars]];
          raw := raw[maxChars..];
        }
      }
      if truncated {
        break;
      }
      if index < |sourceLines| - 1 && |out| >= maxLines {
        truncated := true;
        CutAtRow(out, rows, maxLines, maxChars);
        break;
      }
      index := index + 1;
    }
    assert sourceLines[..|sourceLines|] == sourceLines;
    MarkedIsFit(text, out, truncated, maxLines, maxChars);
    fitted := JoinMarked(out, truncated, maxChars);
  }

  function Marked(rows: seq<string>, truncated: bool, width: nat): seq<string>
    requires width > 0
  {
    if truncated && rows != [] then rows[..|rows| - 1] + [Clip(rows[|rows| - 1], width)] else rows
  }

  /** The loop's last step: mark the last row when rows were cut, and join. */
  method JoinMarked(rows: seq<string>, truncated: bool, maxChars: nat) returns (text: string)
    requires maxChars > 0
    ensures text == Join(Marked(rows, truncated, maxChars))
  {
    var out := rows;
    if truncated && |out| > 0 && !EndsWithEllipsis(out[|out| - 1]) {
      var last := out[|out| - 1];
      out := out[..|out| - 1] + [if |last| >= maxChars then last[..maxChars - 1] + [ELLIPSIS] else last + [ELLIPSIS]];
    }
    assert out == Marked(rows, truncated, maxChars);
    text := Join(out);
  }

  lemma {:induction false} CutLongRow(out: seq<string>, raw: string, upTo: seq<string>, rows: seq<string>, width: nat)
    requires width > 0 && |raw| > width
    requires upTo == out + Wrap(raw, width) && upTo <= rows
    ensures Cut(out + [raw[..width - 1] + [ELLIPSIS]], rows, |out| + 1, width)
  {
    assert Wrap(raw, width)[0] == raw[..width];
    assert upTo[|out|] == raw[..width] && rows[..|out|] == out;
    assert rows[|out|] == upTo[|out|];
    assert raw[..width][..width - 1] == raw[..width - 1];
  }

  lemma {:induction false} CutAtRow(out: seq<string>, rows: seq<string>, height: nat, width: nat)
    requires height > 0 && width > 0 && |out| == height < |rows| && out <= rows
    ensures Cut(out, rows, height, width)
  {
  }

  lemma {:induction false} MarkedIsFit(text: string, out: seq<string>, truncated: bool, height: nat, width: nat)
    requires height > 0 && width > 0
    requires truncated ==> Cut(out, Rows(Split(text), width), height, width)
    requires !truncated ==> out == Rows(Split(text), width) && |out| <= height
    ensures Marked(out, truncated, width) == FitRows(text, height, width)
  {
    RowsFit(Split(text), width);
  }

  lemma {:induction false} RowsPrefix(lines: seq<string>, index: nat, width: nat)
    requires width > 0 && index < |lines|
    ensures Rows(lines[..index + 1], width) == Rows(lines[..index], width) + Wrap(lines[index], width)
    ensures Rows(lines[..index + 1], width) <= Rows(lines, width)
    ensures index + 1 < |lines| ==> |Rows(lines[..index + 1], width)| < |Rows(lines, width)|
  {
    assert lines[..index + 1][..index] == lines[..index];
    RowsConcat(lines[..index + 1], lines[index + 1..], width);
    assert lines[..index + 1] + lines[index + 1..] == lines;
  }

  /** Rows were cut: the screen is full, and its last row is still the true one or already clipped. */
  ghost predicate Cut(out: seq<string>, rows: seq<string>, height: nat, width: nat)
    requires height > 0 && width > 0
  {
    && |out| == height < |rows|
    && out[..height - 1] == rows[..height - 1]
    && (out[height - 1] == rows[height - 1]
        || (|rows[height - 1]| >= width && out[height - 1] == rows[height - 1][..width - 1] + [ELLIPSIS]))
  }

  /**
   What is on the screen: as many true rows as fit; when rows were cut the last one ends in an ellipsis, after as
   much of the true row as leaves room for it, unless it ended in one already.
   */
  lemma {:induction false} FitShows(text: string, height: nat, width: nat)
    requires height > 0 && width > 0
    ensures var rows, shown := Rows(Split(text), width), Split(Fit(text, height, width));
            && shown == FitRows(text, height, width)
            && AllRows(shown, width) && |shown| == Min(height, |rows|)
            && (|rows| <= height ==> shown == rows)
            && (|rows| > height ==>
                  var row := rows[height - 1];
                  && shown[..height - 1] == rows[..height - 1]
                  && shown[height - 1] == if row != "" && row[|row| - 1] == '\U{2026}' then row
                                          else row[..Min(|row|, width - 1)] + ['\U{2026}'])
  {
    var rows := Rows(Split(text), width);
    RowsFit(Split(text), width);
    var shown := FitRows(text, height, width);
    if |rows| > height {
      var row := rows[height - 1];
      assert NoNewline(row) && |row| <= width;
      assert row[..|row|] == row;
    }
    SplitJoin(shown);
  }

  /** So what is shown of the last row is a prefix of it. */
  lemma {:induction false} CutIsPrefix(text: string, height: nat, width: nat)
    requires height > 0 && width > 0 && |Rows(Split(text), width)| > height
    ensures |Split(Fit(text, height, width))| == height
    ensures var last := Split(Fit(text, height, width))[height - 1];
            last != "" && last[|last| - 1] == '\U{2026}' && last[..|last| - 1] <= Rows(Split(text), width)[height - 1]
  {
    FitShows(text, height, width);
    hide Fit, Rows, Split;
  }

  /** The rows are the wraps of the lines, one after the other. */
  lemma {:induction false} RowsAreWraps(lines: seq<string>, i: nat, width: nat)
    requires width > 0 && i < |lines|
    ensures var at, wrap := |Rows(lines[..i], width)|, Wrap(lines[i], width);
            at + |wrap| <= |Rows(lines, width)| && Rows(lines, width)[at..at + |wrap|] == wrap
    ensures i + 1 == |lines| ==> |Rows(lines, width)| == |Rows(lines[..i], width)| + |Wrap(lines[i], width)|
    ensures Rows(lines[..0], width) == []
  {
    RowsPrefix(lines, i, width);
    var all, before, wrap := Rows(lines, width), Rows(lines[..i], width), Wrap(lines[i], width);
    assert all[..|before + wrap|] == before + wrap;
    assert i + 1 == |lines| ==> lines[..i + 1] == lines;
    hide Rows, Wrap;
    assert (before + wrap)[|before|..] == wrap;
    assert all[|before|..|before| + |wrap|] == all[..|before| + |wrap|][|before|..];
    NoRows(width);
    assert lines[..0] == [];
  }

  /** Output that was not cut loses no character: without line breaks it is the text without line breaks. */
  lemma {:induction false} UncutLosesNothing(text: string, height: nat, width: nat)
    requires height > 0 && width > 0
    requires |Rows(Split(text), width)| <= height
    ensures Flatten(Split(Fit(text, height, width))) == Flatten(Split(text))
  {
    FitShows(text, height, width);
    RowsFit(Split(text), width);
  }

  lemma {:induction false} FitIdempotent(text: string, height: nat, width: nat)
    requires height > 0 && width > 0
    ensures Fit(Fit(text, height, width), height, width) == Fit(text, height, width)
  {
    FitShows(text, height, width);
    RowsUnchanged(FitRows(text, height, width), width);
  }
}
