/** The special-treatment history of a stock: `get_his_st_data` of
    open_quant_app/xtquant/xtdata.py reads a CSV of status changes and
    returns, for each of the labels "ST", "*ST" and "PT", the date intervals
    during which the stock carried it.

    The file is given as its lines, each still ending in the newline that
    `readlines` keeps, or None when it cannot be opened. */
module StHistory {
  import opened Common

  /** The end date of the last interval, 2038-01-19. */
  const OpenEnd: string := "20380119"

  /** Python's `s.split(sep)`: the pieces between separators, always at
      least one. */
  function Split(s: string, sep: char): (r: seq<string>)
    ensures |r| >= 1
  {
    if |s| == 0 then [""]
    else
      var p := Split(s[..|s| - 1], sep);
      var c := s[|s| - 1];
      if c == sep then p + [""] else p[..|p| - 1] + [p[|p| - 1] + [c]]
  }

  /** `sep.join(parts)`. */
  function Join(parts: seq<string>, sep: char): string
    requires |parts| >= 1
  {
    if |parts| == 1 then parts[0]
    else Join(parts[..|parts| - 1], sep) + [sep] + parts[|parts| - 1]
  }

  /** Splitting loses nothing: joining the pieces gives the line back. */
  lemma {:induction false} SplitJoin(s: string, sep: char)
    ensures Join(Split(s, sep), sep) == s
  {
    if |s| > 0 {
      var init := s[..|s| - 1];
      var c := s[|s| - 1];
      var p := Split(init, sep);
      SplitJoin(init, sep);
      assert init + [c] == s;
      if c == sep {
        assert (p + [""])[..|p|] == p;
      } else {
        var q := p[..|p| - 1] + [p[|p| - 1] + [c]];
        assert q[..|q| - 1] == p[..|p| - 1];
        if |p| > 1 {
          assert Join(p, sep) == Join(p[..|p| - 1], sep) + [sep] + p[|p| - 1];
        }
      }
    }
  }

  /** No piece of a split holds the separator. */
  lemma {:induction false} SplitPiecesLackSeparator(s: string, sep: char)
    ensures forall k :: 0 <= k < |Split(s, sep)| ==> sep !in Split(s, sep)[k]
  {
    if |s| > 0 {
      var init := s[..|s| - 1];
      var c := s[|s| - 1];
      var p := Split(init, sep);
      SplitPiecesLackSeparator(init, sep);
      if c != sep {
        var q := p[..|p| - 1] + [p[|p| - 1] + [c]];
        forall k | 0 <= k < |q|
          ensures sep !in q[k]
        {
          if k < |q| - 1 {
            assert q[k] == p[k];
          }
        }
      }
    }
  }

  /** One status change: the date it takes effect and its flag. */
  datatype Change = Change(date: string, flag: string)

  datatype Interval = Interval(start: string, end: string)

  /** The status changes of `stockCode`: the rows with at least four
      columns whose first column is the code, in file order. */
  function StatusRows(lines: seq<string>, stockCode: string): (r: seq<Change>)
    ensures |r| <= |lines|
  {
    if |lines| == 0 then []
    else
      var cols := Split(lines[|lines| - 1], ',');
      StatusRows(lines[..|lines| - 1], stockCode)
        + if |cols| >= 4 && cols[0] == stockCode then [Change(cols[2], cols[3])] else []
  }

  /** Whether a split line is a status row of `stockCode`. */
  predicate RowOf(cols: seq<string>, stockCode: string)
  {
    |cols| >= 4 && cols[0] == stockCode
  }

  /** The status changes are exactly the third and fourth columns of the
      lines that are status rows of the stock. */
  lemma {:induction false} StatusRowsMembers(lines: seq<string>, stockCode: string, c: Change)
    ensures c in StatusRows(lines, stockCode) <==>
      exists k :: 0 <= k < |lines| && RowOf(Split(lines[k], ','), stockCode)
        && c == Change(Split(lines[k], ',')[2], Split(lines[k], ',')[3])
  {
    if |lines| > 0 {
      var init := lines[..|lines| - 1];
      StatusRowsMembers(init, stockCode, c);
      var last := |lines| - 1;
      if c in StatusRows(lines, stockCode) {
        if c !in StatusRows(init, stockCode) {
          assert RowOf(Split(lines[last], ','), stockCode)
            && c == Change(Split(lines[last], ',')[2], Split(lines[last], ',')[3]);
        } else {
          var k :| 0 <= k < |init| && RowOf(Split(init[k], ','), stockCode)
            && c == Change(Split(init[k], ',')[2], Split(init[k], ',')[3]);
          assert init[k] == lines[k];
        }
      } else {
        forall k | 0 <= k < |lines| && RowOf(Split(lines[k], ','), stockCode)
          ensures c != Change(Split(lines[k], ',')[2], Split(lines[k], ',')[3])
        {
          if k < last {
            assert init[k] == lines[k];
          }
        }
      }
    }
  }

  /** The rows of two consecutive pieces of the file, in file order. */
  lemma {:induction false} StatusRowsConcat(a: seq<string>, b: seq<string>, stockCode: string)
    ensures StatusRows(a + b, stockCode) == StatusRows(a, stockCode) + StatusRows(b, stockCode)
  {
    if |b| > 0 {
      var init := b[..|b| - 1];
      StatusRowsConcat(a, init, stockCode);
      assert (a + b)[..|a + b| - 1] == a + init;
      assert (a + b)[|a + b| - 1] == b[|b| - 1];
    } else {
      assert a + b == a;
    }
  }

  /** The label a flag stands for; None for any other flag. */
  function Label(flag: string): (r: Option<string>)
    ensures r.Some? <==> flag in {"1", "2", "3"}
  {
    if flag == "1" then Some("ST")
    else if flag == "2" then Some("*ST")
    else if flag == "3" then Some("PT")
    else None
  }

  /** A flag in the last column still carries its newline, so it stands for no label. */
  lemma LastColumnFlagIgnored()
    ensures Label("1\n") == None && Label("2\n") == None && Label("3\n") == None
  {
  }

  /** Each change lasts until the next change, the last one until `OpenEnd`. */
  function Spans(status: seq<Change>): (r: seq<(string, Interval)>)
    ensures |r| == |status|
    ensures forall i :: 0 <= i < |r| ==> r[i].0 == status[i].flag && r[i].1.start == status[i].date
  {
    seq(|status|, i requires 0 <= i < |status| =>
      (status[i].flag, Interval(status[i].date, if i + 1 < |status| then status[i + 1].date else OpenEnd)))
  }

  /** The intervals tile the timeline: each ends where the next begins, and
      the last ends at `OpenEnd`. */
  lemma SpansTile(status: seq<Change>)
    requires |status| > 0
    ensures forall i :: 0 <= i < |status| - 1 ==> Spans(status)[i].1.end == Spans(status)[i + 1].1.start
    ensures Spans(status)[|status| - 1].1.end == OpenEnd
  {
  }

  /** Grouping the labelled spans by label, each group in file order. */
  function Collect(spans: seq<(string, Interval)>): (r: map<string, seq<Interval>>)
    ensures forall l :: l in r ==> l in {"ST", "*ST", "PT"} && |r[l]| > 0
  {
    if |spans| == 0 then map[]
    else
      FileUnder(Collect(spans[..|spans| - 1]), spans[|spans| - 1].0, spans[|spans| - 1].1)
  }

  /** Files one span under the label of its flag, after the spans already there. */
  function FileUnder(m: map<string, seq<Interval>>, flag: string, iv: Interval): map<string, seq<Interval>>
  {
    match Label(flag)
    case None => m
    case Some(l) => m[l := (if l in m then m[l] else []) + [iv]]
  }

  /** The spans whose flag stands for `name`, in order. */
  function IntervalsOf(spans: seq<(string, Interval)>, name: string): seq<Interval>
  {
    if |spans| == 0 then []
    else
      IntervalsOf(spans[..|spans| - 1], name)
        + if Label(spans[|spans| - 1].0) == Some(name) then [spans[|spans| - 1].1] else []
  }

  /** A label is present exactly when some span carries it, and then it
      holds exactly that label's spans in order. */
  lemma {:induction false} CollectIsGrouping(spans: seq<(string, Interval)>, name: string)
    ensures name in Collect(spans) <==> IntervalsOf(spans, name) != []
    ensures name in Collect(spans) ==> Collect(spans)[name] == IntervalsOf(spans, name)
  {
    if |spans| > 0 {
      CollectIsGrouping(spans[..|spans| - 1], name);
    }
  }

  /** `get_his_st_data`: nothing when the file cannot be read, otherwise the
      stock's intervals grouped by label. */
  function HisStData(lines: Option<seq<string>>, stockCode: string): (r: map<string, seq<Interval>>)
    ensures lines.None? ==> r == map[]
    ensures forall l :: l in r ==> l in {"ST", "*ST", "PT"} && |r[l]| > 0
  {
    match lines
    case None => map[]
    case Some(ls) => Collect(Spans(StatusRows(ls, stockCode)))
  }

  /** A stock absent from the file has no history. */
  lemma UnknownStockHasNoHistory(lines: seq<string>, stockCode: string)
    requires forall k :: 0 <= k < |lines| ==> Split(lines[k], ',')[0] != stockCode
    ensures HisStData(Some(lines), stockCode) == map[]
  {
    UnknownStockHasNoRows(lines, stockCode);
  }

  lemma {:induction false} UnknownStockHasNoRows(lines: seq<string>, stockCode: string)
    requires forall k :: 0 <= k < |lines| ==> Split(lines[k], ',')[0] != stockCode
    ensures StatusRows(lines, stockCode) == []
  {
    if |lines| > 0 {
      UnknownStockHasNoRows(lines[..|lines| - 1], stockCode);
    }
  }

  /** The first loop of `get_his_st_data`: the stock's status changes. */
  method ReadStatus(datas: seq<string>, stockCode: string) returns (status: seq<Change>)
    ensures status == StatusRows(datas, stockCode)
  {
    status := [];
    for k := 0 to |datas|
      invariant status == StatusRows(datas[..k], stockCode)
    {
      assert datas[..k + 1][..k] == datas[..k];
      var cols := Split(datas[k], ',');
      if |cols| >= 4 && cols[0] == stockCode {
        status := status + [Change(cols[2], cols[3])];
      }
    }
    assert datas[..|datas|] == datas;
  }

  /** One step of the second loop: files `iv` under the label of `flag`. */
  method File(result: map<string, seq<Interval>>, flag: string, iv: Interval) returns (r: map<string, seq<Interval>>)
    ensures r == FileUnder(result, flag, iv)
  {
    r := result;
    var realStatus := "";
    if flag == "1" {
      realStatus := "ST";
    } else if flag == "2" {
      realStatus := "*ST";
    } else if flag == "3" {
      realStatus := "PT";
    } else {
      return;
    }
    if realStatus !in r {
      r := r[realStatus := []];
    }
    r := r[realStatus := r[realStatus] + [iv]];
  }

  /** The second loop of `get_his_st_data`: each change runs to the next one
      and is filed under its label; unknown flags are skipped. */
  method GroupStatus(status: seq<Change>) returns (result: map<string, seq<Interval>>)
    ensures result == Collect(Spans(status))
  {
    ghost var spans := Spans(status);
    result := map[];
    var i := 0;
    while i < |status|
      invariant 0 <= i <= |status|
      invariant result == Collect(spans[..i])
    {
      assert spans[..i + 1][..i] == spans[..i];
      var start := status[i].date;
      var flag := status[i].flag;
      i := i + 1;
      var end := OpenEnd;
      if i < |status| {
        end := status[i].date;
      }
      result := File(result, flag, Interval(start, end));
    }
    assert spans[..i] == spans;
  }

  method HisStDataRun(lines: Option<seq<string>>, stockCode: string) returns (result: map<string, seq<Interval>>)
    ensures result == HisStData(lines, stockCode)
  {
    if lines.None? {
      return map[];
    }
    var status := ReadStatus(lines.value, stockCode);
    if status == [] {
      return map[];
    }
    result := GroupStatus(status);
  }
}
