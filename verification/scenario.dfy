/**
 A worked run: registry {101, 202}; three coded messages over two days and one message
 without a code, read newest first.
 */
module Scenario {
  import opened Wrappers
  import opened Messages
  import opened CodePattern
  import opened Usage
  import opened Report

  const Jan2 := Date(2024, 1, 2)
  const Jan3 := Date(2024, 1, 3)

  const Registry: set<Code> := {"101", "202"}

  /** The bodies, written as the pattern's parts: prefix, separator, code, backtick, rest. */
  const Body202 := "0001" + Separator + "202" + "`" + "\nbaz"
  const Body101a := "9999" + Separator + "101" + "`" + "\nbar"
  const Body101b := "1234" + Separator + "101" + "`" + "\nfoo"
  const Chat := "just chatting"

  const ChannelLog: seq<Message> := [
    Message(Body202, 1704240000, Jan3),
    Message(Body101a, 1704236400, Jan2),
    Message(Body101b, 1704189600, Jan2),
    Message(Chat, 1704189000, Jan2)
  ]

  /** The three coded bodies yield their codes and the chat line yields none. */
  lemma ScenarioCodes()
    ensures ExtractCode(ChannelLog[0].content) == Some("202")
    ensures ExtractCode(ChannelLog[1].content) == Some("101")
    ensures ExtractCode(ChannelLog[2].content) == Some("101")
    ensures ExtractCode(ChannelLog[3].content) == None
  {
    FormatThenExtract("0001", "202", "\nbaz");
    FormatThenExtract("9999", "101", "\nbar");
    FormatThenExtract("1234", "101", "\nfoo");
    assert Chat[0] == 'j';
  }

  /**
   Any run of this form: a usage of `b` on day `e`, two usages of `a` on day `d`, and a
   message without a code.
   */
  ghost predicate Shaped(h: seq<Message>, a: Code, b: Code, d: Date, e: Date) {
    && |h| == 4
    && ExtractCode(h[0].content) == Some(b) && h[0].day == e
    && ExtractCode(h[1].content) == Some(a) && h[1].day == d
    && ExtractCode(h[2].content) == Some(a) && h[2].day == d
    && ExtractCode(h[3].content) == None
  }

  lemma Step1(h: seq<Message>, a: Code, b: Code, d: Date, e: Date)
    requires a != b && Shaped(h, a, b, d, e)
    ensures Observe(Init({a, b}), h[0]) == map[a := map[], b := map[e := 1]]
  {
    assert Init({a, b}) == map[a := map[], b := map[]];
  }

  lemma Step2(h: seq<Message>, a: Code, b: Code, d: Date, e: Date)
    requires a != b && Shaped(h, a, b, d, e)
    ensures Observe(map[a := map[], b := map[e := 1]], h[1]) == map[a := map[d := 1], b := map[e := 1]]
  {
  }

  lemma Step3(h: seq<Message>, a: Code, b: Code, d: Date, e: Date)
    requires a != b && Shaped(h, a, b, d, e)
    ensures Observe(map[a := map[d := 1], b := map[e := 1]], h[2]) == map[a := map[d := 2], b := map[e := 1]]
  {
    assert map[d := 1][d := 2] == map[d := 2];
  }

  lemma Step4(h: seq<Message>, a: Code, b: Code, d: Date, e: Date)
    requires a != b && Shaped(h, a, b, d, e)
    ensures Observe(map[a := map[d := 2], b := map[e := 1]], h[3]) == map[a := map[d := 2], b := map[e := 1]]
  {
  }

  /** A scan of four messages is four observations in a row. */
  lemma ScanFour(u: Usage, h: seq<Message>)
    requires |h| == 4
    ensures Scan(u, h) == Observe(Observe(Observe(Observe(u, h[0]), h[1]), h[2]), h[3])
  {
    ScanSnoc(u, [], h[0]);
    assert [h[0]] == [] + [h[0]];
    ScanSnoc(u, [h[0]], h[1]);
    assert [h[0], h[1]] == [h[0]] + [h[1]];
    ScanSnoc(u, [h[0], h[1]], h[2]);
    assert [h[0], h[1], h[2]] == [h[0], h[1]] + [h[2]];
    ScanSnoc(u, [h[0], h[1], h[2]], h[3]);
    assert h == [h[0], h[1], h[2]] + [h[3]];
  }

  /** The accumulator at the end of such a run. */
  lemma ShapedAccumulator(h: seq<Message>, a: Code, b: Code, d: Date, e: Date)
    requires a != b && Shaped(h, a, b, d, e)
    ensures Scan(Init({a, b}), h) == map[a := map[d := 2], b := map[e := 1]]
  {
    ScanFour(Init({a, b}), h);
    Step1(h, a, b, d, e);
    Step2(h, a, b, d, e);
    Step3(h, a, b, d, e);
    Step4(h, a, b, d, e);
  }

  /** The rows of a report where each of two codes was used on its own day. */
  lemma TwoDayRows(a: Code, b: Code, d: Date, e: Date, x: nat, y: nat)
    requires a != b && d != e && x >= 1 && y >= 1
    ensures Pivot(map[a := map[d := x], b := map[e := y]]).rows.Keys == {d, e}
  {
    var u := map[a := map[d := x], b := map[e := y]];
    assert d in u[a] && e in u[b];
  }

  /** The report rows where each of two codes was used on its own day: zero in the other code's cell. */
  lemma TwoDayRowValues(a: Code, b: Code, d: Date, e: Date, x: nat, y: nat)
    requires a != b && d != e && x >= 1 && y >= 1
    ensures d in Pivot(map[a := map[d := x], b := map[e := y]]).rows
    ensures e in Pivot(map[a := map[d := x], b := map[e := y]]).rows
    ensures Pivot(map[a := map[d := x], b := map[e := y]]).rows[d] == map[a := x, b := 0]
    ensures Pivot(map[a := map[d := x], b := map[e := y]]).rows[e] == map[a := 0, b := y]
  {
    TwoDayRows(a, b, d, e, x, y);
  }

  /** The whole report where each of two codes was used on its own day. */
  lemma TwoDayReport(a: Code, b: Code, d: Date, e: Date, x: nat, y: nat)
    requires a != b && d != e && x >= 1 && y >= 1
    ensures Pivot(map[a := map[d := x], b := map[e := y]])
         == Table({a, b}, map[d := map[a := x, b := 0], e := map[a := 0, b := y]])
  {
    TwoDayRows(a, b, d, e, x, y);
    TwoDayRowValues(a, b, d, e, x, y);
  }

  /** The accumulator and the report at the end of the worked run. */
  lemma ScenarioOutcome()
    ensures Scan(Init(Registry), ChannelLog) == map["101" := map[Jan2 := 2], "202" := map[Jan3 := 1]]
    ensures Pivot(Scan(Init(Registry), ChannelLog))
         == Table(Registry, map[Jan2 := map["101" := 2, "202" := 0], Jan3 := map["101" := 0, "202" := 1]])
  {
    ScenarioCodes();
    assert "101" != "202";
    ShapedAccumulator(ChannelLog, "101", "202", Jan2, Jan3);
    TwoDayReport("101", "202", Jan2, Jan3, 2, 1);
  }
}
