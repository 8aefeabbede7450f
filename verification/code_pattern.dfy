/**
 The code extractor: the analyzer's `CODE_PATTERN`, `^\d{4} :: Code `(\d{3})`.*$` compiled
 with `DOTALL` and applied with `re.match`, and the 3-digit code it captures.
 */
module CodePattern {
  import opened Wrappers
  import opened Regex

  /** The text between the 4-digit prefix and the captured code: space, `::`, space, `Code`, space, backtick. */
  const Separator: string := " :: Code `"

  /** Where the captured code begins in a matching body. */
  const CodeStart := 14

  /** The pattern as a sequence of atoms. */
  const Pattern: seq<Atom> :=
    [Start] + Digits(4) + Lits(Separator) + [GroupOpen] + Digits(3) + [GroupClose, Lit('`'), AnyStar, End]

  /**
   The shape of a matching body, stated by position: four digits, the separator, three
   digits, a backtick, then anything at all (newlines included).
   */
  predicate HasCodeShape(s: string) {
    && |s| >= 18
    && AllDigits(s[..4])
    && s[4..14] == Separator
    && AllDigits(s[14..17])
    && s[17] == '`'
  }

  /** The interpreter, run on the pattern, accepts exactly the bodies of that shape and captures positions 14 to 17. */
  lemma MatchPattern(s: string)
    ensures Match(Pattern, s) == if HasCodeShape(s) then Some(Group(14, 17)) else None
  {
    var r4: seq<Atom> := [GroupClose, Lit('`'), AnyStar, End];
    var r3 := Digits(3) + r4;
    var r2 := [GroupOpen] + r3;
    var r1 := Lits(Separator) + r2;
    assert Pattern == [Start] + (Digits(4) + r1);
    assert Pattern[1..] == Digits(4) + r1;
    assert |Separator| == 10;
    RunDigits(4, r1, s, 0, NoGroup);
    if 4 <= |s| {
      RunLits(Separator, r2, s, 4, NoGroup);
      if 14 <= |s| {
        assert r2[1..] == r3;
        var g := Group(14, -1);
        RunDigits(3, r4, s, 14, g);
        if 17 <= |s| {
          assert r4[1..] == [Lit('`'), AnyStar, End];
          assert [Lit('`'), AnyStar, End][1..] == [AnyStar, End];
          if 17 < |s| {
            RunAnyToEnd(s, 18, Group(14, 17));
          }
        }
      }
    }
  }

  /**
   The code a message body carries, read off by position: the three characters after the
   separator when the body has the pattern's shape, `None` otherwise.
   */
  function ExtractCode(s: string): (r: Option<string>)
    ensures r.Some? ==> |r.value| == 3 && AllDigits(r.value)
  {
    if HasCodeShape(s) then Some(s[CodeStart..CodeStart + 3]) else None
  }

  /**
   Reading the code off by position is exactly `CODE_PATTERN.match(body).group(1)`: the
   pattern matches precisely the bodies of that shape and captures the three code digits.
   */
  lemma ExtractCodeIsPatternMatch(s: string)
    ensures ExtractCode(s) == MatchGroup(Pattern, s)
    ensures ExtractCode(s).Some? <==> Match(Pattern, s).Some?
  {
    MatchPattern(s);
  }

  /**
   A body written in the pattern's format, with any four-digit prefix and any suffix, yields
   back the code it was written with.
   */
  lemma FormatThenExtract(prefix: string, code: string, suffix: string)
    requires |prefix| == 4 && AllDigits(prefix)
    requires |code| == 3 && AllDigits(code)
    ensures ExtractCode(prefix + Separator + code + "`" + suffix) == Some(code)
  {
    var s := prefix + Separator + code + "`" + suffix;
    assert s[..4] == prefix;
    assert s[4..14] == Separator;
    assert s[14..17] == code;
    assert s[17] == '`';
  }

  /**
   The prefix length is exact: a body whose leading run of digits is three or five long, and
   that otherwise follows the format, does not match, whatever code and suffix follow.
   */
  lemma PrefixDigitCountIsExact(prefix: string, code: string, suffix: string)
    requires AllDigits(prefix) && (|prefix| == 3 || |prefix| == 5)
    ensures ExtractCode(prefix + Separator + code + "`" + suffix).None?
  {
    var s := prefix + Separator + code + "`" + suffix;
    if |prefix| == 3 {
      assert s[3] == ' ';
      assert s[..4][3] == s[3];
    } else {
      assert s[4] == prefix[4];
      assert s[4..14][0] == s[4];
    }
  }

  /**
   The code length is exact: two or four digits between the backticks make a body that
   otherwise follows the format fail to match, whatever prefix and suffix surround them.
   */
  lemma CodeDigitCountIsExact(prefix: string, code: string, suffix: string)
    requires |prefix| == 4
    requires AllDigits(code) && (|code| == 2 || |code| == 4)
    ensures ExtractCode(prefix + Separator + code + "`" + suffix).None?
  {
    var s := prefix + Separator + code + "`" + suffix;
    if |code| == 2 {
      assert s[16] == '`';
      assert s[14..17][2] == s[16];
    } else {
      assert s[17] == code[3];
    }
  }

  /** Everything after the closing backtick is ignored, newlines included. */
  lemma SuffixIsIgnored(s: string, suffix: string)
    requires HasCodeShape(s)
    ensures ExtractCode(s + suffix) == ExtractCode(s)
  {
    var t := s + suffix;
    assert t[..4] == s[..4];
    assert t[4..14] == s[4..14];
    assert t[14..17] == s[14..17];
  }
}
