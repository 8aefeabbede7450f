/**
 A small interpreter for the fragment of regular expressions the analyzer's pattern uses,
 with the meaning Python's `re.match` gives them when the `DOTALL` flag is set:
 the start anchor `^`, a decimal digit `\d` (ASCII digits only), a literal character,
 one capturing group, `.*` (any character, newlines included, greedy with backtracking)
 and the end anchor `$` (end of text, or just before a newline that ends the text).
 */
module Regex {
  import opened Wrappers

  datatype Atom =
    | Start
    | Digit
    | Lit(c: char)
    | GroupOpen
    | GroupClose
    | AnyStar
    | End

  /** Bounds of the capturing group; -1 where the group has not been entered or left. */
  datatype Group = Group(start: int, stop: int)

  const NoGroup := Group(-1, -1)

  predicate IsDigit(c: char) {
    '0' <= c <= '9'
  }

  predicate AllDigits(s: string) {
    forall k :: 0 <= k < |s| ==> IsDigit(s[k])
  }

  /** `n` copies of `\d`, i.e. `\d{n}`. */
  function Digits(n: nat): (p: seq<Atom>)
    ensures |p| == n
    ensures forall k :: 0 <= k < n ==> p[k] == Digit
  {
    seq(n, _ => Digit)
  }

  /** The atoms matching the literal text `w`. */
  function Lits(w: string): (p: seq<Atom>)
    ensures |p| == |w|
    ensures forall k :: 0 <= k < |w| ==> p[k] == Lit(w[k])
  {
    seq(|w|, k requires 0 <= k < |w| => Lit(w[k]))
  }

  /**
   Tries to match the atoms `p` against `s` from position `i` on, with group bounds `g`
   recorded so far; yields the final group bounds of the first match found in Python's
   backtracking order.
   */
  function Run(p: seq<Atom>, s: string, i: nat, g: Group): Option<Group>
    requires i <= |s|
    decreases |p|, |s| + 2
  {
    if |p| == 0 then Some(g)
    else
      match p[0]
      case Start => if i == 0 then Run(p[1..], s, i, g) else None
      case Digit => if i < |s| && IsDigit(s[i]) then Run(p[1..], s, i + 1, g) else None
      case Lit(c) => if i < |s| && s[i] == c then Run(p[1..], s, i + 1, g) else None
      case GroupOpen => Run(p[1..], s, i, g.(start := i))
      case GroupClose => Run(p[1..], s, i, g.(stop := i))
      case AnyStar => Backtrack(p[1..], s, i, |s|, g)
      case End =>
        if i == |s| || (i + 1 == |s| && s[i] == '\n') then Run(p[1..], s, i, g) else None
  }

  /** `.*` starting at `lo`: tries the rest of the pattern from `j`, then from `j - 1`, down to `lo`. */
  function Backtrack(rest: seq<Atom>, s: string, lo: nat, j: int, g: Group): Option<Group>
    requires lo <= |s| && j <= |s|
    decreases |rest| + 1, j - lo + 1
  {
    if j < lo then None
    else
      match Run(rest, s, j, g)
      case Some(r) => Some(r)
      case None => Backtrack(rest, s, lo, j - 1, g)
  }

  /** `re.match`: the pattern is tried at the start of the text only. */
  function Match(p: seq<Atom>, s: string): Option<Group> {
    Run(p, s, 0, NoGroup)
  }

  /** `re.match(p, s).group(1)`: the text the group captured, or `None` when there is no match. */
  function MatchGroup(p: seq<Atom>, s: string): Option<string> {
    match Match(p, s)
    case Some(g) => if 0 <= g.start <= g.stop <= |s| then Some(s[g.start..g.stop]) else None
    case None => None
  }

  /** Matching a literal text consumes exactly that text. */
  lemma {:induction false} RunLits(w: string, rest: seq<Atom>, s: string, i: nat, g: Group)
    requires i <= |s|
    ensures Run(Lits(w) + rest, s, i, g)
         == if i + |w| <= |s| && s[i..i + |w|] == w then Run(rest, s, i + |w|, g) else None
    decreases |w|
  {
    if |w| > 0 {
      var p := Lits(w) + rest;
      assert p[0] == Lit(w[0]);
      assert p[1..] == Lits(w[1..]) + rest;
      if i < |s| && s[i] == w[0] {
        RunLits(w[1..], rest, s, i + 1, g);
        if i + |w| <= |s| {
          assert s[i..i + |w|] == [s[i]] + s[i + 1..i + |w|];
        }
      } else if i + |w| <= |s| {
        assert s[i..i + |w|][0] == s[i];
      }
    } else {
      assert Lits(w) + rest == rest;
    }
  }

  /** Matching `\d{n}` consumes exactly `n` digits. */
  lemma {:induction false} RunDigits(n: nat, rest: seq<Atom>, s: string, i: nat, g: Group)
    requires i <= |s|
    ensures Run(Digits(n) + rest, s, i, g)
         == if i + n <= |s| && AllDigits(s[i..i + n]) then Run(rest, s, i + n, g) else None
    decreases n
  {
    if n > 0 {
      var p := Digits(n) + rest;
      assert p[0] == Digit;
      assert p[1..] == Digits(n - 1) + rest;
      if i < |s| && IsDigit(s[i]) {
        RunDigits(n - 1, rest, s, i + 1, g);
        if i + n <= |s| {
          var t := s[i..i + n];
          assert t[1..] == s[i + 1..i + n];
          assert AllDigits(t) <==> IsDigit(t[0]) && AllDigits(t[1..]) by {
            if IsDigit(t[0]) && AllDigits(t[1..]) {
              forall k | 0 <= k < |t| ensures IsDigit(t[k]) {
                if k > 0 { assert t[k] == t[1..][k - 1]; }
              }
            }
          }
        }
      } else if i + n <= |s| {
        assert s[i..i + n][0] == s[i];
      }
    } else {
      assert Digits(n) + rest == rest;
    }
  }

  /** Under `DOTALL`, `.*$` matches whatever text remains. */
  lemma RunAnyToEnd(s: string, i: nat, g: Group)
    requires i <= |s|
    ensures Run([AnyStar, End], s, i, g) == Some(g)
  {
    assert [AnyStar, End][1..] == [End];
    assert Run([End], s, |s|, g) == Some(g) by {
      assert [End][1..] == [];
    }
  }
}
