/**
 The usage accumulator `CODE_USAGE`: for every code of the registry, a map from day to the
 number of matching messages seen on that day; together with the per-message step of the
 channel reader (match, registry filter, increment) and its fold over a run of messages.
 */
module Usage {
  import opened Wrappers
  import opened Messages
  import opened CodePattern
  import opened Tally

  type Code = string

  type Usage = map<Code, map<Date, nat>>

  /** The count stored for `d`, or 0 when no count is stored. */
  function Get(cells: map<Date, nat>, d: Date): nat {
    if d in cells then cells[d] else 0
  }

  /** Every stored count is at least one: a day is present only once it has been counted. */
  predicate Positive(u: Usage) {
    forall c, d :: c in u && d in u[c] ==> u[c][d] >= 1
  }

  /** The accumulator before any message: one empty day map per registry code. */
  function Init(registry: set<Code>): (u: Usage)
    ensures u.Keys == registry
    ensures forall c :: c in u ==> u[c] == map[]
    ensures Positive(u)
  {
    map c | c in registry :: map[]
  }

  /**
   `add_or_increase_usage(code, day)`: the cell (code, day) becomes 1 when absent and grows by
   one otherwise; no other cell and no top-level key changes.
   */
  function AddOrIncreaseUsage(u: Usage, code: Code, day: Date): (r: Usage)
    requires code in u
    ensures r.Keys == u.Keys
    ensures r[code].Keys == u[code].Keys + {day}
    ensures day !in u[code] ==> r[code][day] == 1
    ensures day in u[code] ==> r[code][day] == u[code][day] + 1
    ensures forall d :: d in u[code] && d != day ==> r[code][d] == u[code][d]
    ensures forall c :: c in u && c != code ==> r[c] == u[c]
    ensures Positive(u) ==> Positive(r)
  {
    var cells := u[code];
    if day in cells then u[code := cells[day := cells[day] + 1]]
    else u[code := cells[day := 1]]
  }

  /** Whether message `m` is a usage of `code` on day `d`. */
  predicate Hits(m: Message, code: Code, d: Date) {
    ExtractCode(m.content) == Some(code) && m.day == d
  }

  /**
   What the channel reader does with one message: when its body matches and the captured
   code is a key of the accumulator, count it on the message's day; otherwise nothing.
   */
  function Observe(u: Usage, m: Message): (r: Usage)
    ensures r.Keys == u.Keys
    ensures ExtractCode(m.content).None? ==> r == u
    ensures ExtractCode(m.content).Some? && ExtractCode(m.content).value !in u ==> r == u
  {
    match ExtractCode(m.content)
    case Some(code) => if code in u then AddOrIncreaseUsage(u, code, m.day) else u
    case None => u
  }

  /**
   Observing a message adds one to exactly the cells it is a usage for (at most one cell,
   that of its code on its day) and keeps stored counts at least one.
   */
  lemma ObserveCounts(u: Usage, m: Message)
    ensures forall c, d :: c in u ==> Get(Observe(u, m)[c], d) == Get(u[c], d) + (if Hits(m, c, d) then 1 else 0)
    ensures Positive(u) ==> Positive(Observe(u, m))
  {
  }

  /** The accumulator after observing `msgs` in order, starting from `u`. */
  function Scan(u: Usage, msgs: seq<Message>): (r: Usage)
    ensures r.Keys == u.Keys
    decreases |msgs|
  {
    if |msgs| == 0 then u else Observe(Scan(u, msgs[..|msgs| - 1]), msgs[|msgs| - 1])
  }

  /** The number of messages in `msgs` that are usages of `code` on day `d`. */
  function Count(msgs: seq<Message>, code: Code, d: Date): nat {
    CountIf(msgs, m => Hits(m, code, d))
  }

  /** Observing one more message extends the scan by one step. */
  lemma ScanSnoc(u: Usage, seen: seq<Message>, m: Message)
    ensures Scan(u, seen + [m]) == Observe(Scan(u, seen), m)
  {
    assert (seen + [m])[..|seen + [m]| - 1] == seen;
  }

  /** Scanning two runs of messages one after the other is scanning their concatenation. */
  lemma {:induction false} ScanAppend(u: Usage, a: seq<Message>, b: seq<Message>)
    ensures Scan(Scan(u, a), b) == Scan(u, a + b)
    decreases |b|
  {
    if |b| == 0 {
      assert a + b == a;
    } else {
      var b' := b[..|b| - 1];
      ScanAppend(u, a, b');
      assert a + b == (a + b') + [b[|b| - 1]];
      ScanSnoc(u, a + b', b[|b| - 1]);
    }
  }

  /**
   The counting characterisation of a scan: the top-level keys stay those of `u`, stored
   counts stay at least one, and every cell grows by the number of messages that are usages
   of its code on its day.
   */
  lemma {:induction false} ScanCounts(u: Usage, msgs: seq<Message>)
    requires Positive(u)
    ensures Scan(u, msgs).Keys == u.Keys
    ensures Positive(Scan(u, msgs))
    ensures forall c, d :: c in u ==> Get(Scan(u, msgs)[c], d) == Get(u[c], d) + Count(msgs, c, d)
    decreases |msgs|
  {
    if |msgs| > 0 {
      ScanCounts(u, msgs[..|msgs| - 1]);
      ObserveCounts(Scan(u, msgs[..|msgs| - 1]), msgs[|msgs| - 1]);
    }
  }

  /** After a scan a day is stored for a code exactly when it was stored before or the run holds a usage of that code on that day. */
  lemma ScanDays(u: Usage, msgs: seq<Message>, c: Code, d: Date)
    requires Positive(u) && c in u
    ensures d in Scan(u, msgs)[c] <==> d in u[c] || Count(msgs, c, d) > 0
    ensures d in Scan(u, msgs)[c] ==> Scan(u, msgs)[c][d] == Get(u[c], d) + Count(msgs, c, d)
  {
    ScanCounts(u, msgs);
  }

  /** Two accumulators with positive counts and the same keys are equal when all their cells agree. */
  lemma PositiveExtensionality(u: Usage, v: Usage)
    requires Positive(u) && Positive(v) && u.Keys == v.Keys
    requires forall c, d :: c in u ==> Get(u[c], d) == Get(v[c], d)
    ensures u == v
  {
    forall c | c in u
      ensures u[c] == v[c]
    {
      forall d
        ensures d in u[c] <==> d in v[c]
        ensures d in u[c] ==> u[c][d] == v[c][d]
      {
        assert Get(u[c], d) == Get(v[c], d);
      }
      assert u[c].Keys == v[c].Keys;
    }
  }

  /** The accumulator after a scan does not depend on the order the messages arrived in. */
  lemma ScanOrderIndependent(u: Usage, a: seq<Message>, b: seq<Message>)
    requires Positive(u)
    requires multiset(a) == multiset(b)
    ensures Scan(u, a) == Scan(u, b)
  {
    ScanCounts(u, a);
    ScanCounts(u, b);
    forall c, d | c in u
      ensures Get(Scan(u, a)[c], d) == Get(Scan(u, b)[c], d)
    {
      CountIfPermutation(a, b, m => Hits(m, c, d));
    }
    PositiveExtensionality(Scan(u, a), Scan(u, b));
  }

  /** Reading the same history twice counts every usage twice: the scan is not idempotent. */
  lemma RescanDoubles(registry: set<Code>, msgs: seq<Message>, c: Code, d: Date)
    requires c in registry
    ensures Get(Scan(Init(registry), msgs + msgs)[c], d) == 2 * Get(Scan(Init(registry), msgs)[c], d)
  {
    ScanCounts(Init(registry), msgs + msgs);
    ScanCounts(Init(registry), msgs);
    CountIfAppend(msgs, msgs, m => Hits(m, c, d));
  }
}
