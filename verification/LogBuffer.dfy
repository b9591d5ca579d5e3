/** The bounded, sequence-numbered log buffer of logsink.go. */
module LogBuffer {
  import opened Wrappers

  type Line = seq<byte>

  const LOG_BUFFER_MAX: nat := 50 * 1024 * 1024

  const CR: byte := 13
  const LF: byte := 10

  // ----- the buffer as a window on everything ever written -----

  /** Sequence numbers index `history`. The buffer holds the lines from `first` on; `cleared`
      is where the last Clear cut, `gen` counts the clears. */
  datatype Sink = Sink(history: seq<Line>, cleared: nat, first: nat, gen: nat) {
    function Next(): nat {
      |history|
    }

    function Retained(): seq<Line>
      requires first <= |history|
    {
      history[first..]
    }
  }

  function TotalLength(lines: seq<Line>): nat {
    if lines == [] then 0 else |lines[0]| + TotalLength(lines[1..])
  }

  lemma {:induction false} TotalLengthAppend(lines: seq<Line>, line: Line)
    ensures TotalLength(lines + [line]) == TotalLength(lines) + |line|
  {
    if lines == [] {
      assert [line][1..] == [];
    } else {
      TotalLengthAppend(lines[1..], line);
      assert (lines + [line])[1..] == lines[1..] + [line];
    }
  }

  /** The retained lines are the longest suffix, of what was written since the last clear, that
      fits the bound; or the last line alone where even that one does not fit. */
  ghost predicate Canonical(s: Sink) {
    && s.cleared <= s.first <= |s.history|
    && (s.gen == 0 ==> s.cleared == 0)
    && (s.cleared < |s.history| ==> s.first < |s.history|)
    && (TotalLength(s.history[s.first..]) <= LOG_BUFFER_MAX || s.first + 1 == |s.history|)
    && forall j :: s.cleared <= j < s.first ==> TotalLength(s.history[j..]) > LOG_BUFFER_MAX
  }

  /** No longer suffix than the retained one fits. */
  lemma RetainsLongest(s: Sink, j: nat)
    requires Canonical(s) && s.cleared <= j <= |s.history|
    requires TotalLength(s.history[j..]) <= LOG_BUFFER_MAX || j + 1 == |s.history|
    ensures s.first <= j
  {
  }

  /** The bound in bytes: what is kept fits 50 MB or is one line, and one line more would not fit. */
  lemma KeepsFiftyMegabytes(s: Sink)
    requires Canonical(s)
    ensures TotalLength(s.history[s.first..]) <= 52_428_800 || s.first + 1 == |s.history|
    ensures s.cleared < s.first ==> TotalLength(s.history[s.first - 1..]) > 52_428_800
  {
  }

  /** Nothing is left to choice: what was written since the last clear fixes what is kept. */
  lemma CanonicalIsUnique(s: Sink, t: Sink)
    requires Canonical(s) && Canonical(t)
    requires s.history == t.history && s.cleared == t.cleared
    ensures s.first == t.first
  {
    RetainsLongest(s, t.first);
    RetainsLongest(t, s.first);
  }

  /** Where eviction stops. */
  function Evict(history: seq<Line>, first: nat): (kept: nat)
    requires first < |history|
    ensures first <= kept < |history|
    decreases |history| - first
  {
    if TotalLength(history[first..]) > LOG_BUFFER_MAX && first + 1 < |history| then Evict(history, first + 1) else first
  }

  function Written(s: Sink, line: Line): Sink
    requires s.first <= |s.history|
  {
    var history := s.history + [line];
    s.(history := history, first := Evict(history, s.first))
  }

  function Cleared(s: Sink): Sink {
    Sink(s.history, |s.history|, |s.history|, s.gen + 1)
  }

  lemma {:induction false} EvictIsCanonical(s: Sink)
    requires s.cleared <= s.first < |s.history| && (s.gen == 0 ==> s.cleared == 0)
    requires forall j :: s.cleared <= j < s.first ==> TotalLength(s.history[j..]) > LOG_BUFFER_MAX
    ensures Canonical(s.(first := Evict(s.history, s.first)))
    decreases |s.history| - s.first
  {
    hide TotalLength;
    if TotalLength(s.history[s.first..]) > LOG_BUFFER_MAX && s.first + 1 < |s.history| {
      EvictIsCanonical(s.(first := s.first + 1));
    }
  }

  lemma WrittenIsCanonical(s: Sink, line: Line)
    requires Canonical(s)
    ensures Canonical(Written(s, line))
  {
    var t := s.(history := s.history + [line]);
    forall j | s.cleared <= j < s.first
      ensures TotalLength(t.history[j..]) > LOG_BUFFER_MAX
    {
      TotalLengthAppend(s.history[j..], line);
      assert t.history[j..] == s.history[j..] + [line];
    }
    EvictIsCanonical(t);
  }

  lemma CanonicalBounds(s: Sink)
    requires Canonical(s)
    ensures s.cleared <= s.first <= |s.history|
  {
  }

  /** Where Since starts reading: clamped into the window. */
  function ClampSeq(s: Sink, from: nat): nat
    requires s.first <= |s.history|
  {
    var lo := if from < s.first then s.first else from;
    if lo > |s.history| then |s.history| else lo
  }

  /** Chaining Since calls: passing back the cursor of one call at s to a later call at t, with
      no clear in between, yields the history without gap or repeat exactly if eviction has
      not overtaken the cursor. */
  lemma ChainedSince(s: Sink, t: Sink, from: nat)
    requires s.first <= |s.history| && t.first <= |t.history|
    requires s.history <= t.history
    ensures var start := ClampSeq(s, from);
      var got := s.history[start..] + t.history[ClampSeq(t, s.Next())..];
      got == t.history[start..] <==> t.first <= s.Next()
  {
    var start := ClampSeq(s, from);
    var again := ClampSeq(t, s.Next());
    assert s.history[start..] == t.history[start..|s.history|];
    if t.first <= s.Next() {
      assert t.history[start..] == t.history[start..|s.history|] + t.history[|s.history|..];
    } else {
      assert |s.history[start..] + t.history[again..]| < |t.history[start..]|;
    }
  }

  // ----- trimming -----

  /** bytes.TrimRight(p, "\r\n"). */
  function TrimRight(p: seq<byte>): (line: Line)
    ensures line <= p
    ensures line != [] ==> line[|line| - 1] != 13 && line[|line| - 1] != 10
    ensures forall i :: |line| <= i < |p| ==> p[i] == 13 || p[i] == 10
  {
    if p != [] && (p[|p| - 1] == CR || p[|p| - 1] == LF) then TrimRight(p[..|p| - 1]) else p
  }

  // ----- the object -----

  class LogSink {
    // The window history[first..next] and its length in bytes; gen tells viewers of clears.
    var lines: seq<Line>
    var bytes: nat
    var first: nat
    var next: nat
    var gen: nat

    ghost var history: seq<Line>
    ghost var cleared: nat

    ghost function State(): Sink
      reads this
    {
      Sink(history, cleared, first, gen)
    }

    ghost predicate Valid()
      reads this
    {
      && Canonical(State())
      && next == |history|
      && lines == history[first..]
      && bytes == TotalLength(lines)
    }

    constructor ()
      ensures Valid() && State() == Sink([], 0, 0, 0)
    {
      lines, bytes, first, next, gen := [], 0, 0, 0, 0;
      history, cleared := [], 0;
    }

    /** Write's locked part; the copies to stderr and the log file happen outside the lock. */
    method Write(p: seq<byte>)
      requires Valid()
      modifies this
      ensures Valid() && State() == Written(old(State()), TrimRight(p))
    {
      hide TrimRight, Canonical, Evict;
      var line := TrimRight(p);
      WrittenIsCanonical(State(), line);
      CanonicalBounds(State());
      TotalLengthAppend(lines, line);
      lines := lines + [line];
      bytes := bytes + |line|;
      next := next + 1;
      history := history + [line];
      EvictOldest();
    }

    /** The loop at the end of Write. */
    method EvictOldest()
      requires first < next == |history| && lines == history[first..] && bytes == TotalLength(lines)
      modifies this`bytes, this`lines, this`first
      ensures first == Evict(history, old(first))
      ensures lines == history[first..] && bytes == TotalLength(lines)
    {
      while bytes > LOG_BUFFER_MAX && |lines| > 1
        invariant first < next
        invariant lines == history[first..] && bytes == TotalLength(lines)
        invariant Evict(history, first) == Evict(history, old(first))
        decreases |lines|
      {
        assert history[first..][1..] == history[first + 1..];
        bytes := bytes - |lines[0]|;
        lines := lines[1..];
        first := first + 1;
      }
    }

    /** The last n lines, each with a newline; n is never negative at its callers. */
    method Lines(n: nat) returns (out: seq<Line>)
      requires Valid()
      ensures |out| == if n < |State().Retained()| then n else |State().Retained()|
      ensures forall i :: 0 <= i < |out| ==> out[i] == history[next - |out| + i] + [10]
    {
      var k := if n > |lines| then |lines| else n;
      out := [];
      for i := 0 to k
        invariant |out| == i
        invariant forall j :: 0 <= j < i ==> out[j] == lines[|lines| - k + j] + [LF]
      {
        out := out + [lines[|lines| - k + i] + [LF]];
      }
    }

    method Since(seq_: nat) returns (out: seq<Line>, nextSeq: nat, generation: nat)
      requires Valid()
      ensures out == history[ClampSeq(State(), seq_)..]
      ensures nextSeq == State().Next() && generation == gen
    {
      var from := seq_;
      if from < first {
        from := first;
      }
      if from > next {
        from := next;
      }
      out := lines[from - first..];
      nextSeq, generation := next, gen;
    }

    method Clear()
      requires Valid()
      modifies this
      ensures Valid() && State() == Cleared(old(State()))
    {
      lines := [];
      bytes := 0;
      first := next;
      gen := gen + 1;
      cleared := next;
    }

    method Stats() returns (lineCount: nat, byteCount: nat)
      requires Valid()
      ensures lineCount == |State().Retained()| && byteCount == TotalLength(State().Retained())
    {
      lineCount, byteCount := |lines|, bytes;
    }
  }
}
