/** The log window of ui_logs.go: a replica of the log buffer kept through a cursor, and a
    selection of its rows. */
module LogView {
  import opened Wrappers
  import opened LogBuffer

  // ----- the replica -----

  /** `ids` are the sequence numbers of the rows shown, `next` the cursor, `gen` the generation
      last seen. */
  datatype Replica = Replica(ids: seq<nat>, next: nat, gen: nat)

  function Range(lo: nat, hi: nat): (r: seq<nat>)
    ensures |r| == if lo <= hi then hi - lo else 0
    ensures forall i :: 0 <= i < |r| ==> r[i] == lo + i
  {
    if lo <= hi then seq(hi - lo, i requires 0 <= i => lo + i) else []
  }

  function WindowSize(s: Sink): nat
    requires s.first <= |s.history|
  {
    |s.history| - s.first
  }

  /** The lines Since(r.next) returns. */
  function NewRows(r: Replica, s: Sink): seq<nat>
    requires s.first <= |s.history|
  {
    Range(ClampSeq(s, r.next), s.Next())
  }

  /** A changed generation drops the old rows. */
  function JoinedRows(r: Replica, s: Sink): seq<nat>
    requires s.first <= |s.history|
  {
    (if s.gen != r.gen then [] else r.ids) + NewRows(r, s)
  }

  predicate Changed(r: Replica, s: Sink)
    requires s.first <= |s.history|
  {
    s.gen != r.gen || NewRows(r, s) != []
  }

  function LastRows(ids: seq<nat>, n: nat): seq<nat> {
    if |ids| > n then ids[|ids| - n..] else ids
  }

  /** pull: Since reads the buffer as `seen`, Stats reads it as `later`. */
  function Pulled(r: Replica, seen: Sink, later: Sink): Replica
    requires seen.first <= |seen.history| && later.first <= |later.history|
  {
    var ids := JoinedRows(r, seen);
    Replica(if Changed(r, seen) then LastRows(ids, WindowSize(later)) else ids, seen.Next(), seen.gen)
  }

  ghost predicate Increasing(ids: seq<nat>) {
    forall i, j :: 0 <= i < j < |ids| ==> ids[i] < ids[j]
  }

  /** The last rows are exactly the lines lo up to hi. */
  ghost predicate EndsWith(ids: seq<nat>, lo: nat, hi: nat) {
    lo < hi ==> hi - lo <= |ids| && forall i :: |ids| - (hi - lo) <= i < |ids| ==> ids[i] == hi - (|ids| - i)
  }

  /** Whatever was evicted or cleared: in the same generation the rows end with every line that
      is still buffered below the cursor, and they are exactly the buffer when the cursor has
      caught up; in an older generation nothing below the cursor is still buffered. */
  ghost predicate Synced(r: Replica, s: Sink) {
    && r.next <= |s.history| && r.gen <= s.gen
    && Increasing(r.ids) && (forall i :: 0 <= i < |r.ids| ==> r.ids[i] < r.next)
    && (if r.gen == s.gen then
          && s.cleared <= r.next
          && EndsWith(r.ids, s.first, r.next)
          && (r.next == |s.history| ==> r.ids == Range(s.first, |s.history|))
        else
          r.next <= s.first)
  }

  /** A window may be opened at any time. */
  lemma OpenedLate(s: Sink)
    requires Canonical(s)
    ensures Synced(Replica([], 0, 0), s)
  {
  }

  lemma WriteKeepsSynced(r: Replica, s: Sink, line: Line)
    requires Canonical(s) && Synced(r, s)
    ensures Synced(r, Written(s, line))
  {
    WrittenIsCanonical(s, line);
  }

  lemma ClearKeepsSynced(r: Replica, s: Sink)
    requires Canonical(s) && Synced(r, s)
    ensures Synced(r, Cleared(s))
    ensures Synced(r.(ids := []), Cleared(s))
  {
  }

  function WrittenAll(s: Sink, lines: seq<Line>): (t: Sink)
    requires s.first <= |s.history|
    ensures t.first <= |t.history|
    decreases |lines|
  {
    if lines == [] then s else WrittenAll(Written(s, lines[0]), lines[1..])
  }

  lemma {:induction false} WrittenAllGrows(s: Sink, lines: seq<Line>)
    requires Canonical(s)
    ensures var t := WrittenAll(s, lines);
      && Canonical(t) && t.gen == s.gen && t.cleared == s.cleared && t.first >= s.first
      && t.history == s.history + lines
    decreases |lines|
  {
    hide Canonical, Evict;
    CanonicalBounds(s);
    if lines == [] {
      assert s.history + lines == s.history;
    } else {
      WrittenIsCanonical(s, lines[0]);
      CanonicalBounds(Written(s, lines[0]));
      WrittenAllGrows(Written(s, lines[0]), lines[1..]);
      assert s.history + [lines[0]] + lines[1..] == s.history + lines;
    }
  }

  lemma JoinedIds(r: Replica, s: Sink)
    requires Canonical(s) && Synced(r, s)
    ensures var ids := JoinedRows(r, s);
      && Increasing(ids) && EndsWith(ids, s.first, s.Next())
      && forall i :: 0 <= i < |ids| ==> ids[i] < s.Next()
  {
  }

  lemma TrimmedIds(ids: seq<nat>, n: nat, lo: nat, hi: nat)
    requires Increasing(ids) && EndsWith(ids, lo, hi) && n < |ids|
    requires lo < hi ==> hi - lo <= n
    ensures Increasing(ids[|ids| - n..]) && EndsWith(ids[|ids| - n..], lo, hi)
  {
  }

  lemma FullWindow(ids: seq<nat>, lo: nat, hi: nat)
    requires EndsWith(ids, lo, hi) && lo <= hi && |ids| <= hi - lo
    ensures ids == Range(lo, hi)
  {
  }

  /** With any number of writes between its two locked calls, a pull leaves the replica synced;
      with none, the rows are exactly the buffered lines, across eviction gaps and clears. */
  lemma PullSynced(r: Replica, s: Sink, between: seq<Line>)
    requires Canonical(s) && Synced(r, s)
    ensures var t := WrittenAll(s, between);
      Synced(Pulled(r, s, t), t) && Canonical(t)
    ensures Pulled(r, s, s).ids == Range(s.first, |s.history|)
  {
    WrittenAllGrows(s, between);
    WrittenAllGrows(s, []);
    PullAgainst(r, s, WrittenAll(s, between));
    PullAgainst(r, s, s);
  }

  lemma PullAgainst(r: Replica, s: Sink, t: Sink)
    requires Canonical(s) && Synced(r, s) && Canonical(t)
    requires t.gen == s.gen && t.cleared == s.cleared && t.first >= s.first && s.history <= t.history
    requires t.history == s.history ==> t.first == s.first
    ensures Synced(Pulled(r, s, t), t)
    ensures t == s ==> Pulled(r, s, t).ids == Range(s.first, |s.history|)
  {
    hide Canonical, Range, Increasing, EndsWith;
    CanonicalBounds(s);
    CanonicalBounds(t);
    CursorAfterClear(s);
    var ids := JoinedRows(r, s);
    JoinedIds(r, s);
    if Changed(r, s) {
      TrimTo(ids, s, t);
      KeptBelow(ids, s, t);
    } else {
      assert ids == r.ids;
      CaughtUp(r, s);
      SuffixOf(r.ids, s.first, t.first, s.Next());
    }
  }

  lemma CursorAfterClear(s: Sink)
    requires Canonical(s)
    ensures s.cleared <= |s.history|
  {
  }

  lemma KeptBelow(ids: seq<nat>, s: Sink, t: Sink)
    requires s.first <= |s.history| && t.first <= |t.history|
    requires forall i :: 0 <= i < |ids| ==> ids[i] < s.Next()
    ensures var kept := LastRows(ids, WindowSize(t));
      forall i :: 0 <= i < |kept| ==> kept[i] < s.Next()
  {
  }

  /** Nothing new in the same generation: the cursor has caught up. */
  lemma CaughtUp(r: Replica, s: Sink)
    requires Canonical(s) && Synced(r, s) && r.gen == s.gen
    requires NewRows(r, s) == []
    ensures r.next == |s.history| && r.ids == Range(s.first, |s.history|) && EndsWith(r.ids, s.first, s.Next())
  {
  }

  /** A pull reports a change exactly for a new generation or a cursor that moves. */
  lemma ChangedMeans(r: Replica, s: Sink)
    requires Canonical(s) && Synced(r, s)
    ensures s.first <= |s.history| && (Changed(r, s) <==> s.gen != r.gen || s.Next() != r.next)
  {
  }

  lemma SuffixOf(ids: seq<nat>, lo: nat, mid: nat, hi: nat)
    requires EndsWith(ids, lo, hi) && lo <= mid
    ensures EndsWith(ids, mid, hi)
  {
  }

  lemma TrimTo(ids: seq<nat>, s: Sink, t: Sink)
    requires s.first <= t.first <= |t.history| && |s.history| <= |t.history| && s.first <= |s.history|
    requires Increasing(ids) && EndsWith(ids, s.first, s.Next())
    ensures var kept := LastRows(ids, WindowSize(t));
      && Increasing(kept) && EndsWith(kept, t.first, s.Next())
      && (t.Next() == s.Next() && t.first == s.first ==> kept == Range(s.first, s.Next()))
  {
    var n := WindowSize(t);
    if |ids| > n {
      assert EndsWith(ids, t.first, s.Next());
      TrimmedIds(ids, n, t.first, s.Next());
    }
    if t.Next() == s.Next() && t.first == s.first {
      FullWindow(LastRows(ids, n), s.first, s.Next());
    }
  }

  // ----- all interleavings -----

  /** What can happen to a buffer and a window on it. The Clear button empties both. */
  datatype Event = Write(line: Line) | ClearElsewhere | ClearButton | Pull(between: seq<Line>) | Reopen

  datatype Pair = Pair(r: Replica, s: Sink)

  function Step(p: Pair, ev: Event): Pair
    requires p.s.first <= |p.s.history|
  {
    match ev
    case Write(line) => Pair(p.r, Written(p.s, line))
    case ClearElsewhere => Pair(p.r, Cleared(p.s))
    case ClearButton => Pair(p.r.(ids := []), Cleared(p.s))
    case Pull(between) => var t := WrittenAll(p.s, between); Pair(Pulled(p.r, p.s, t), t)
    case Reopen => Pair(Replica([], 0, 0), p.s)
  }

  lemma StepSynced(p: Pair, ev: Event)
    requires Canonical(p.s) && Synced(p.r, p.s)
    ensures Canonical(Step(p, ev).s) && Synced(Step(p, ev).r, Step(p, ev).s)
  {
    hide Canonical, Synced, Written, Pulled;
    CanonicalBounds(p.s);
    match ev
    case Write(line) =>
      WrittenIsCanonical(p.s, line);
      WriteKeepsSynced(p.r, p.s, line);
    case ClearElsewhere =>
      ClearedIsCanonical(p.s);
      ClearKeepsSynced(p.r, p.s);
    case ClearButton =>
      ClearedIsCanonical(p.s);
      ClearKeepsSynced(p.r, p.s);
    case Pull(between) =>
      PullSynced(p.r, p.s, between);
    case Reopen =>
      OpenedLate(p.s);
  }

  lemma ClearedIsCanonical(s: Sink)
    requires Canonical(s)
    ensures Canonical(Cleared(s))
  {
    assert s.history[|s.history|..] == [];
  }

  ghost predicate Reaches(p: Pair, events: seq<Event>, q: Pair)
    decreases |events|
  {
    if events == [] then p == q
    else p.s.first <= |p.s.history| && Reaches(Step(p, events[0]), events[1..], q)
  }

  /** Over every interleaving, from any synced window such as one just opened: the window stays
      synced, so no buffered line is ever skipped or shown twice; and an undisturbed pull makes it
      equal the buffer. */
  lemma {:induction false} WindowNeverWrong(p: Pair, events: seq<Event>, q: Pair)
    requires Canonical(p.s) && Synced(p.r, p.s) && Reaches(p, events, q)
    ensures Canonical(q.s) && Synced(q.r, q.s)
    ensures Pulled(q.r, q.s, q.s).ids == Range(q.s.first, |q.s.history|)
    decreases |events|
  {
    hide Canonical, Synced, Step, Pulled;
    CanonicalBounds(p.s);
    if events == [] {
      PullSynced(q.r, q.s, []);
    } else {
      StepSynced(p, events[0]);
      WindowNeverWrong(Step(p, events[0]), events[1..], q);
    }
    CanonicalBounds(q.s);
  }

  // ----- the selection -----

  const EOL: seq<byte> := [CR, LF]

  /** What the window shows and has selected. */
  datatype Screen = Screen(r: Replica, selected: set<int>, anchor: int, follow: bool)

  const OPENED := Screen(Replica([], 0, 0), {}, -1, true)

  function WithoutSelection(v: Screen): Screen {
    if v.selected == {} && v.anchor < 0 then v else v.(selected := {}, anchor := -1)
  }

  lemma SelectionApart(v: Screen, r: Replica)
    ensures WithoutSelection(v.(r := r)) == WithoutSelection(v).(r := r)
  {
  }

  function SelectedOne(v: Screen, index: int): Screen {
    v.(selected := {index}, anchor := index, follow := false)
  }

  function Toggled(v: Screen, index: int): Screen {
    if index in v.selected then v.(selected := v.selected - {index}, follow := false)
    else v.(selected := v.selected + {index}, anchor := index, follow := false)
  }

  predicate Exists(i: int, rows: nat) {
    i < rows
  }

  /** The existing ones of the rows from one to the other, whichever comes first. */
  function Between(a: int, b: int, rows: nat): (r: set<int>)
    ensures forall i :: i in r <==> (a <= i <= b || b <= i <= a) && i < rows
  {
    var lo, hi := if a <= b then a else b, if a <= b then b else a;
    set i: int | lo <= i <= hi && Exists(i, rows)
  }

  function SelectedRange(v: Screen, index: int): Screen {
    if v.anchor < 0 then SelectedOne(v, index)
    else v.(selected := Between(v.anchor, index, |v.r.ids|), follow := false)
  }

  function Followed(v: Screen, on: bool): Screen {
    (if on then WithoutSelection(v) else v).(follow := on)
  }

  /** The selection is dropped when the rows start anew, and when rows are trimmed. */
  function PulledScreen(v: Screen, seen: Sink, later: Sink): Screen
    requires seen.first <= |seen.history| && later.first <= |later.history|
  {
    var v1 := if seen.gen != v.r.gen then WithoutSelection(v) else v;
    var trims := Changed(v.r, seen) && |JoinedRows(v.r, seen)| > WindowSize(later);
    (if trims then WithoutSelection(v1) else v1).(r := Pulled(v.r, seen, later))
  }

  /** The two halves of a pull, as the program takes them. */
  lemma PulledByHalves(v: Screen, seen: Sink, later: Sink)
    requires seen.first <= |seen.history| && later.first <= |later.history|
    ensures PulledScreen(v, seen, later).r == Pulled(v.r, seen, later)
    ensures var n := WindowSize(later);
      var v1 := if seen.gen != v.r.gen then WithoutSelection(v) else v;
      var v2 := v1.(r := Replica(JoinedRows(v.r, seen), seen.Next(), seen.gen));
      PulledScreen(v, seen, later) == if !Changed(v.r, seen) then v2 else
        (if |v2.r.ids| > n then WithoutSelection(v2) else v2).(r := v2.r.(ids := LastRows(v2.r.ids, n)))
  {
    hide NewRows;
  }

  function ClearedScreen(v: Screen): Screen {
    WithoutSelection(v).(r := v.r.(ids := []))
  }

  /** What can happen to the buffer, and what the user can do. */
  datatype Action =
    | Buffer(ev: Event)
    | SelectOne(index: int)
    | ToggleSelect(index: int)
    | SelectRange(index: int)
    | SetFollow(on: bool)

  datatype Window = Window(v: Screen, s: Sink)

  function React(w: Window, a: Action): Window
    requires w.s.first <= |w.s.history|
  {
    match a
    case SelectOne(index) => w.(v := SelectedOne(w.v, index))
    case ToggleSelect(index) => w.(v := Toggled(w.v, index))
    case SelectRange(index) => w.(v := SelectedRange(w.v, index))
    case SetFollow(on) => w.(v := Followed(w.v, on))
    case Buffer(ev) =>
      match ev
      case Write(line) => w.(s := Written(w.s, line))
      case ClearElsewhere => w.(s := Cleared(w.s))
      case ClearButton => Window(ClearedScreen(w.v), Cleared(w.s))
      case Pull(between) => var t := WrittenAll(w.s, between); Window(PulledScreen(w.v, w.s, t), t)
      case Reopen => w.(v := OPENED)
  }

  /** The selection never influences what is shown. */
  lemma ReactFollowsStep(w: Window, ev: Event)
    requires w.s.first <= |w.s.history|
    ensures var q := React(w, Buffer(ev)); Pair(q.v.r, q.s) == Step(Pair(w.v.r, w.s), ev)
  {
    hide Written, Cleared, Pulled;
  }

  /** The row is selected, or the anchor of the next range. */
  predicate Marked(v: Screen, row: nat) {
    row in v.selected || v.anchor == row
  }

  lemma PullKeepsOrDrops(v: Screen, seen: Sink, later: Sink)
    requires seen.first <= |seen.history| && later.first <= |later.history|
    ensures var q := PulledScreen(v, seen, later); v.r.ids <= q.r.ids || (q.selected == {} && q.anchor < 0)
  {
    hide NewRows;
  }

  /** A pull keeps the selection, with every row where it was, or drops it as a whole; it drops it only
      when the rows start anew or the first one goes. */
  lemma PullDropsOnlyForRows(v: Screen, seen: Sink, later: Sink)
    requires Canonical(seen) && Synced(v.r, seen) && later.first <= |later.history|
    ensures seen.first <= |seen.history|
    ensures var q := PulledScreen(v, seen, later);
      || (q.selected == v.selected && q.anchor == v.anchor && v.r.ids <= q.r.ids)
      || (q.selected == {} && q.anchor < 0
          && (q.r.gen != v.r.gen || v.r.ids == [] || q.r.ids == [] || q.r.ids[0] > v.r.ids[0]))
  {
    hide NewRows, Canonical, Synced;
    CanonicalBounds(seen);
    JoinedIds(v.r, seen);
    hide EndsWith;
    var ids, n := JoinedRows(v.r, seen), WindowSize(later);
    if seen.gen == v.r.gen && v.r.ids != [] && 0 < n < |ids| {
      assert v.r.ids[0] == ids[0] < ids[|ids| - n] == LastRows(ids, n)[0];
    }
  }

  /** Each action keeps every row where it is, or drops the whole selection and the anchor. */
  lemma ReactKeepsOrDrops(w: Window, a: Action)
    requires Canonical(w.s) && Synced(w.v.r, w.s)
    ensures w.s.first <= |w.s.history|
    ensures var q := React(w, a);
      && Canonical(q.s) && Synced(q.v.r, q.s) && w.s.history <= q.s.history
      && (w.v.r.ids <= q.v.r.ids || (q.v.selected == {} && q.v.anchor < 0))
  {
    hide Canonical, Synced, Evict, PulledScreen, Pulled, WrittenAll, Step, Between;
    CanonicalBounds(w.s);
    if a.Buffer? {
      StepSynced(Pair(w.v.r, w.s), a.ev);
      ReactFollowsStep(w, a.ev);
      if a.ev.Pull? {
        var t := WrittenAll(w.s, a.ev.between);
        WrittenAllGrows(w.s, a.ev.between);
        PullKeepsOrDrops(w.v, w.s, t);
      }
    }
  }

  /** The actions lead from w to q, and the row is marked all the way. */
  ghost predicate StaysMarked(w: Window, actions: seq<Action>, row: nat, q: Window)
    decreases |actions|
  {
    && Marked(w.v, row)
    && if actions == [] then w == q
       else w.s.first <= |w.s.history| && StaysMarked(React(w, actions[0]), actions[1..], row, q)
  }

  ghost predicate ShowsLine(w: Window, row: nat, id: nat, line: Line) {
    row < |w.v.r.ids| && w.v.r.ids[row] == id && id < |w.s.history| && w.s.history[id] == line
  }

  /** Selection stability over all interleavings of writes, clears, pulls, follow changes and
      selections: a row that was there when it was selected, or became the anchor, shows the same log
      line until it is dropped. */
  lemma {:induction false} MarkedRowStays(w: Window, actions: seq<Action>, row: nat, id: nat, line: Line, q: Window)
    requires Canonical(w.s) && Synced(w.v.r, w.s)
    requires StaysMarked(w, actions, row, q) && ShowsLine(w, row, id, line)
    ensures Canonical(q.s) && Synced(q.v.r, q.s) && ShowsLine(q, row, id, line)
    decreases |actions|
  {
    hide Canonical, Synced, React;
    if actions != [] {
      ReactKeepsOrDrops(w, actions[0]);
      MarkedRowStays(React(w, actions[0]), actions[1..], row, id, line, q);
    }
  }

  /** Every row there is shows a line, so the theorem applies to each row that is picked. */
  lemma RowsShowLines(w: Window, row: nat)
    requires Synced(w.v.r, w.s) && row < |w.v.r.ids|
    ensures w.v.r.ids[row] < |w.s.history| && ShowsLine(w, row, w.v.r.ids[row], w.s.history[w.v.r.ids[row]])
  {
  }

  /** The selected ones of the first k rows, in order, each with a line ending. */
  function CopiedText(lines: seq<Line>, selected: set<int>, k: nat): seq<byte>
    requires k <= |lines|
  {
    if k == 0 then [] else
    CopiedText(lines, selected, k - 1) + (if k - 1 in selected then lines[k - 1] + EOL else [])
  }

  /** The given rows, each with a carriage return and a line feed. */
  function JoinRows(lines: seq<Line>, rows: seq<nat>): seq<byte>
    requires forall i :: 0 <= i < |rows| ==> rows[i] < |lines|
  {
    if rows == [] then [] else JoinRows(lines, rows[..|rows| - 1]) + (lines[rows[|rows| - 1]] + [13, 10])
  }

  /** Copying emits exactly the selected rows that exist, in ascending order. */
  lemma {:induction false} CopyEmitsRowsInOrder(lines: seq<Line>, selected: set<int>, k: nat, rows: seq<nat>)
    requires k <= |lines| && Increasing(rows)
    requires forall row: nat :: row in rows <==> row < k && row in selected
    ensures forall i :: 0 <= i < |rows| ==> rows[i] < |lines|
    ensures CopiedText(lines, selected, k) == JoinRows(lines, rows)
  {
    RowsBelow(rows, k);
    if k > 0 {
      if k - 1 in selected {
        LastRow(rows, k);
        var front := rows[..|rows| - 1];
        assert rows == front + [k - 1];
        CopyEmitsRowsInOrder(lines, selected, k - 1, front);
      } else {
        CopyEmitsRowsInOrder(lines, selected, k - 1, rows);
      }
    }
  }

  lemma RowsBelow(rows: seq<nat>, k: nat)
    requires forall row: nat :: row in rows ==> row < k
    ensures forall i :: 0 <= i < |rows| ==> rows[i] < k
    ensures k == 0 ==> rows == []
  {
    assert forall i :: 0 <= i < |rows| ==> rows[i] in rows;
    if rows != [] {
      assert rows[0] in rows;
    }
  }

  lemma LastRow(rows: seq<nat>, k: nat)
    requires k > 0 && Increasing(rows) && k - 1 in rows
    requires forall i :: 0 <= i < |rows| ==> rows[i] < k
    ensures rows[|rows| - 1] == k - 1
    ensures Increasing(rows[..|rows| - 1])
    ensures forall row: nat :: row in rows[..|rows| - 1] <==> row in rows && row < k - 1
  {
    var i :| 0 <= i < |rows| && rows[i] == k - 1;
    assert rows == rows[..|rows| - 1] + [rows[|rows| - 1]];
  }

  // ----- the object -----

  /** Each row shows the log line its sequence number names. */
  ghost predicate RowsShow(lines: seq<Line>, ids: seq<nat>, history: seq<Line>) {
    |lines| == |ids| && forall i :: 0 <= i < |ids| ==> ids[i] < |history| && lines[i] == history[ids[i]]
  }

  lemma PullFacts(r: Replica, s: Sink, between: seq<Line>)
    requires Canonical(s) && Synced(r, s)
    ensures s.first <= |s.history| && Increasing(JoinedRows(r, s))
    ensures var t := WrittenAll(s, between);
      && Canonical(t) && t.first <= |t.history| && s.history <= t.history && Synced(Pulled(r, s, t), t)
  {
    hide Canonical, Synced, Increasing, WrittenAll, Pulled;
    CanonicalBounds(s);
    WrittenAllGrows(s, between);
    CanonicalBounds(WrittenAll(s, between));
    PullSynced(r, s, between);
    JoinedIds(r, s);
  }

  lemma RowsShowMore(lines: seq<Line>, ids: seq<nat>, history: seq<Line>, start: nat)
    requires RowsShow(lines, ids, history) && start <= |history|
    ensures RowsShow(lines + history[start..], ids + Range(start, |history|), history)
  {
  }

  lemma RowsShowLast(lines: seq<Line>, ids: seq<nat>, history: seq<Line>, n: nat)
    requires RowsShow(lines, ids, history) && n <= |ids|
    ensures RowsShow(lines[|lines| - n..], ids[|ids| - n..], history)
  {
  }

  lemma RowsShowLater(lines: seq<Line>, ids: seq<nat>, history: seq<Line>, later: seq<Line>)
    requires RowsShow(lines, ids, history) && history <= later
    ensures RowsShow(lines, ids, later)
  {
  }

  class LogViewer {
    const sink: LogSink
    var lines: seq<Line>
    var next: nat
    var gen: nat
    var selected: set<int>
    var anchor: int
    var follow: bool

    ghost var ids: seq<nat> // the sequence numbers of lines

    ghost function State(): Replica
      reads this
    {
      Replica(ids, next, gen)
    }

    ghost function Now(): Screen
      reads this
    {
      Screen(State(), selected, anchor, follow)
    }

    /** The rows are lines of the log, and the replica is synced. */
    ghost predicate Valid()
      reads this, sink
    {
      sink.Valid() && Synced(State(), sink.State()) && RowsShow(lines, ids, sink.history)
    }

    constructor (sink: LogSink)
      requires sink.Valid()
      ensures Valid() && this.sink == sink && Now() == OPENED
    {
      this.sink := sink;
      lines, next, gen, selected, anchor, follow := [], 0, 0, {}, -1, true;
      ids := [];
      new;
      OpenedLate(sink.State());
    }

    /** What other goroutines log while the window does nothing, or between the two calls of a pull. */
    method OthersWrite(between: seq<seq<byte>>)
      requires Valid()
      modifies sink
      ensures Valid() && sink.State() == WrittenAll(old(sink.State()), TrimAll(between))
    {
      hide Canonical, TrimRight, Synced, RowsShow;
      var i := 0;
      CanonicalBounds(sink.State());
      while i < |between|
        invariant 0 <= i <= |between|
        invariant Valid() && sink.first <= |sink.history|
        invariant WrittenAll(sink.State(), TrimAll(between)[i..]) == WrittenAll(old(sink.State()), TrimAll(between))
      {
        ghost var s := sink.State();
        CanonicalBounds(s);
        assert TrimAll(between)[i..][1..] == TrimAll(between)[i + 1..];
        sink.Write(between[i]);
        CanonicalBounds(sink.State());
        WriteKeepsSynced(State(), s, TrimRight(between[i]));
        RowsShowLater(lines, ids, s.history, sink.history);
        i := i + 1;
      }
    }

    /** Another goroutine clears the buffer. */
    method OthersClear()
      requires Valid()
      modifies sink
      ensures Valid() && sink.State() == Cleared(old(sink.State()))
    {
      ClearKeepsSynced(State(), sink.State());
      sink.Clear();
    }

    /** clearSelection. */
    method ClearSelection()
      modifies this`selected, this`anchor
      ensures Now() == WithoutSelection(old(Now())) && selected == {} && anchor < 0
    {
      if selected == {} && anchor < 0 {
        return;
      }
      selected, anchor := {}, -1;
    }

    /** pull: rows, cursor and selection move on as PulledScreen says, whatever is logged in between;
        with nothing logged in between, the rows are exactly the buffered lines. */
    method Pull(between: seq<seq<byte>>) returns (changed: bool)
      requires Valid()
      modifies this, sink
      ensures Valid()
      ensures sink.State() == WrittenAll(old(sink.State()), TrimAll(between))
      ensures Now() == PulledScreen(old(Now()), old(sink.State()), sink.State())
      ensures changed <==> gen != old(gen) || next != old(next)
      ensures between == [] ==> lines == sink.lines
    {
      hide Canonical, Synced, TrimAll, WrittenAll, Increasing, RowsShow, JoinedRows, NewRows, LastRows,
        WithoutSelection, PulledScreen, Pulled, Changed, Range;
      ghost var seen, r, before := sink.State(), State(), Now();
      PullFacts(r, seen, TrimAll(between));
      ChangedMeans(r, seen);
      var got, nextSeq, generation := sink.Since(next);
      OthersWrite(between);
      changed := Merge(got, generation, r, seen);
      next := nextSeq;
      PulledByHalves(before, seen, sink.State());
      if changed {
        BoundRows(seen.history);
      }
      RowsShowLater(lines, ids, seen.history, sink.history);
      if between == [] {
        NothingWritten(seen, TrimAll(between));
        PullSynced(r, seen, []);
        RowsAreLines(lines, ids, sink.history, sink.first);
      }
    }

    /** The first half of pull: start anew after a clear, then add what is new. */
    method Merge(got: seq<Line>, generation: nat, ghost r: Replica, ghost seen: Sink) returns (changed: bool)
      requires r == State() && generation == seen.gen && seen.first <= |seen.history|
      requires got == seen.history[ClampSeq(seen, next)..]
      requires RowsShow(lines, ids, seen.history)
      modifies this`lines, this`ids, this`gen, this`selected, this`anchor
      ensures changed == Changed(r, seen) && RowsShow(lines, ids, seen.history)
      ensures var v := if generation != old(gen) then WithoutSelection(old(Now())) else old(Now());
        Now() == v.(r := r.(ids := JoinedRows(r, seen), gen := generation))
    {
      changed := false;
      if generation != gen {
        gen := generation;
        lines, ids := [], [];
        ClearSelection();
        changed := true;
      }
      RowsShowMore(lines, ids, seen.history, ClampSeq(seen, next));
      assert lines + [] == lines;
      ids := ids + NewRows(r, seen);
      if |got| > 0 {
        lines := lines + got;
        changed := true;
      }
    }

    /** The second half of pull: keep no more rows than the buffer now has lines. */
    method BoundRows(ghost history: seq<Line>)
      requires sink.Valid() && RowsShow(lines, ids, history)
      modifies this`lines, this`ids, this`selected, this`anchor
      ensures RowsShow(lines, ids, history) && sink.State().first <= |sink.State().history|
      ensures var n := WindowSize(sink.State());
        var v := if |old(ids)| > n then WithoutSelection(old(Now())) else old(Now());
        Now() == v.(r := old(State()).(ids := LastRows(old(ids), n)))
    {
      hide RowsShow, Canonical, TotalLength, WithoutSelection;
      RowsShowCount(lines, ids, history);
      CanonicalBounds(sink.State());
      var n, _ := sink.Stats();
      if |lines| > n {
        RowsShowLast(lines, ids, history, n);
        lines, ids := lines[|lines| - n..], ids[|ids| - n..];
        SelectionApart(old(Now()), State());
        ClearSelection();
      }
    }

    /** The Clear button. */
    method ClearButton()
      requires Valid()
      modifies this, sink
      ensures Valid()
      ensures sink.State() == Cleared(old(sink.State()))
      ensures Now() == ClearedScreen(old(Now()))
      ensures lines == [] && selected == {} && anchor < 0
      ensures next == old(next) && gen == old(gen) && follow == old(follow)
    {
      ClearKeepsSynced(State(), sink.State());
      sink.Clear();
      lines, ids := [], [];
      ClearSelection();
    }

    /** selectOne: the only selected row, and the new anchor. */
    method SelectOne(index: int)
      requires Valid()
      modifies this`selected, this`anchor, this`follow
      ensures Valid() && Now() == SelectedOne(old(Now()), index)
      ensures (forall i :: i in selected <==> i == index) && anchor == index && !follow
    {
      hide Synced, RowsShow, Canonical;
      follow := false;
      selected, anchor := {index}, index;
    }

    /** toggleSelect: removing a row leaves the anchor where it is. */
    method ToggleSelect(index: int)
      requires Valid()
      modifies this`selected, this`anchor, this`follow
      ensures Valid() && Now() == Toggled(old(Now()), index)
      ensures forall i :: i in selected <==> if i == index then index !in old(selected) else i in old(selected)
      ensures anchor == (if index in old(selected) then old(anchor) else index) && !follow
    {
      hide Synced, RowsShow, Canonical;
      follow := false;
      if index in selected {
        selected := selected - {index};
      } else {
        selected := selected + {index};
        anchor := index;
      }
    }

    /** selectRange: exactly the existing rows between the anchor and index, both included. */
    method SelectRange(index: int)
      requires Valid()
      modifies this`selected, this`anchor, this`follow
      ensures Valid() && Now() == SelectedRange(old(Now()), index) && !follow
      ensures old(anchor) >= 0 ==> anchor == old(anchor)
      ensures old(anchor) >= 0 ==>
        forall i :: i in selected <==> (old(anchor) <= i <= index || index <= i <= old(anchor)) && i < |lines|
      ensures old(anchor) < 0 ==> anchor == index && selected == {index}
    {
      hide Synced, Canonical, RowsShow;
      RowsShowCount(lines, ids, sink.history);
      if anchor < 0 {
        SelectOne(index);
        return;
      }
      follow := false;
      var lo, hi := anchor, index;
      if lo > hi {
        lo, hi := hi, lo;
      }
      selected := {};
      var i := lo;
      while i <= hi && i < |lines|
        modifies this`selected
        invariant lo <= i <= hi + 1
        invariant forall k :: k in selected <==> lo <= k < i && k < |lines|
        decreases hi - i
      {
        selected := selected + {i};
        i := i + 1;
      }
    }

    /** The Follow box: checking it drops the selection, unchecking it does not. */
    method SetFollow(on: bool)
      requires Valid()
      modifies this`selected, this`anchor, this`follow
      ensures Valid() && Now() == Followed(old(Now()), on) && follow == on
      ensures if on then selected == {} && anchor < 0 else selected == old(selected) && anchor == old(anchor)
    {
      hide Synced, RowsShow, Canonical;
      follow := on;
      if on {
        ClearSelection();
      }
    }

    /** copySelection: nothing happens to the clipboard without a selection. */
    method CopySelection() returns (clipboard: Option<seq<byte>>)
      ensures clipboard == if selected == {} then None else Some(CopiedText(lines, selected, |lines|))
    {
      if selected == {} {
        return None;
      }
      var b: seq<byte> := [];
      for i := 0 to |lines|
        invariant b == CopiedText(lines, selected, i)
      {
        if i in selected {
          b := b + lines[i];
          b := b + EOL;
          assert b == CopiedText(lines, selected, i) + (lines[i] + EOL);
        }
      }
      clipboard := Some(b);
    }
  }

  lemma RowsShowCount(lines: seq<Line>, ids: seq<nat>, history: seq<Line>)
    requires RowsShow(lines, ids, history)
    ensures |lines| == |ids|
  {
  }

  lemma NothingWritten(s: Sink, lines: seq<Line>)
    requires lines == [] && s.first <= |s.history|
    ensures WrittenAll(s, lines) == s
  {
  }

  lemma RowsAreLines(lines: seq<Line>, ids: seq<nat>, history: seq<Line>, first: nat)
    requires RowsShow(lines, ids, history) && first <= |history| && ids == Range(first, |history|)
    ensures lines == history[first..]
  {
  }

  function TrimAll(ps: seq<seq<byte>>): (lines: seq<Line>)
    ensures |lines| == |ps|
    ensures forall i :: 0 <= i < |ps| ==> lines[i] == TrimRight(ps[i])
  {
    seq(|ps|, i requires 0 <= i < |ps| => TrimRight(ps[i]))
  }
}
