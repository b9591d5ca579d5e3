/** writeFileAtomic of profiles.go on a disk that may lose what was not synced. */
module AtomicFile {
  import opened Wrappers

  /** A file's bytes, and whether they have reached the disk. */
  datatype File = File(bytes: seq<byte>, synced: bool)

  /** The two names involved, and the file each stands for. */
  datatype Dir = Dir(target: Option<nat>, tmp: Option<nat>)

  /** `views` are the directory states a power cut may fall back to, the current one last:
      nothing in the program flushes the directory. File numbers from `unused` on are free. */
  datatype Disk = Disk(files: map<nat, File>, views: seq<Dir>, unused: nat)

  ghost predicate ViewOk(d: Disk, v: Dir) {
    && (v.target.Some? ==> v.target.value in d.files && v.target.value < d.unused && d.files[v.target.value].synced)
    && (v.tmp.Some? ==> v.tmp.value in d.files && v.tmp.value < d.unused && v.target != v.tmp)
  }

  /** Every file the target name ever stood for is synced, and none is still being written. */
  ghost predicate Valid(d: Disk) {
    && d.views != []
    && (forall i :: 0 <= i < |d.views| ==> ViewOk(d, d.views[i]))
    && (Now(d).tmp.Some? ==> forall i :: 0 <= i < |d.views| ==> d.views[i].target != Now(d).tmp)
  }

  function Now(d: Disk): Dir
    requires d.views != []
  {
    d.views[|d.views| - 1]
  }

  /** What a program reading the target sees. */
  function Contents(d: Disk): Option<seq<byte>>
    requires d.views != []
  {
    match Now(d).target
    case None => None
    case Some(k) => if k in d.files then Some(d.files[k].bytes) else None
  }

  /** A power cut may leave the target like this: some view survives, and with it the bytes of
      a synced file, or any bytes at all of one that was not. */
  ghost predicate MaySurvive(d: Disk, c: Option<seq<byte>>) {
    exists i :: 0 <= i < |d.views| && Left(d, d.views[i], c)
  }

  ghost predicate Left(d: Disk, v: Dir, c: Option<seq<byte>>) {
    match v.target
    case None => c.None?
    case Some(k) => c.Some? && (k in d.files && d.files[k].synced ==> c.value == d.files[k].bytes)
  }

  // ----- system calls -----

  /** open with create and truncate: a leftover temporary file is emptied in place. */
  function OpenTmp(d: Disk): Disk
    requires d.views != []
  {
    match Now(d).tmp
    case Some(k) => d.(files := d.files[k := File([], false)])
    case None =>
      Disk(d.files[d.unused := File([], false)], d.views + [Now(d).(tmp := Some(d.unused))], d.unused + 1)
  }

  /** Writing makes the file's bytes unsynced again. */
  function WriteTmp(d: Disk, bytes: seq<byte>): Disk
    requires d.views != []
  {
    match Now(d).tmp
    case None => d
    case Some(k) => d.(files := d.files[k := File(bytes, false)])
  }

  function SyncTmp(d: Disk): Disk
    requires d.views != []
  {
    match Now(d).tmp
    case None => d
    case Some(k) => if k in d.files then d.(files := d.files[k := d.files[k].(synced := true)]) else d
  }

  function RemoveTmp(d: Disk): Disk
    requires d.views != []
  {
    d.(views := d.views + [Now(d).(tmp := None)])
  }

  function RenameTmp(d: Disk): Disk
    requires d.views != []
  {
    match Now(d).tmp
    case None => d
    case Some(k) => d.(views := d.views + [Dir(Some(k), None)])
  }

  // ----- the program -----

  /** What becomes of a call: it works, it fails after n bytes, or the process dies in it, with
      its effect done or not, or after n bytes. */
  datatype Fate = Works | Fails(n: nat) | Dies(done: bool, n: nat)

  function FateAt(fates: seq<Fate>, i: nat): Fate {
    if i < |fates| then fates[i] else Dies(false, 0)
  }

  function Prefix(data: seq<byte>, n: nat): seq<byte> {
    if n < |data| then data[..n] else data
  }

  /** The temporary file is open and everything else as before. */
  ghost predicate Writing(d: Disk, e: Disk)
    requires d.views != []
  {
    && Valid(e) && Now(e).tmp.Some? && Contents(e) == Contents(d)
    && forall c :: MaySurvive(e, c) <==> MaySurvive(d, c)
  }

  lemma OpenKeeps(d: Disk)
    requires Valid(d)
    ensures Writing(d, OpenTmp(d))
  {
    var e := OpenTmp(d);
    forall i | 0 <= i < |d.views| ensures e.views[i] == d.views[i] && ViewOk(d, d.views[i]) {
    }
    if Now(d).tmp.None? {
      assert Now(e).target == Now(d).target;
    }
    SameTargets(d, e);
  }

  /** Views with the same targets, of files that did not change, survive alike. */
  lemma SameTargets(d: Disk, e: Disk)
    requires d.views != [] && |d.views| <= |e.views|
    requires forall i :: 0 <= i < |d.views| ==> ViewOk(d, d.views[i]) && e.views[i].target == d.views[i].target
    requires forall i :: |d.views| <= i < |e.views| ==> e.views[i].target == Now(d).target
    requires forall i :: 0 <= i < |d.views| && d.views[i].target.Some? ==>
      var k := d.views[i].target.value; k in d.files && k in e.files && e.files[k] == d.files[k]
    ensures forall c :: MaySurvive(e, c) <==> MaySurvive(d, c)
    ensures Contents(e) == Contents(d)
  {
    forall c ensures MaySurvive(e, c) <==> MaySurvive(d, c) {
      if MaySurvive(d, c) {
        var i :| 0 <= i < |d.views| && Left(d, d.views[i], c);
        assert Left(e, e.views[i], c);
      }
      if MaySurvive(e, c) {
        var i :| 0 <= i < |e.views| && Left(e, e.views[i], c);
        if i < |d.views| {
          assert Left(d, d.views[i], c);
        } else {
          assert Left(d, d.views[|d.views| - 1], c);
        }
      }
    }
  }

  lemma TmpChangeKeeps(d: Disk, e: Disk, f: File)
    requires d.views != [] && Writing(d, e)
    ensures Writing(d, e.(files := e.files[Now(e).tmp.value := f]))
  {
    SameTargets(e, e.(files := e.files[Now(e).tmp.value := f]));
  }

  lemma RemoveKeeps(d: Disk, e: Disk)
    requires d.views != [] && Writing(d, e)
    ensures var r := RemoveTmp(e);
      Valid(r) && Contents(r) == Contents(d) && forall c :: MaySurvive(r, c) <==> MaySurvive(d, c)
  {
    SameTargets(e, RemoveTmp(e));
  }

  /** Renaming a synced file adds exactly its bytes to what a power cut may leave. */
  lemma RenameInstalls(d: Disk, e: Disk, data: seq<byte>)
    requires d.views != [] && Writing(d, e) && e.files[Now(e).tmp.value] == File(data, true)
    ensures var r := RenameTmp(e);
      && Valid(r) && Contents(r) == Some(data)
      && forall c :: MaySurvive(r, c) <==> MaySurvive(d, c) || c == Some(data)
  {
    var r := RenameTmp(e);
    forall c ensures MaySurvive(r, c) <==> MaySurvive(e, c) || c == Some(data) {
      if MaySurvive(e, c) {
        var i :| 0 <= i < |e.views| && Left(e, e.views[i], c);
        assert r.views[i] == e.views[i] && Left(r, r.views[i], c);
      }
      if c == Some(data) {
        assert Left(r, r.views[|r.views| - 1], c);
      }
      if MaySurvive(r, c) && c != Some(data) {
        var i :| 0 <= i < |r.views| && Left(r, r.views[i], c);
        assert i < |e.views| && Left(e, e.views[i], c);
      }
    }
  }

  /** Nothing has happened to the target. */
  ghost predicate Untouched(d: Disk, r: Disk)
    requires d.views != []
  {
    Valid(r) && Contents(r) == Contents(d) && forall c :: MaySurvive(r, c) <==> MaySurvive(d, c)
  }

  /** The target has the new data; a power cut may still bring back what it could before. */
  ghost predicate Replaced(d: Disk, r: Disk, data: seq<byte>) {
    Valid(r) && Contents(r) == Some(data) && forall c :: MaySurvive(r, c) <==> MaySurvive(d, c) || c == Some(data)
  }

  /** os.Remove of the temporary file, its error ignored. */
  method GiveUp(ghost d: Disk, e: Disk, fate: Fate) returns (r: Disk, alive: bool)
    requires d.views != [] && Writing(d, e)
    ensures Untouched(d, r)
    ensures fate.Works? ==> alive && Now(r).tmp.None?
  {
    r, alive := e, !fate.Dies?;
    if fate.Works? || (fate.Dies? && fate.done) {
      RemoveKeeps(d, e);
      r := RemoveTmp(e);
    }
  }

  /** The calls before the rename. `failed` says that one of them returned an error, `open`
      that it was not the first. */
  method PrepareTmp(d: Disk, data: seq<byte>, fates: seq<Fate>) returns (r: Disk, open: bool, failed: bool, alive: bool)
    requires Valid(d)
    ensures Untouched(d, r) || Writing(d, r)
    ensures alive && open ==> Writing(d, r)
    ensures alive && !open ==> r == d && failed
    ensures !failed && alive ==> Writing(d, r) && r.files[Now(r).tmp.value] == File(data, true)
    ensures (forall i :: 0 <= i < |fates| ==> fates[i].Works?) && |fates| >= 4 ==> !failed && alive
    ensures FateAt(fates, 0).Works? && !FateAt(fates, 1).Dies? && !FateAt(fates, 2).Dies? && !FateAt(fates, 3).Dies? ==>
      alive && open && (failed <==> FateAt(fates, 1).Fails? || FateAt(fates, 2).Fails? || FateAt(fates, 3).Fails?)
  {
    hide MaySurvive, ViewOk;
    OpenKeeps(d);
    var f := FateAt(fates, 0);
    r, open, failed, alive := d, f.Works?, true, !f.Dies?;
    if f.Works? || (f.Dies? && f.done) {
      r := OpenTmp(d);
    }
    if !f.Works? {
      return;
    }
    f := FateAt(fates, 1);
    var written := if f.Works? then data else Prefix(data, f.n);
    TmpChangeKeeps(d, r, File(written, false));
    r := WriteTmp(r, written);
    if !f.Works? {
      return r, true, true, !f.Dies?;
    }
    f := FateAt(fates, 2);
    if f.Works? || (f.Dies? && f.done) {
      TmpChangeKeeps(d, r, File(data, true));
      r := SyncTmp(r);
    }
    if !f.Works? {
      return r, true, true, !f.Dies?;
    }
    f := FateAt(fates, 3);
    failed, alive := f.Fails?, !f.Dies?;
  }

  /** One call after the opening one fails, and all others work. */
  predicate FailsAt(fates: seq<Fate>, k: nat) {
    && 1 <= k <= 4 && |fates| >= 6 && fates[k].Fails?
    && forall i :: 0 <= i < |fates| && i != k ==> fates[i].Works?
  }

  /** writeFileAtomic. However its calls fail and wherever the process dies, the target reads as
      before or holds the whole new data: as before after an error, the new data after success.
      A power cut can leave nothing but what it could before or the whole new data; after
      success each of these, since the program never flushes the directory. Success leaves no temporary
      file behind, and neither does a single failure. */
  method WriteFileAtomic(d: Disk, data: seq<byte>, fates: seq<Fate>) returns (r: Disk, ok: bool, alive: bool)
    requires Valid(d)
    ensures Untouched(d, r) || Replaced(d, r, data)
    ensures alive ==> if ok then Replaced(d, r, data) else Untouched(d, r)
    ensures (forall i :: 0 <= i < |fates| ==> fates[i].Works?) && |fates| >= 5 ==> ok && alive
    ensures alive && ok ==> Now(r).tmp.None?
    ensures (exists k :: FailsAt(fates, k)) ==> alive && !ok && Now(r).tmp.None?
  {
    hide MaySurvive, ViewOk;
    assert forall k :: FailsAt(fates, k) ==> forall i :: 0 <= i < 6 ==> FateAt(fates, i) == fates[i];
    var open, failed;
    r, open, failed, alive := PrepareTmp(d, data, fates);
    ok := false;
    if !alive || !open {
      return;
    }
    if failed {
      r, alive := GiveUp(d, r, FateAt(fates, 4));
      return;
    }
    var f := FateAt(fates, 4);
    if f.Works? || (f.Dies? && f.done) {
      RenameInstalls(d, r, data);
      r, ok, alive := RenameTmp(r), f.Works?, f.Works?;
      return;
    }
    if f.Dies? {
      alive := false;
      return;
    }
    r, alive := GiveUp(d, r, FateAt(fates, 5));
  }

  /** Success is durable exactly where the old contents could only have been the same. */
  lemma DurableIff(d: Disk, r: Disk, data: seq<byte>)
    requires Valid(d) && Replaced(d, r, data)
    ensures (forall c :: MaySurvive(r, c) ==> c == Some(data))
        <==> Contents(d) == Some(data) && forall c :: MaySurvive(d, c) ==> c == Some(data)
  {
    hide MaySurvive, ViewOk;
    ContentsMaySurvive(d);
    assert MaySurvive(r, Contents(d));
  }

  /** The run that shows it: a first file, replaced without any failure, and the old bytes back
      after a power cut. */
  lemma SuccessIsNotDurable(old_: seq<byte>, data: seq<byte>)
    ensures var d := Disk(map[0 := File(old_, true)], [Dir(Some(0), None)], 1);
      var r := RenameTmp(SyncTmp(WriteTmp(OpenTmp(d), data)));
      Valid(d) && Contents(r) == Some(data) && Contents(PowerCut(r, 0, [])) == Some(old_)
  {
    var d := Disk(map[0 := File(old_, true)], [Dir(Some(0), None)], 1);
    var e := OpenTmp(d);
    assert e.views == [Dir(Some(0), None), Dir(Some(0), Some(1))];
    var r := RenameTmp(SyncTmp(WriteTmp(e, data)));
    assert r.views == e.views + [Dir(Some(1), None)];
    assert r.files == map[0 := File(old_, true), 1 := File(data, true)];
  }

  // ----- many writes -----

  /** The disk after a power cut that falls back to view i; every unsynced file holds junk. */
  function PowerCut(d: Disk, i: nat, junk: seq<byte>): Disk
    requires i < |d.views|
  {
    var files := map k | k in d.files :: File(if d.files[k].synced then d.files[k].bytes else junk, true);
    Disk(files, [d.views[i]], d.unused)
  }

  lemma PowerCutKeeps(d: Disk, i: nat, junk: seq<byte>)
    requires Valid(d) && i < |d.views|
    ensures var r := PowerCut(d, i, junk);
      Valid(r) && forall c :: MaySurvive(r, c) ==> MaySurvive(d, c)
  {
    var r := PowerCut(d, i, junk);
    assert ViewOk(d, d.views[i]);
    forall c | MaySurvive(r, c) ensures MaySurvive(d, c) {
      assert Left(r, r.views[0], c);
      assert Left(d, d.views[i], c);
    }
  }

  datatype Job = Save(data: seq<byte>, fates: seq<Fate>) | Cut(view: nat, junk: seq<byte>)

  /** The target is as a power cut could have left it at first, or is wholly one of the saves. */
  ghost predicate OneOf(d: Disk, jobs: seq<Job>, c: Option<seq<byte>>) {
    MaySurvive(d, c) || exists j :: 0 <= j < |jobs| && jobs[j].Save? && c == Some(jobs[j].data)
  }

  /** Over any sequence of saves, deaths and power cuts, the target is never torn. */
  method SaveManyTimes(d: Disk, jobs: seq<Job>) returns (r: Disk)
    requires Valid(d)
    ensures Valid(r) && forall c :: MaySurvive(r, c) ==> OneOf(d, jobs, c)
    ensures OneOf(d, jobs, Contents(r))
  {
    hide MaySurvive, ViewOk;
    r := d;
    for n := 0 to |jobs|
      invariant Valid(r) && forall c :: MaySurvive(r, c) ==> OneOf(d, jobs, c)
    {
      match jobs[n] {
        case Save(data, fates) =>
          var ok, alive;
          r, ok, alive := WriteFileAtomic(r, data, fates);
        case Cut(view, junk) =>
          var i := if view < |r.views| then view else |r.views| - 1;
          PowerCutKeeps(r, i, junk);
          r := PowerCut(r, i, junk);
      }
    }
    ContentsMaySurvive(r);
  }

  lemma ContentsMaySurvive(d: Disk)
    requires Valid(d)
    ensures MaySurvive(d, Contents(d))
  {
    assert ViewOk(d, Now(d)) && Left(d, d.views[|d.views| - 1], Contents(d));
  }
}
