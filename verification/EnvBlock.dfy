/** The environment block of ssh_windows.go: last entry of each key, NUL-separated. */
module EnvBlock {
  import opened Wrappers

  /** Entries as UTF-16 code units; the conversion itself is not modelled. */
  type Unit = x: int | 0 <= x < 0x1_0000
  type Entry = seq<Unit>

  const EQUALS: Unit := 61
  const NUL: Unit := 0

  // ----- keys -----

  predicate HasKey(kv: Entry) {
    EQUALS in kv
  }

  /** What strings.Cut puts before the first equals sign. */
  function KeyOf(kv: Entry): (k: Entry)
    requires HasKey(kv)
    ensures k + [EQUALS] <= kv && EQUALS !in k
  {
    if kv[0] == EQUALS then [] else
    assert kv == [kv[0]] + kv[1..];
    [kv[0]] + KeyOf(kv[1..])
  }

  /** Each entry's key ignoring case, where it has one; `upper` stands for strings.ToUpper. */
  function Keys(upper: Entry -> Entry, env: seq<Entry>): (keys: seq<Option<Entry>>)
    ensures |keys| == |env|
    ensures forall i :: 0 <= i < |env| ==> keys[i] == if HasKey(env[i]) then Some(upper(KeyOf(env[i]))) else None
  {
    seq(|env|, i requires 0 <= i < |env| => if HasKey(env[i]) then Some(upper(KeyOf(env[i]))) else None)
  }

  // ----- what deduplication means -----

  /** The key at position f first occurs there and last occurs at l. */
  ghost predicate FirstAndLast(keys: seq<Option<Entry>>, f: nat, l: nat) {
    && f <= l < |keys| && keys[f].Some? && keys[f] == keys[l]
    && (forall k :: 0 <= k < f ==> keys[k] != keys[f])
    && (forall k :: l < k < |keys| ==> keys[k] != keys[f])
  }

  ghost predicate Increasing(a: seq<nat>) {
    forall i, j :: 0 <= i < j < |a| ==> a[i] < a[j]
  }

  /** Every key's first occurrence is listed. */
  ghost predicate Complete(keys: seq<Option<Entry>>, firsts: seq<nat>) {
    forall k :: 0 <= k < |keys| && keys[k].Some? ==>
      exists i :: 0 <= i < |firsts| && firsts[i] < |keys| && keys[firsts[i]] == keys[k]
  }

  /** The list has one entry for each key, in order of first occurrence, each the key's last. */
  ghost predicate Deduplicated(upper: Entry -> Entry, env: seq<Entry>, list: seq<Entry>,
                               firsts: seq<nat>, lasts: seq<nat>) {
    var keys := Keys(upper, env);
    && |firsts| == |lasts| == |list|
    && Increasing(firsts)
    && (forall i :: 0 <= i < |list| ==> FirstAndLast(keys, firsts[i], lasts[i]) && list[i] == env[lasts[i]])
    && Complete(keys, firsts)
  }

  ghost predicate IsDeduplicated(upper: Entry -> Entry, env: seq<Entry>, list: seq<Entry>) {
    exists firsts, lasts :: Deduplicated(upper, env, list, firsts, lasts)
  }

  ghost predicate Within(a: seq<nat>, b: seq<nat>) {
    forall i :: 0 <= i < |a| ==> a[i] in b
  }

  lemma {:induction false} IncreasingSameElements(a: seq<nat>, b: seq<nat>)
    requires Increasing(a) && Increasing(b) && Within(a, b) && Within(b, a)
    ensures a == b
  {
    if b != [] {
      assert b[0] in a;
    }
    if a != [] {
      assert a[0] in b;
      WithoutLast(a, b);
      WithoutLast(b, a);
      IncreasingSameElements(a[..|a| - 1], b[..|b| - 1]);
      assert a == a[..|a| - 1] + [a[|a| - 1]] && b == b[..|b| - 1] + [b[|b| - 1]];
    }
  }

  lemma WithoutLast(a: seq<nat>, b: seq<nat>)
    requires Increasing(a) && Increasing(b) && Within(a, b) && Within(b, a) && a != [] && b != []
    ensures a[|a| - 1] == b[|b| - 1]
    ensures Within(a[..|a| - 1], b[..|b| - 1])
  {
    assert a[|a| - 1] in b && b[|b| - 1] in a;
    assert b == b[..|b| - 1] + [b[|b| - 1]];
  }

  /** The first occurrences listed are all there are. */
  lemma ListedFirst(keys: seq<Option<Entry>>, firsts: seq<nat>, lasts: seq<nat>, f: nat, l: nat)
    requires Complete(keys, firsts) && |firsts| == |lasts|
    requires forall i :: 0 <= i < |firsts| ==> FirstAndLast(keys, firsts[i], lasts[i])
    requires FirstAndLast(keys, f, l)
    ensures f in firsts
  {
    var i :| 0 <= i < |firsts| && firsts[i] < |keys| && keys[firsts[i]] == keys[f];
    assert FirstAndLast(keys, firsts[i], lasts[i]);
    assert firsts[i] == f;
  }

  lemma AllListed(upper: Entry -> Entry, env: seq<Entry>, list: seq<Entry>, firsts: seq<nat>, lasts: seq<nat>,
                  list': seq<Entry>, firsts': seq<nat>, lasts': seq<nat>)
    requires Deduplicated(upper, env, list, firsts, lasts) && Deduplicated(upper, env, list', firsts', lasts')
    ensures Within(firsts, firsts')
  {
    hide Keys, FirstAndLast, Complete, Increasing;
    forall i | 0 <= i < |firsts| ensures firsts[i] in firsts' {
      ListedFirst(Keys(upper, env), firsts', lasts', firsts[i], lasts[i]);
    }
  }

  lemma SameLists(upper: Entry -> Entry, env: seq<Entry>, list: seq<Entry>, list': seq<Entry>,
                  firsts: seq<nat>, lasts: seq<nat>, lasts': seq<nat>)
    requires Deduplicated(upper, env, list, firsts, lasts) && Deduplicated(upper, env, list', firsts, lasts')
    ensures list == list'
  {
    hide Keys, FirstAndLast, Complete, Increasing;
    forall i | 0 <= i < |list| ensures list[i] == list'[i] {
      SameLast(Keys(upper, env), firsts[i], lasts[i], lasts'[i]);
    }
  }

  lemma DeduplicatedInOrder(upper: Entry -> Entry, env: seq<Entry>, list: seq<Entry>, firsts: seq<nat>, lasts: seq<nat>)
    requires Deduplicated(upper, env, list, firsts, lasts)
    ensures Increasing(firsts)
  {
  }

  /** The specification leaves nothing open: it fixes the list. */
  lemma DeduplicatedIsUnique(upper: Entry -> Entry, env: seq<Entry>, list: seq<Entry>, list': seq<Entry>)
    requires IsDeduplicated(upper, env, list) && IsDeduplicated(upper, env, list')
    ensures list == list'
  {
    hide Deduplicated, Increasing, Within;
    var firsts, lasts :| Deduplicated(upper, env, list, firsts, lasts);
    var firsts', lasts' :| Deduplicated(upper, env, list', firsts', lasts');
    AllListed(upper, env, list, firsts, lasts, list', firsts', lasts');
    AllListed(upper, env, list', firsts', lasts', list, firsts, lasts);
    DeduplicatedInOrder(upper, env, list, firsts, lasts);
    DeduplicatedInOrder(upper, env, list', firsts', lasts');
    IncreasingSameElements(firsts, firsts');
    SameLists(upper, env, list, list', firsts, lasts, lasts');
  }

  lemma SameLast(keys: seq<Option<Entry>>, f: nat, l: nat, l': nat)
    requires FirstAndLast(keys, f, l) && FirstAndLast(keys, f, l')
    ensures l == l'
  {
  }

  /** No two listed entries are for the same variable, ignoring case. */
  lemma DeduplicatedKeysDiffer(upper: Entry -> Entry, env: seq<Entry>, list: seq<Entry>, i: nat, j: nat)
    requires IsDeduplicated(upper, env, list) && i < j < |list|
    ensures HasKey(list[i]) && HasKey(list[j]) && upper(KeyOf(list[i])) != upper(KeyOf(list[j]))
  {
    var firsts, lasts :| Deduplicated(upper, env, list, firsts, lasts);
    var keys := Keys(upper, env);
    assert FirstAndLast(keys, firsts[i], lasts[i]) && FirstAndLast(keys, firsts[j], lasts[j]);
    assert keys[firsts[i]] != keys[firsts[j]];
  }

  /** Splitting an entry at its first equals sign. */
  ghost predicate Splits(kv: Entry, k: Entry, v: Entry) {
    kv == k + [61] + v && 61 !in k
  }

  lemma SplitsAtKey(kv: Entry, k: Entry, v: Entry)
    requires Splits(kv, k, v)
    ensures HasKey(kv) && KeyOf(kv) == k
  {
    assert kv[|k|] == 61;
    var k' := KeyOf(kv);
    assert (k' + [EQUALS])[|k'|] == kv[|k'|];
    assert |k'| >= |k| by {
      assert forall i :: 0 <= i < |k| ==> kv[i] == k[i];
    }
    assert |k| >= |k'| by {
      assert forall i :: 0 <= i < |k'| ==> kv[i] == (k' + [EQUALS])[i] == k'[i];
    }
    assert kv[..|k|] == k && kv[..|k'|] == k';
  }

  /** Where an entry's key is listed, and which entry is listed for it. */
  lemma ListedAt(upper: Entry -> Entry, env: seq<Entry>, list: seq<Entry>, i: nat) returns (j: nat, last: nat)
    requires IsDeduplicated(upper, env, list) && i < |env| && Keys(upper, env)[i].Some?
    ensures j < |list| && i <= last < |env| && list[j] == env[last]
    ensures var keys := Keys(upper, env);
      keys[last] == keys[i] && forall m :: last < m < |env| ==> keys[m] != keys[i]
  {
    hide Keys;
    var firsts, lasts :| Deduplicated(upper, env, list, firsts, lasts);
    var keys := Keys(upper, env);
    j :| 0 <= j < |firsts| && firsts[j] < |keys| && keys[firsts[j]] == keys[i];
    last := lasts[j];
    assert FirstAndLast(keys, firsts[j], last);
  }

  /** No variable is lost, whatever its value: each entry with an equals sign has its key in the list,
      ignoring case. */
  lemma EveryKeyIsListed(upper: Entry -> Entry, env: seq<Entry>, list: seq<Entry>, i: nat, k: Entry, v: Entry)
    requires IsDeduplicated(upper, env, list) && i < |env| && Splits(env[i], k, v)
    ensures exists j :: 0 <= j < |list| && HasKey(list[j]) && upper(KeyOf(list[j])) == upper(k)
  {
    hide KeyOf, HasKey, Splits, IsDeduplicated;
    SplitsAtKey(env[i], k, v);
    var j, last := ListedAt(upper, env, list, i);
    assert HasKey(list[j]) && upper(KeyOf(list[j])) == upper(k);
  }

  /** Later entries replace earlier ones: the last one of its key is listed as it is. */
  lemma LastEntryIsListed(upper: Entry -> Entry, env: seq<Entry>, list: seq<Entry>, i: nat, k: Entry, v: Entry)
    requires IsDeduplicated(upper, env, list) && i < |env| && Splits(env[i], k, v)
    requires forall m :: i < m < |env| && HasKey(env[m]) ==> upper(KeyOf(env[m])) != upper(k)
    ensures env[i] in list
  {
    hide KeyOf, HasKey, Splits, IsDeduplicated;
    SplitsAtKey(env[i], k, v);
    var j, last := ListedAt(upper, env, list, i);
    assert last == i;
    assert list[j] in list;
  }

  // ----- the block -----

  predicate NulFree(kv: Entry) {
    NUL !in kv
  }

  /** Each entry and a NUL, and a NUL at the end. */
  function Entries(list: seq<Entry>): seq<Unit> {
    if list == [] then [] else list[0] + [NUL] + Entries(list[1..])
  }

  function Encode(list: seq<Entry>): seq<Unit> {
    Entries(list) + [NUL]
  }

  /** The layout CreateProcess expects: each entry ends in a NUL, and one more ends the block. */
  lemma BlockLayout(list: seq<Entry>)
    ensures Encode([]) == [0]
    ensures list != [] ==> Encode(list) == list[0] + [0] + Encode(list[1..])
  {
  }

  /** Reads up to the next NUL. */
  function ReadEntry(t: seq<Unit>): (r: Option<(Entry, seq<Unit>)>)
    ensures r.Some? ==> |r.value.1| < |t|
  {
    if t == [] then None
    else if t[0] == NUL then Some(([], t[1..]))
    else
      var (kv, rest) :- ReadEntry(t[1..]);
      Some(([t[0]] + kv, rest))
  }

  /** What CreateProcess reads: entries up to the first empty one. */
  function Decode(t: seq<Unit>): Option<seq<Entry>>
    decreases |t|
  {
    var (kv, rest) :- ReadEntry(t);
    if kv == [] then Some([]) else
    var more :- Decode(rest);
    Some([kv] + more)
  }

  lemma {:induction false} ReadEntryRoundTrip(kv: Entry, rest: seq<Unit>)
    requires NulFree(kv)
    ensures ReadEntry(kv + [NUL] + rest) == Some((kv, rest))
  {
    var t := kv + [NUL] + rest;
    if kv == [] {
      assert t == [NUL] + rest;
    } else {
      ReadEntryRoundTrip(kv[1..], rest);
      assert t[1..] == kv[1..] + [NUL] + rest;
      assert [kv[0]] + kv[1..] == kv;
    }
  }

  /** Decoding the block gives back the list; an entry with a key is never empty. */
  lemma {:induction false} BlockRoundTrip(list: seq<Entry>)
    requires forall i :: 0 <= i < |list| ==> HasKey(list[i]) && NulFree(list[i])
    ensures Decode(Encode(list)) == Some(list)
  {
    if list == [] {
      assert Encode(list) == [] + [NUL] + [];
      ReadEntryRoundTrip([], []);
    } else {
      BlockRoundTrip(list[1..]);
      assert Encode(list) == list[0] + [NUL] + Encode(list[1..]);
      ReadEntryRoundTrip(list[0], Encode(list[1..]));
      assert [list[0]] + list[1..] == list;
    }
  }

  // ----- the loops -----

  /** After n entries: the list deduplicates them, and the map of seen keys finds each listed
      one. */
  ghost predicate Progress(keys: seq<Option<Entry>>, env: seq<Entry>, n: nat, seen: map<Entry, nat>,
                           list: seq<Entry>, firsts: seq<nat>, lasts: seq<nat>) {
    && n <= |keys| == |env| && |firsts| == |lasts| == |list|
    && Increasing(firsts)
    && (forall i :: 0 <= i < |list| ==> FirstAndLast(keys[..n], firsts[i], lasts[i]) && list[i] == env[lasts[i]])
    && (forall u :: u in seen ==> seen[u] < |firsts| && keys[firsts[seen[u]]] == Some(u))
    && (forall k :: 0 <= k < n && keys[k].Some? ==> keys[k].value in seen)
  }

  lemma NothingYet(keys: seq<Option<Entry>>, env: seq<Entry>)
    requires |keys| == |env|
    ensures Progress(keys, env, 0, map[], [], [], [])
  {
  }

  lemma SkipStep(keys: seq<Option<Entry>>, env: seq<Entry>, n: nat, seen: map<Entry, nat>,
                 list: seq<Entry>, firsts: seq<nat>, lasts: seq<nat>)
    requires Progress(keys, env, n, seen, list, firsts, lasts) && n < |keys| && keys[n].None?
    ensures Progress(keys, env, n + 1, seen, list, firsts, lasts)
  {
  }

  /** An entry for a listed key takes that key's place. */
  lemma ReplaceStep(keys: seq<Option<Entry>>, env: seq<Entry>, n: nat, seen: map<Entry, nat>,
                    list: seq<Entry>, firsts: seq<nat>, lasts: seq<nat>, u: Entry)
    requires Progress(keys, env, n, seen, list, firsts, lasts)
    requires n < |keys| && keys[n] == Some(u) && u in seen
    ensures seen[u] < |list| == |lasts|
    ensures Progress(keys, env, n + 1, seen, list[seen[u] := env[n]], firsts, lasts[seen[u] := n])
  {
    var at := seen[u];
    forall i | 0 <= i < |firsts| ensures FirstAndLast(keys[..n + 1], firsts[i], lasts[at := n][i]) {
      assert FirstAndLast(keys[..n], firsts[i], lasts[i]) && FirstAndLast(keys[..n], firsts[at], lasts[at]);
      if i != at {
        assert keys[firsts[i]] != keys[firsts[at]];
      }
    }
  }

  /** An entry for a new key goes to the end. */
  lemma AppendStep(keys: seq<Option<Entry>>, env: seq<Entry>, n: nat, seen: map<Entry, nat>,
                   list: seq<Entry>, firsts: seq<nat>, lasts: seq<nat>, u: Entry)
    requires Progress(keys, env, n, seen, list, firsts, lasts)
    requires n < |keys| && keys[n] == Some(u) && u !in seen
    ensures Progress(keys, env, n + 1, seen[u := |list|], list + [env[n]], firsts + [n], lasts + [n])
  {
    forall i | 0 <= i < |firsts| ensures FirstAndLast(keys[..n + 1], firsts[i], lasts[i]) {
      assert FirstAndLast(keys[..n], firsts[i], lasts[i]);
      assert keys[firsts[i]].value in seen;
    }
    forall k | 0 <= k < n ensures keys[k] != keys[n] {
      if keys[k].Some? {
        assert keys[k].value in seen;
      }
    }
    assert FirstAndLast(keys[..n + 1], n, n);
  }

  lemma ProgressDone(upper: Entry -> Entry, env: seq<Entry>, seen: map<Entry, nat>,
                     list: seq<Entry>, firsts: seq<nat>, lasts: seq<nat>)
    requires Progress(Keys(upper, env), env, |env|, seen, list, firsts, lasts)
    ensures Deduplicated(upper, env, list, firsts, lasts)
  {
    var keys := Keys(upper, env);
    assert keys[..|env|] == keys;
    forall k | 0 <= k < |keys| && keys[k].Some?
      ensures exists i :: 0 <= i < |firsts| && firsts[i] < |keys| && keys[firsts[i]] == keys[k]
    {
      var i := seen[keys[k].value];
      assert FirstAndLast(keys[..|env|], firsts[i], lasts[i]);
    }
  }

  /** The first loop of envBlock. */
  method Deduplicate(upper: Entry -> Entry, env: seq<Entry>) returns (list: seq<Entry>)
    ensures IsDeduplicated(upper, env, list)
  {
    hide HasKey, KeyOf, Deduplicated, Progress;
    list := [];
    ghost var firsts: seq<nat>, lasts: seq<nat> := [], [];
    var seen: map<Entry, nat> := map[];
    ghost var keys := Keys(upper, env);
    NothingYet(keys, env);
    for n := 0 to |env|
      invariant Progress(keys, env, n, seen, list, firsts, lasts)
    {
      var kv := env[n];
      if !HasKey(kv) {
        SkipStep(keys, env, n, seen, list, firsts, lasts);
        continue;
      }
      var uk := upper(KeyOf(kv));
      if uk in seen {
        ReplaceStep(keys, env, n, seen, list, firsts, lasts, uk);
        list := list[seen[uk] := kv];
        lasts := lasts[seen[uk] := n];
      } else {
        AppendStep(keys, env, n, seen, list, firsts, lasts, uk);
        seen := seen[uk := |list|];
        list := list + [kv];
        firsts, lasts := firsts + [n], lasts + [n];
      }
    }
    ProgressDone(upper, env, seen, list, firsts, lasts);
  }

  ghost predicate AllNulFree(list: seq<Entry>) {
    forall i :: 0 <= i < |list| ==> NulFree(list[i])
  }

  /** The second loop of envBlock: gives up at the first entry holding a NUL. */
  method WriteBlock(list: seq<Entry>) returns (block: Option<seq<Unit>>)
    ensures block.Some? <==> AllNulFree(list)
    ensures block.Some? ==> block.value == Encode(list)
  {
    var b: seq<Unit> := [];
    for i := 0 to |list|
      invariant b + Entries(list[i..]) == Entries(list)
      invariant forall j :: 0 <= j < i ==> NulFree(list[j])
    {
      if NUL in list[i] {
        return None;
      }
      assert list[i..][1..] == list[i + 1..];
      b := b + (list[i] + [NUL]);
    }
    block := Some(b + [NUL]);
  }

  /** envBlock: fails exactly if an entry that deduplication keeps holds a NUL; otherwise the block
      decodes to the deduplicated list. */
  method EnvBlock(upper: Entry -> Entry, env: seq<Entry>) returns (block: Option<seq<Unit>>)
    ensures block.Some? <==> forall list :: IsDeduplicated(upper, env, list) ==> AllNulFree(list)
    ensures block.Some? ==> Decode(block.value).Some? && IsDeduplicated(upper, env, Decode(block.value).value)
  {
    hide Encode, Decode, IsDeduplicated;
    var kept := Deduplicate(upper, env);
    block := WriteBlock(kept);
    forall list | IsDeduplicated(upper, env, list) ensures list == kept {
      DeduplicatedIsUnique(upper, env, list, kept);
    }
    if block.Some? {
      KeptHaveKeys(upper, env, kept);
      BlockRoundTrip(kept);
    }
  }

  lemma KeptHaveKeys(upper: Entry -> Entry, env: seq<Entry>, list: seq<Entry>)
    requires IsDeduplicated(upper, env, list)
    ensures forall i :: 0 <= i < |list| ==> HasKey(list[i])
  {
    var firsts, lasts :| Deduplicated(upper, env, list, firsts, lasts);
    forall i | 0 <= i < |list| ensures HasKey(list[i]) {
      assert FirstAndLast(Keys(upper, env), firsts[i], lasts[i]);
    }
  }
}
