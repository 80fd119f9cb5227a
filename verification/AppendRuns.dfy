/**
 Concurrent `Append`s. `Append` first takes the memory lock and then, separately, the file lock
 (kit/db/store.go:124-152), so two appends may reach the file in the opposite order. A run is any
 sequence of memory steps and file steps. `file` holds, line by line, the log position it came from,
 after the lines the store was opened with.
 */
module AppendRuns {
  import opened Common
  import opened EventStore

  datatype State = State(
    streams: map<string, seq<Record>>,
    log: seq<Record>,
    pending: set<nat>,          // log positions between their memory step and their file step
    file: seq<nat>,             // log positions in file order
    before: set<(nat, nat)>)    // (i, j): append i had returned when append j took its memory step

  datatype Step = Memory(record: Record) | File(position: nat)

  /** A store just opened from a file that held `log`. */
  function Open(log: seq<Record>, streams: map<string, seq<Record>>): State {
    State(streams, log, {}, seq(|log|, i => i), {})
  }

  ghost predicate Enabled(s: State, t: Step) {
    t.File? ==> t.position in s.pending
  }

  ghost function Next(s: State, t: Step): State {
    match t
    case Memory(r) =>
      var j := |s.log|;
      s.(streams := s.streams[r.aggregateId := At(s.streams, r.aggregateId) + [r]],
         log := s.log + [r], pending := s.pending + {j},
         before := s.before + (set i | 0 <= i < j && i !in s.pending :: (i, j)))
    case File(j) => s.(pending := s.pending - {j}, file := s.file + [j])
  }

  ghost predicate Reaches(s: State, steps: seq<Step>, t: State)
    decreases |steps|
  {
    if steps == [] then s == t
    else Enabled(s, steps[0]) && Reaches(Next(s, steps[0]), steps[1..], t)
  }

  predicate Distinct(q: seq<nat>) {
    forall i, j :: 0 <= i < j < |q| ==> q[i] != q[j]
  }

  /** The first `i` found in `q` stands before `j`. */
  predicate Precedes(q: seq<nat>, i: nat, j: nat) {
    exists a, b :: 0 <= a < b < |q| && q[a] == i && q[b] == j
  }

  ghost predicate Inv(s: State) {
    && Indexed(s.streams, s.log)
    && Distinct(s.file)
    && (forall j: nat :: j < |s.log| <==> (j in s.file || j in s.pending))
    && (forall j: nat :: !(j in s.file && j in s.pending))
    && (forall p :: p in s.before ==> p.0 in s.file && p.1 < |s.log|)
    && (forall p :: p in s.before && p.1 in s.file ==> Precedes(s.file, p.0, p.1))
  }

  lemma OpenInv(log: seq<Record>, streams: map<string, seq<Record>>)
    requires Indexed(streams, log)
    ensures Inv(Open(log, streams))
  {
    var s := Open(log, streams);
    forall j: nat ensures j < |log| <==> j in s.file {
      if j < |log| { assert s.file[j] == j; }
    }
  }

  lemma PrecedesGrows(q: seq<nat>, i: nat, j: nat, k: nat)
    ensures Precedes(q, i, j) ==> Precedes(q + [k], i, j)
    ensures i in q && j == k ==> Precedes(q + [k], i, j)
  {
    if Precedes(q, i, j) {
      var a, b :| 0 <= a < b < |q| && q[a] == i && q[b] == j;
      assert (q + [k])[a] == i && (q + [k])[b] == j;
    }
    if i in q && j == k {
      var a :| 0 <= a < |q| && q[a] == i;
      assert (q + [k])[a] == i && (q + [k])[|q|] == j;
    }
  }

  lemma StepInv(s: State, t: Step)
    requires Inv(s) && Enabled(s, t)
    ensures Inv(Next(s, t))
  {
    var u := Next(s, t);
    match t
    case Memory(r) =>
      IndexedGrows(s.streams, s.log, r);
      assert |s.log| !in s.file && |s.log| !in s.pending;
      forall j: nat ensures j < |u.log| <==> (j in u.file || j in u.pending) {
        assert j < |s.log| <==> (j in s.file || j in s.pending);
      }
      forall p | p in u.before ensures p.0 in u.file && p.1 < |u.log| {
        if p !in s.before { assert p.0 < |s.log| && p.0 !in s.pending; }
      }
      assert forall p :: p in u.before && p.1 in u.file ==> p in s.before;
    case File(k) =>
      assert k !in s.file;
      forall p | p in u.before && p.1 in u.file ensures Precedes(u.file, p.0, p.1) {
        PrecedesGrows(s.file, p.0, p.1, k);
      }
  }

  lemma {:induction false} RunInv(s: State, steps: seq<Step>, t: State)
    requires Inv(s) && Reaches(s, steps, t)
    ensures Inv(t)
    decreases |steps|
  {
    if steps == [] {
    } else {
      StepInv(s, steps[0]);
      RunInv(Next(s, steps[0]), steps[1..], t);
    }
  }

  predicate Within(order: seq<nat>, n: nat) {
    forall k :: 0 <= k < |order| ==> order[k] < n
  }

  /** The records of `log` at the positions `order`, in that order. */
  function Picks(log: seq<Record>, order: seq<nat>): seq<Record>
    requires Within(order, |log|)
  {
    if order == [] then [] else [log[order[0]]] + Picks(log, order[1..])
  }

  /**
   In every interleaving: each stream is the log filtered by aggregate, the file holds every log
   position once except the appends between their two steps, and an append that had returned before
   another began stands before it both in the log and in the file.
   */
  lemma FileIsThePermutedLog(log: seq<Record>, streams: map<string, seq<Record>>, steps: seq<Step>, t: State)
    requires Indexed(streams, log) && Reaches(Open(log, streams), steps, t)
    ensures forall id :: At(t.streams, id) == Stream(t.log, id)
    ensures Distinct(t.file)
    ensures forall j: nat :: j in t.file <==> j < |t.log| && j !in t.pending
    ensures forall i: nat, j: nat :: (i, j) in t.before ==>
              i < |t.log| && j < |t.log| && (j in t.file ==> Precedes(t.file, i, j))
  {
    OpenInv(log, streams);
    RunInv(Open(log, streams), steps, t);
    forall i: nat, j: nat | (i, j) in t.before
      ensures i < |t.log| && j < |t.log| && (j in t.file ==> Precedes(t.file, i, j))
    {
      assert (i, j).0 in t.file;
    }
  }

  /** Two overlapping appends really can swap: log order and file order differ. */
  lemma OverlappingAppendsMaySwap(a: Record, b: Record)
    ensures exists steps, t ::
              Reaches(Open([], map[]), steps, t) && t.pending == {} && t.log == [a, b] && t.file == [1, 0]
  {
    var s0 := Open([], map[]);
    var s1 := Next(s0, Memory(a));
    var s2 := Next(s1, Memory(b));
    var s3 := Next(s2, File(1));
    var s4 := Next(s3, File(0));
    var tail3 := [File(0)];
    var tail2 := [File(1)] + tail3;
    var tail1 := [Memory(b)] + tail2;
    var steps := [Memory(a)] + tail1;
    assert tail3[1..] == [] && tail2[1..] == tail3 && tail1[1..] == tail2 && steps[1..] == tail1;
    assert Reaches(s4, [], s4);
    assert Reaches(s3, tail3, s4);
    assert Reaches(s2, tail2, s4);
    assert Reaches(s1, tail1, s4);
    assert Reaches(s0, steps, s4);
    assert s4.log == [a, b] && s4.pending == {} && s4.file == [1, 0];
  }

  /** Appends never overlap in this run. */
  ghost predicate Serial(s: State, steps: seq<Step>)
    decreases |steps|
  {
    steps == [] || ((steps[0].Memory? ==> s.pending == {}) && Serial(Next(s, steps[0]), steps[1..]))
  }

  /** The file holds the log in order, but for at most one append in progress. */
  ghost predicate InOrder(s: State) {
    && |s.file| <= |s.log|
    && (forall k :: 0 <= k < |s.file| ==> s.file[k] == k)
    && s.pending == (if |s.file| == |s.log| then {} else {|s.file|})
    && |s.log| <= |s.file| + 1
  }

  lemma {:induction false} SerialFileKeepsOrder(s: State, steps: seq<Step>, t: State)
    requires Reaches(s, steps, t) && Serial(s, steps) && InOrder(s)
    ensures InOrder(t)
    decreases |steps|
  {
    if steps == [] {
    } else {
      SerialFileKeepsOrder(Next(s, steps[0]), steps[1..], t);
    }
  }

  lemma {:induction false} ReadableEntries(lines: seq<Line>, rs: seq<Record>)
    requires |lines| == |rs| && forall k :: 0 <= k < |rs| ==> lines[k] == Entry(rs[k])
    ensures Clean(lines) && Readable(lines) == rs
  {
    if lines == [] {
    } else {
      ReadableEntries(lines[1..], rs[1..]);
      assert rs == [rs[0]] + rs[1..];
    }
  }

  lemma {:induction false} PicksAt(log: seq<Record>, order: seq<nat>)
    requires Within(order, |log|)
    ensures |Picks(log, order)| == |order|
    ensures forall k :: 0 <= k < |order| ==> Picks(log, order)[k] == log[order[k]]
  {
    if order == [] {
    } else {
      PicksAt(log, order[1..]);
    }
  }

  lemma {:induction false} PicksOfPrefix(log: seq<Record>, n: nat, order: seq<nat>)
    requires n <= |log| && Within(order, n)
    ensures Picks(log[..n], order) == Picks(log, order)
  {
    if order == [] {
    } else {
      PicksOfPrefix(log, n, order[1..]);
    }
  }

  function Drop(order: seq<nat>, p: nat): (r: seq<nat>)
    requires p < |order|
    ensures |r| == |order| - 1
    ensures forall k :: 0 <= k < |r| ==> r[k] == order[if k < p then k else k + 1]
  {
    if p == 0 then order[1..] else [order[0]] + Drop(order[1..], p - 1)
  }

  lemma DropKeepsTheRest(order: seq<nat>, p: nat, n: nat)
    requires p < |order| && order[p] == n && Distinct(order) && Within(order, n + 1)
    ensures Distinct(Drop(order, p)) && Within(Drop(order, p), n)
    ensures forall j: nat :: j < n ==> (j in Drop(order, p) <==> j in order)
  {
    forall j: nat | j < n && j in order ensures j in Drop(order, p) {
      var k :| 0 <= k < |order| && order[k] == j;
      assert Drop(order, p)[if k < p then k else k - 1] == j;
    }
  }

  lemma PicksCons(log: seq<Record>, j: nat, rest: seq<nat>)
    requires j < |log| && Within(rest, |log|)
    ensures Within([j] + rest, |log|)
    ensures multiset(Picks(log, [j] + rest)) == multiset{log[j]} + multiset(Picks(log, rest))
  {
    assert ([j] + rest)[1..] == rest;
  }

  lemma WithinParts(order: seq<nat>, n: nat)
    requires order != [] && Within(order, n)
    ensures order == [order[0]] + order[1..] && order[0] < n && Within(order[1..], n)
  {
  }

  lemma Regroup<T>(a: multiset<T>, b: multiset<T>, c: multiset<T>)
    ensures a + (b + c) == (a + b) + c
  {
  }

  lemma {:induction false} PicksDropOne(log: seq<Record>, order: seq<nat>, p: nat)
    requires p < |order| && Within(order, |log|)
    ensures Within(Drop(order, p), |log|)
    ensures multiset(Picks(log, order)) == multiset(Picks(log, Drop(order, p))) + multiset{log[order[p]]}
  {
    var first, rest := order[0], order[1..];
    WithinParts(order, |log|);
    PicksCons(log, first, rest);
    if p == 0 {
      assert Drop(order, p) == rest;
    } else {
      PicksDropOne(log, rest, p - 1);
      PicksCons(log, first, Drop(rest, p - 1));
      Regroup(multiset{log[first]}, multiset(Picks(log, Drop(rest, p - 1))), multiset{log[order[p]]});
    }
  }

  /** The log less the records at the given positions. */
  function Less(log: seq<Record>, missing: set<nat>): seq<Record> {
    if log == [] then []
    else Less(log[..|log| - 1], missing) + if |log| - 1 in missing then [] else [log[|log| - 1]]
  }

  lemma {:induction false} LessBeyond(log: seq<Record>, missing: set<nat>)
    requires forall j: nat :: j < |log| ==> j !in missing
    ensures Less(log, missing) == log
  {
    if log == [] {
    } else {
      LessBeyond(log[..|log| - 1], missing);
    }
  }

  lemma LessNothing(log: seq<Record>)
    ensures Less(log, {}) == log
  {
    LessBeyond(log, {});
  }

  /** The positions read are those of the log but the missing ones, each once. */
  predicate ReadsAllBut(order: seq<nat>, n: nat, missing: set<nat>) {
    Within(order, n) && Distinct(order) && forall j: nat :: j < n ==> (j in order <==> j !in missing)
  }

  lemma {:induction false} ReadsFewer(order: seq<nat>, n: nat, missing: set<nat>)
    requires ReadsAllBut(order, n + 1, missing) && n in missing
    ensures ReadsAllBut(order, n, missing)
  {
    assert n !in order;
  }

  lemma {:induction false} ReadsWithoutLast(order: seq<nat>, n: nat, missing: set<nat>) returns (p: nat)
    requires ReadsAllBut(order, n + 1, missing) && n !in missing
    ensures p < |order| && order[p] == n && ReadsAllBut(Drop(order, p), n, missing)
  {
    assert n in order;
    p :| p < |order| && order[p] == n;
    DropKeepsTheRest(order, p, n);
  }

  /** Reading a log once at each position but the missing ones gives a permutation of the rest of it. */
  lemma {:induction false} PermutedRecords(log: seq<Record>, order: seq<nat>, missing: set<nat>)
    requires ReadsAllBut(order, |log|, missing)
    ensures multiset(Picks(log, order)) == multiset(Less(log, missing))
    decreases |log|
  {
    if log == [] {
      if order != [] {
        WithinParts(order, 0);
        assert false;
      }
    } else {
      var n := |log| - 1;
      if n in missing {
        ReadsFewer(order, n, missing);
        PermutedRecords(log[..n], order, missing);
        PicksOfPrefix(log, n, order);
      } else {
        var p := ReadsWithoutLast(order, n, missing);
        PermutedRecords(log[..n], Drop(order, p), missing);
        PicksOfPrefix(log, n, Drop(order, p));
        PicksDropOne(log, order, p);
      }
    }
  }

  /** In order, the file is the log less at most its last record. */
  lemma {:induction false} SerialLess(t: State)
    requires InOrder(t) && Within(t.file, |t.log|)
    ensures Picks(t.log, t.file) == Less(t.log, t.pending)
  {
    var n := |t.file|;
    PicksAt(t.log, t.file);
    LessBeyond(t.log[..n], t.pending);
    assert Picks(t.log, t.file) == t.log[..n];
    if n == |t.log| {
      assert t.log[..n] == t.log;
    }
  }

  lemma LinesOfTheFile(t: State, lines: seq<Line>)
    requires Within(t.file, |t.log|) && |lines| == |t.file|
    requires forall k :: 0 <= k < |t.file| ==> lines[k] == Entry(t.log[t.file[k]])
    ensures Clean(lines) && Readable(lines) == Picks(t.log, t.file)
  {
    PicksAt(t.log, t.file);
    ReadableEntries(lines, Picks(t.log, t.file));
  }

  lemma FileReadsAllButPending(log: seq<Record>, streams: map<string, seq<Record>>, steps: seq<Step>, t: State)
    requires Indexed(streams, log) && Reaches(Open(log, streams), steps, t)
    ensures ReadsAllBut(t.file, |t.log|, t.pending)
  {
    FileIsThePermutedLog(log, streams, steps, t);
    forall k | 0 <= k < |t.file| ensures t.file[k] < |t.log| {
      assert t.file[k] in t.file;
    }
  }

  lemma SerialFileReads(log: seq<Record>, streams: map<string, seq<Record>>, steps: seq<Step>, t: State)
    requires Reaches(Open(log, streams), steps, t) && Serial(Open(log, streams), steps) && Within(t.file, |t.log|)
    ensures Picks(t.log, t.file) == Less(t.log, t.pending)
  {
    SerialFileKeepsOrder(Open(log, streams), steps, t);
    SerialLess(t);
  }

  /**
   Reopening the file, at any point of any run, gives a store with the records of the log less those whose
   append was between its two steps; if the appends never overlapped, in log order. Of a quiet state it
   gives all the records.
   */
  lemma ReopenedStoreHoldsTheLog(log: seq<Record>, streams: map<string, seq<Record>>, steps: seq<Step>, t: State,
                                 lines: seq<Line>)
    requires Indexed(streams, log) && Reaches(Open(log, streams), steps, t)
    requires Within(t.file, |t.log|) && |lines| == |t.file|
    requires forall k :: 0 <= k < |t.file| ==> lines[k] == Entry(t.log[t.file[k]])
    ensures Clean(lines) && multiset(Readable(lines)) == multiset(Less(t.log, t.pending))
    ensures t.pending == {} ==> Less(t.log, t.pending) == t.log
    ensures Serial(Open(log, streams), steps) ==> Readable(lines) == Less(t.log, t.pending)
  {
    FileReadsAllButPending(log, streams, steps, t);
    PermutedRecords(t.log, t.file, t.pending);
    LinesOfTheFile(t, lines);
    LessNothing(t.log);
    if Serial(Open(log, streams), steps) {
      SerialFileReads(log, streams, steps, t);
    }
  }
}
