/**
 dlt-receive with a size limit: messages go to the output file; before one that
 would exceed the limit the file is renamed to the next free part number.
 Renames succeed, writes are complete, and nobody else changes the directory.
 */
module Rotation {
  import opened Bytes

  datatype Message = Message(header: seq<byte>, data: seq<byte>)

  /** headersize + datasize */
  function Len(m: Message): nat {
    |m.header| + |m.data|
  }

  /** A file matching base.*.dlt: base.N.dlt as the tool names its parts, or another name that atoi reads as `value`. */
  datatype Name = Part(number: int) | Odd(name: string, value: int)

  function Atoi(n: Name): int {
    match n
    case Part(number) => number
    case Odd(_, value) => value
  }

  /** The size of the first `n` messages. */
  function SizeTo(content: seq<Message>, n: nat): nat
    requires n <= |content|
  {
    if n == 0 then 0 else SizeTo(content, n - 1) + Len(content[n - 1])
  }

  function Size(content: seq<Message>): nat {
    SizeTo(content, |content|)
  }

  /** The first `n` files one after the other. */
  function FlattenTo(files: seq<seq<Message>>, n: nat): seq<Message>
    requires n <= |files|
  {
    if n == 0 then [] else FlattenTo(files, n - 1) + files[n - 1]
  }

  function Flatten(files: seq<seq<Message>>): seq<Message> {
    FlattenTo(files, |files|)
  }

  lemma {:induction false} FlattenSame(files: seq<seq<Message>>, f: seq<Message>, n: nat)
    requires n <= |files|
    ensures FlattenTo(files + [f], n) == FlattenTo(files, n)
  {
    if n > 0 {
      FlattenSame(files, f, n - 1);
    }
  }

  lemma FlattenMore(files: seq<seq<Message>>, f: seq<Message>)
    ensures Flatten(files + [f]) == Flatten(files) + f
  {
    FlattenSame(files, f, |files|);
  }

  lemma {:induction false} SizeSame(content: seq<Message>, m: Message, n: nat)
    requires n <= |content|
    ensures SizeTo(content + [m], n) == SizeTo(content, n)
  {
    if n > 0 {
      SizeSame(content, m, n - 1);
    }
  }

  lemma SizeMore(content: seq<Message>, m: Message)
    ensures Size(content + [m]) == Size(content) + Len(m)
  {
    SizeSame(content, m, |content|);
  }

  /** A file within the limit, or one that holds a single message longer than the limit. */
  predicate Bounded(content: seq<Message>, limit: int) {
    Size(content) <= limit || (|content| == 1 && Len(content[0]) > limit)
  }

  ghost predicate AllBounded(files: seq<seq<Message>>, limit: int) {
    forall j :: 0 <= j < |files| ==> Bounded(files[j], limit)
  }

  /** No number at or behind the next one is in use. */
  ghost predicate Free(dir: Directory, next: int) {
    0 <= next ==> forall n :: n in dir ==> Atoi(n) < next
  }

  type Directory = map<Name, seq<Message>>

  ghost predicate SameNames(b: Directory, d: Directory, first: int, k: nat) {
    forall n :: n in d <==> n in b || (n.Part? && first <= n.number < first + k)
  }

  ghost predicate Untouched(b: Directory, d: Directory) {
    forall n :: n in b ==> n in d && d[n] == b[n]
  }

  ghost predicate InOrder(b: Directory, d: Directory, first: int, ours: seq<seq<Message>>) {
    forall n :: first <= n < first + |ours| ==> Part(n) !in b && Part(n) in d && d[Part(n)] == ours[n - first]
  }

  /** A run: what was there before, the number of its first part, its parts, and the messages that passed the filter. */
  datatype Run = Run(before: Directory, first: int, ours: seq<seq<Message>>, passed: seq<Message>)

  /** The directory holds what was there before, and this run's parts under new consecutive numbers. */
  ghost predicate PartsAre(run: Run, d: Directory, next: int) {
    && SameNames(run.before, d, run.first, |run.ours|) && Untouched(run.before, d) && InOrder(run.before, d, run.first, run.ours)
    && 0 <= run.first && (run.ours != [] ==> next == run.first + |run.ours|)
  }

  lemma NamesGrow(b: Directory, d: Directory, first: int, k: nat, file: seq<Message>)
    requires SameNames(b, d, first, k)
    ensures SameNames(b, d[Part(first + k) := file], first, k + 1)
  {
    var r := d[Part(first + k) := file];
    forall n
      ensures n in r <==> n in b || (n.Part? && first <= n.number < first + k + 1)
    {
      assert n in r <==> n in d || n == Part(first + k);
      assert n.Part? ==> n == Part(n.number);
    }
  }

  lemma OrderGrows(b: Directory, d: Directory, first: int, ours: seq<seq<Message>>, file: seq<Message>)
    requires InOrder(b, d, first, ours) && Part(first + |ours|) !in b
    ensures InOrder(b, d[Part(first + |ours|) := file], first, ours + [file])
  {
    var r, more := d[Part(first + |ours|) := file], ours + [file];
    forall n | first <= n < first + |more|
      ensures Part(n) !in b && Part(n) in r && r[Part(n)] == more[n - first]
    {
      assert n < first + |ours| ==> Part(n) != Part(first + |ours|);
    }
  }

  lemma PartsGrow(run: Run, d: Directory, next: int, file: seq<Message>)
    requires PartsAre(run, d, next) && Part(next) !in d && (run.ours == [] ==> run.first == next)
    ensures PartsAre(run.(ours := run.ours + [file]), d[Part(next) := file], next + 1)
  {
    assert next == run.first + |run.ours|;
    assert Part(next) in run.before ==> Part(next) in d;
    NamesGrow(run.before, d, run.first, |run.ours|, file);
    OrderGrows(run.before, d, run.first, run.ours, file);
    UntouchedStill(run.before, d, Part(next), file);
  }

  lemma UntouchedStill(b: Directory, d: Directory, n: Name, file: seq<Message>)
    requires Untouched(b, d) && n !in b
    ensures Untouched(b, d[n := file])
  {
    forall x | x in b
      ensures x in d[n := file] && d[n := file][x] == b[x]
    {
      assert x in d && x != n;
    }
  }

  function Began(run: Run, part: int): Run {
    if run.ours == [] then run.(first := part) else run
  }

  /** Renaming the output file to a free number, the next one once a part has been written. */
  lemma Renamed(run: Run, d: Directory, next: int, part: int, file: seq<Message>)
    requires PartsAre(run, d, next) && Part(part) !in d && 0 <= part && (run.ours != [] ==> part == next)
    ensures PartsAre(Began(run, part).(ours := run.ours + [file]), d[Part(part) := file], part + 1)
  {
    PartsGrow(Began(run, part), d, part, file);
  }

  lemma BoundedMore(files: seq<seq<Message>>, f: seq<Message>, limit: int)
    requires AllBounded(files, limit) && Bounded(f, limit)
    ensures AllBounded(files + [f], limit)
  {
  }

  /** The parts and the file are the messages that passed, in order, and each is bounded. */
  ghost predicate Holds(run: Run, file: seq<Message>, limit: int, total: int) {
    AllBounded(run.ours, limit) && Bounded(file, limit) && total == Size(file) && Flatten(run.ours) + file == run.passed
  }

  lemma HoldsRotated(run: Run, file: seq<Message>, limit: int, total: int, r: Run)
    requires Holds(run, file, limit, total) && 0 <= limit && r.ours == run.ours + [file] && r.passed == run.passed
    ensures Holds(r, [], limit, 0)
  {
    FlattenMore(run.ours, file);
    BoundedMore(run.ours, file, limit);
  }

  lemma PartsStill(run: Run, d: Directory, next: int, passed: seq<Message>)
    requires PartsAre(run, d, next)
    ensures PartsAre(run.(passed := passed), d, next)
  {
  }

  lemma HoldsAppended(run: Run, file: seq<Message>, limit: int, total: int, m: Message)
    requires Holds(run, file, limit, total) && (Len(m) + total <= limit || file == [])
    ensures Holds(run.(passed := run.passed + [m]), file + [m], limit, total + Len(m))
  {
    SizeMore(file, m);
    assert Flatten(run.ours) + (file + [m]) == Flatten(run.ours) + file + [m];
  }

  /** The invariant: the parts are where they belong, the next number is free, and nothing is lost or too long. */
  ghost predicate Good(run: Run, file: seq<Message>, d: Directory, next: int, limit: int, total: int) {
    0 <= limit && -1 <= next && Free(d, next) && PartsAre(run, d, next) && Holds(run, file, limit, total)
  }

  lemma AppendGood(run: Run, file: seq<Message>, d: Directory, next: int, limit: int, total: int, m: Message)
    requires Good(run, file, d, next, limit, total) && (Len(m) + total <= limit || file == [])
    ensures Good(run.(passed := run.passed + [m]), file + [m], d, next, limit, total + Len(m))
  {
    HoldsAppended(run, file, limit, total, m);
    PartsStill(run, d, next, run.passed + [m]);
  }

  lemma RotateGood(run: Run, file: seq<Message>, d: Directory, next: int, limit: int, total: int, part: int, after: Directory)
    requires Good(run, file, d, next, limit, total) && Part(part) !in d && 0 <= part && (next >= 0 ==> part == next)
    requires after == d[Part(part) := file] && Free(after, part + 1)
    ensures Good(Began(run, part).(ours := run.ours + [file]), [], after, part + 1, limit, 0)
  {
    var r := Began(run, part).(ours := run.ours + [file]);
    assert run.ours != [] ==> next >= 0;
    Renamed(run, d, next, part, file);
    HoldsRotated(run, file, limit, total, r);
  }

  class Receiver {
    const limit: int
    var partNum: int
    var totalBytes: int
    /** The output file, if it exists, and the files that match the pattern of parts. */
    var present: bool
    var file: seq<Message>
    var dir: Directory
    ghost var run: Run

    ghost predicate Valid()
      reads this
    {
      present && Good(run, file, dir, partNum, limit, totalBytes)
    }

    /** The scan for the highest number in use. */
    method NextNumber() returns (next: int)
      requires partNum == -1
      ensures 0 <= next && forall n :: n in dir ==> Atoi(n) < next
    {
      next := partNum;
      var todo := dir.Keys;
      while todo != {}
        invariant todo <= dir.Keys && next >= -1
        invariant forall n :: n in dir.Keys - todo ==> Atoi(n) <= next
        decreases |todo|
      {
        var n :| n in todo;
        todo := todo - {n};
        if Atoi(n) > next {
          next := Atoi(n);
        }
      }
      next := next + 1;
    }

    /** dlt_receive_open_output_file: an existing file moves to the next part number, and no part is overwritten. */
    method OpenOutputFile() returns (part: int)
      requires Free(dir, partNum) && partNum >= -1
      modifies this`partNum, this`present, this`file, this`dir
      ensures present && file == [] && Free(dir, partNum)
      ensures if old(present)
              then Part(part) !in old(dir) && dir == old(dir)[Part(part) := old(file)] && partNum == part + 1 && 0 <= part
              else dir == old(dir) && partNum == old(partNum)
      ensures old(present) && old(partNum) >= 0 ==> part == old(partNum)
    {
      part := 0;
      if present {
        if partNum < 0 {
          partNum := NextNumber();
        }
        part := partNum;
        assert Atoi(Part(part)) == partNum;
        partNum := partNum + 1;
        dir := dir[Part(part) := file];
      }
      present, file := true, [];
    }

    /** The start of a run in a directory with any files in it; an output file that exists is set aside. */
    constructor (limit: int, present: bool, file: seq<Message>, dir: Directory)
      requires 0 <= limit
      ensures Valid() && run.passed == [] && run.ours == [] && this.limit == limit
      ensures forall n :: n in dir ==> n in run.before && run.before[n] == dir[n]
      ensures present ==> exists n :: n in run.before && n !in dir && run.before[n] == file
    {
      this.limit := limit;
      partNum, totalBytes := -1, 0;
      this.present, this.file, this.dir := present, file, dir;
      run := Run(dir, 0, [], []);
      new;
      var part := OpenOutputFile();
      run := Run(this.dir, 0, [], []);
      assert PartsAre(run, this.dir, partNum) && Holds(run, [], limit, 0);
      if present {
        assert run.before[Part(part)] == file;
      }
    }

    /** Renaming the file that was being written keeps the run's parts in order. */
    method Rotate()
      requires Valid()
      modifies this
      ensures Valid() && file == [] && totalBytes == 0
      ensures run == old(run).(first := run.first, ours := old(run.ours) + [old(file)])
    {
      var part := OpenOutputFile();
      RotateGood(run, old(file), old(dir), old(partNum), limit, totalBytes, part, dir);
      totalBytes := 0;
      run := Began(run, part).(ours := run.ours + [old(file)]);
    }

    /** dlt_receive_message_callback: only messages that pass the filter are written, and each exactly once. */
    method MessageCallback(m: Message, passes: bool)
      requires Valid()
      modifies this
      ensures Valid() && run.before == old(run.before)
      ensures run.passed == if passes then old(run.passed) + [m] else old(run.passed)
      ensures !passes ==> run == old(run) && file == old(file) && dir == old(dir) && partNum == old(partNum)
      ensures passes && old(totalBytes) + Len(m) <= limit ==> run.ours == old(run.ours) && dir == old(dir) && file == old(file) + [m]
      ensures passes && old(totalBytes) + Len(m) > limit ==> run.ours == old(run.ours) + [old(file)] && file == [m]
    {
      if passes {
        if Len(m) + totalBytes > limit {
          Rotate();
        }
        Append(m);
      }
    }

    /** writev, complete. */
    method Append(m: Message)
      requires Valid() && (Len(m) + totalBytes <= limit || file == [])
      modifies this`file, this`totalBytes, this`run
      ensures Valid() && file == old(file) + [m] && run == old(run).(passed := old(run.passed) + [m])
    {
      AppendGood(run, file, dir, partNum, limit, totalBytes, m);
      file := file + [m];
      totalBytes := totalBytes + Len(m);
      run := run.(passed := run.passed + [m]);
    }

    /** The main loop: any messages, any filter verdicts. */
    method Receive(ms: seq<Message>, passes: seq<bool>)
      requires Valid() && run.passed == [] && run.ours == [] && |ms| == |passes|
      modifies this
      ensures Valid() && run.before == old(run.before)
      ensures Flatten(run.ours) + file == Passing(ms, passes, |ms|)
    {
      for i := 0 to |ms|
        invariant Valid() && run.before == old(run.before)
        invariant run.passed == Passing(ms, passes, i)
      {
        MessageCallback(ms[i], passes[i]);
      }
    }
  }

  /** The messages that pass the filter, among the first `n`. */
  function Passing(ms: seq<Message>, passes: seq<bool>, n: nat): seq<Message>
    requires n <= |ms| == |passes|
  {
    if n == 0 then [] else Passing(ms, passes, n - 1) + if passes[n - 1] then [ms[n - 1]] else []
  }
}
