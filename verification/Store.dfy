/**
 The key/value database in its two forms, as functions on values: the managed one over
 a Bolt file that is opened when it is needed, and the one in memory.
 */
module Store {
  import opened Wrappers

  type Bytes = seq<bv8>
  type Bucket = map<Bytes, Bytes>
  type Buckets = map<Bytes, Bucket>

  /** The calls of the common interface. Keys and values are as the read filters give them. */
  datatype Op =
    | Add(bucket: Bytes, key: Bytes, value: Bytes)
    | Rm(bucket: Bytes, key: Bytes)
    | Get(bucket: Bytes, key: Bytes)
    | GetAll(bucket: Bytes, transforms: seq<Bytes -> Bytes>)
    | SetStatus(on: bool)
    | Close
    | Backup
    | Wipe
  {
    predicate OnBucket() {
      Add? || Rm? || Get? || GetAll?
    }
  }

  datatype Error = Disabled | IoError

  /** The values of a bucket come in no particular order. A crash is a nil dereference. */
  datatype Result =
    | Done | Failed(error: Error) | Crashed
    | Got(found: Option<Bytes>) | All(values: multiset<Bytes>)
    | BackedUp(did: bool)

  function Transformed(transforms: seq<Bytes -> Bytes>, value: Bytes): Bytes {
    if transforms == [] then value
    else transforms[|transforms| - 1](Transformed(transforms[..|transforms| - 1], value))
  }

  /** Some key, always the same one for the same bucket. */
  ghost function AnyKey(b: Bucket): (k: Bytes)
    requires b != map[]
    ensures k in b
  {
    assert b.Keys != {};
    var k :| k in b.Keys;
    k
  }

  lemma Smaller(b: Bucket, k: Bytes)
    requires k in b
    ensures |b - {k}| == |b| - 1
  {
  }

  /** The transformed values of a bucket, each as often as it occurs. */
  ghost function Bag(b: Bucket, transforms: seq<Bytes -> Bytes>): multiset<Bytes>
    decreases |b|
  {
    if b == map[] then multiset{}
    else
      var k := AnyKey(b);
      Smaller(b, k);
      Bag(b - {k}, transforms) + multiset{Transformed(transforms, b[k])}
  }

  lemma MinusBoth(b: Bucket, j: Bytes, k: Bytes)
    requires j in b && k in b && j != k
    ensures b - {j} - {k} == b - {k} - {j}
    ensures k in b - {j} && (b - {j})[k] == b[k] && j in b - {k} && (b - {k})[j] == b[j]
  {
  }

  lemma AddBoth(bag: multiset<Bytes>, x: Bytes, y: Bytes)
    ensures bag + multiset{x} + multiset{y} == bag + multiset{y} + multiset{x}
  {
  }

  lemma BagFirst(b: Bucket, transforms: seq<Bytes -> Bytes>)
    requires b != map[]
    ensures
      var k := AnyKey(b);
      Bag(b, transforms) == Bag(b - {k}, transforms) + multiset{Transformed(transforms, b[k])}
  {
  }

  lemma {:induction false} BagWithout(b: Bucket, k: Bytes, transforms: seq<Bytes -> Bytes>)
    requires k in b
    ensures Bag(b, transforms) == Bag(b - {k}, transforms) + multiset{Transformed(transforms, b[k])}
    decreases |b|
  {
    var j := AnyKey(b);
    BagFirst(b, transforms);
    if j != k {
      Smaller(b, j);
      Smaller(b, k);
      MinusBoth(b, j, k);
      BagWithout(b - {j}, k, transforms);
      BagWithout(b - {k}, j, transforms);
      AddBoth(Bag(b - {j} - {k}, transforms), Transformed(transforms, b[k]), Transformed(transforms, b[j]));
    }
  }

  // -------------------------------------------------------------- the Bolt file

  const MAX_KEY := 32768
  const MAX_VALUE := 0x7FFF_FFFE

  /** What Bolt takes as a key and a value. */
  predicate BoltTakes(key: Bytes, value: Bytes) {
    0 < |key| <= MAX_KEY && |value| <= MAX_VALUE
  }

  /** How the file system and Bolt answer during one call. */
  datatype Io = Io(open: bool, buckets: bool, tx: bool, close: bool, copy: bool, remove: bool)

  const AllWell := Io(true, true, true, true, true, true)

  /** `file` is the database file, if it is there, and `backups` the copies taken so far. */
  datatype Managed = Managed(file: Option<Buckets>, isOpen: bool, dirty: bool, on: bool, backups: seq<Buckets>)

  function Contents(file: Option<Buckets>): Buckets {
    if file.Some? then file.value else map[]
  }

  function BucketOf(file: Option<Buckets>, name: Bytes): Bucket {
    if name in Contents(file) then Contents(file)[name] else map[]
  }

  function WithBuckets(names: set<Bytes>, b: Buckets): Buckets {
    map n | n in b.Keys + names :: if n in b then b[n] else map[]
  }

  /** Opening makes the file, and the buckets that it does not have. */
  function Opened(names: set<Bytes>, s: Managed, io: Io): (Managed, bool) {
    if s.isOpen then (s, true)
    else if !io.open then (s, false)
    else if !io.buckets || [] in names then (s.(isOpen := true, file := Some(Contents(s.file))), false)
    else (s.(isOpen := true, file := Some(WithBuckets(names, Contents(s.file)))), true)
  }

  /** One transaction on a bucket. */
  ghost function Transact(b: Bucket, op: Op): (Bucket, Result)
    requires op.OnBucket()
  {
    match op
    case Add(_, key, value) => if BoltTakes(key, value) then (b[key := value], Done) else (b, Failed(IoError))
    case Rm(_, key) => (b - {key}, Done)
    case Get(_, key) => (b, Got(if key in b then Some(b[key]) else None))
    case GetAll(_, transforms) => (b, All(Bag(b, transforms)))
  }

  /** The state that operate leaves for its transaction, or the error. */
  function Operate(names: set<Bytes>, s: Managed, io: Io): (Managed, Option<Error>) {
    if !s.on then (s, Some(Disabled))
    else
      var (s', ok) := Opened(names, s.(dirty := true), io);
      (s', if ok then None else Some(IoError))
  }

  ghost function ManagedStep(names: set<Bytes>, s: Managed, op: Op, io: Io): (Managed, Result) {
    match op
    case Add(_, _, _) | Rm(_, _) | Get(_, _) | GetAll(_, _) =>
      var (s', error) := Operate(names, s, io);
      if error.Some? then (s', Failed(error.value))
      else if op.bucket !in Contents(s'.file) then (s', Crashed)
      else
        var (b, result) := Transact(Contents(s'.file)[op.bucket], op);
        if io.tx then (s'.(file := Some(Contents(s'.file)[op.bucket := b])), result) else (s', Failed(IoError))
    case SetStatus(on) => (s.(on := on), Done)
    case Close =>
      if !s.isOpen then (s, Done)
      else if io.close then (s.(isOpen := false), Done)
      else (s, Failed(IoError))
    case Backup =>
      if !s.on then (s, Failed(Disabled))
      else if !s.dirty then (s, BackedUp(false))
      else if s.isOpen && !io.close then (s, Failed(IoError))
      else
        var s' := s.(isOpen := false);
        if s.file.None? || !io.copy then (s', Failed(IoError))
        else (s'.(dirty := false, backups := s.backups + [s.file.value]), BackedUp(true))
    case Wipe =>
      if !s.on then (s, Failed(Disabled))
      else if s.isOpen && !io.close then (s, Failed(IoError))
      else
        var s' := s.(isOpen := false);
        if io.remove then (s'.(file := None), Done) else (s', Failed(IoError))
  }

  // ------------------------------------------------------------------ in memory

  datatype Memory = Memory(buckets: Buckets, on: bool)

  ghost function MemoryStep(m: Memory, op: Op): (Memory, Result) {
    match op
    case Add(_, _, _) | Rm(_, _) | Get(_, _) | GetAll(_, _) =>
      if !m.on then (m, Failed(Disabled))
      else if op.bucket !in m.buckets then (m, Crashed)
      else
        var b := m.buckets[op.bucket];
        (match op
         case Add(_, key, value) => (m.(buckets := m.buckets[op.bucket := b[key := value]]), Done)
         case Rm(_, key) => (m.(buckets := m.buckets[op.bucket := b - {key}]), Done)
         case Get(_, key) => (m, Got(if key in b then Some(b[key]) else None))
         case GetAll(_, transforms) => (m, All(Bag(b, transforms))))
    case SetStatus(on) => (m.(on := on), Done)
    case Close => (m, Done)
    case Backup => (m, if m.on then BackedUp(false) else Failed(Disabled))
    case Wipe => (m, if m.on then Done else Failed(Disabled))
  }

  // ----------------------------------------------------- two forms of one map

  /** The calls that are compared: on configured buckets, and no backups or wipes. */
  predicate Shared(names: set<Bytes>, op: Op) {
    if op.OnBucket() then op.bucket in names else op.SetStatus? || op.Close?
  }

  /** Both hold the same map. */
  ghost predicate Same(names: set<Bytes>, s: Managed, m: Memory) {
    && s.on == m.on && m.buckets.Keys == names
    && (s.isOpen ==> names <= Contents(s.file).Keys)
    && forall n :: n in names ==> BucketOf(s.file, n) == m.buckets[n]
  }

  /** An add that Bolt refuses, while the database is on. */
  predicate Refused(on: bool, op: Op) {
    on && op.Add? && !BoltTakes(op.key, op.value)
  }

  lemma OpenedSame(names: set<Bytes>, s: Managed, m: Memory)
    requires Same(names, s, m) && [] !in names
    ensures
      var (s', ok) := Opened(names, s, AllWell);
      ok && s'.isOpen && Same(names, s', m)
  {
  }

  /** One call gives the same result on both and leaves the same map, except for an add that
      Bolt refuses: that one gives two results. */
  lemma StepSame(names: set<Bytes>, s: Managed, m: Memory, op: Op)
    requires Same(names, s, m) && [] !in names && Shared(names, op)
    ensures
      var (s', r) := ManagedStep(names, s, op, AllWell);
      var (m', q) := MemoryStep(m, op);
      && (r == q <==> !Refused(s.on, op))
      && (!Refused(s.on, op) ==> Same(names, s', m'))
      && s'.on == if op.SetStatus? then op.on else s.on
  {
    if op.OnBucket() && s.on {
      OpenedSame(names, s.(dirty := true), m);
      var (s1, _) := Opened(names, s.(dirty := true), AllWell);
      assert op.bucket in Contents(s1.file) && Contents(s1.file)[op.bucket] == m.buckets[op.bucket];
    }
  }

  ghost function ManagedRun(names: set<Bytes>, s: Managed, ops: seq<Op>): (rs: seq<Result>)
    ensures |rs| == |ops|
    decreases |ops|
  {
    if ops == [] then []
    else var (s', r) := ManagedStep(names, s, ops[0], AllWell); [r] + ManagedRun(names, s', ops[1..])
  }

  ghost function MemoryRun(m: Memory, ops: seq<Op>): (rs: seq<Result>)
    ensures |rs| == |ops|
    decreases |ops|
  {
    if ops == [] then []
    else var (m', r) := MemoryStep(m, ops[0]); [r] + MemoryRun(m', ops[1..])
  }

  /** No add of the sequence is one that Bolt refuses: none that is made while the database
      is on has an empty or oversized key, or an oversized value. */
  predicate Taken(on: bool, ops: seq<Op>)
    decreases |ops|
  {
    ops == [] || (!Refused(on, ops[0]) && Taken(if ops[0].SetStatus? then ops[0].on else on, ops[1..]))
  }

  /** Over every sequence of calls on configured buckets, with closing and reopening in
      between, the two forms give the same results exactly when Bolt takes every add. */
  lemma {:induction false} OneMap(names: set<Bytes>, s: Managed, m: Memory, ops: seq<Op>)
    requires Same(names, s, m) && [] !in names
    requires forall k :: 0 <= k < |ops| ==> Shared(names, ops[k])
    ensures ManagedRun(names, s, ops) == MemoryRun(m, ops) <==> Taken(s.on, ops)
    decreases |ops|
  {
    if ops != [] {
      StepSame(names, s, m, ops[0]);
      var (s', r) := ManagedStep(names, s, ops[0], AllWell);
      var (m', q) := MemoryStep(m, ops[0]);
      var rs, qs := ManagedRun(names, s', ops[1..]), MemoryRun(m', ops[1..]);
      assert ([r] + rs)[0] == r && ([q] + qs)[0] == q;
      if r == q {
        OneMap(names, s', m', ops[1..]);
        assert ([r] + rs)[1..] == rs && ([q] + qs)[1..] == qs;
      }
    }
  }

  /** A new managed database without a file, and a new one in memory. */
  function NewManaged(): Managed {
    Managed(None, false, false, true, [])
  }

  function NewMemory(names: set<Bytes>): Memory {
    Memory(map n | n in names :: map[], true)
  }

  /** So it is for two new databases. */
  lemma OneMapFromNew(names: set<Bytes>, ops: seq<Op>)
    requires [] !in names && forall k :: 0 <= k < |ops| ==> Shared(names, ops[k])
    ensures Same(names, NewManaged(), NewMemory(names))
    ensures ManagedRun(names, NewManaged(), ops) == MemoryRun(NewMemory(names), ops) <==> Taken(true, ops)
  {
    OneMap(names, NewManaged(), NewMemory(names), ops);
  }

  // ------------------------------------------------------------------- backups

  /** A run of any calls, with any answers of the file system: `states[k + 1]` is after call k. */
  ghost predicate IsRun(names: set<Bytes>, states: seq<Managed>, ops: seq<Op>, ios: seq<Io>) {
    && |states| == |ops| + 1 && |ios| == |ops|
    && !states[0].isOpen && !states[0].dirty && states[0].backups == []
    && forall k :: 0 <= k < |ops| ==> ManagedStep(names, states[k], ops[k], ios[k]).0 == states[k + 1]
  }

  /** The database file was wiped in call k. */
  predicate WipedIn(states: seq<Managed>, ops: seq<Op>, ios: seq<Io>, k: nat)
    requires k < |ops| == |ios| && |states| == |ops| + 1
  {
    ops[k].Wipe? && states[k].on && (states[k].isOpen ==> ios[k].close) && ios[k].remove
  }

  predicate TookBackup(states: seq<Managed>, k: nat)
    requires k + 1 < |states|
  {
    |states[k].backups| < |states[k + 1].backups|
  }

  /** The file has been wiped since the last backup that was taken before point n. */
  predicate WipedSince(states: seq<Managed>, ops: seq<Op>, ios: seq<Io>, n: nat)
    requires n <= |ops| == |ios| && |states| == |ops| + 1
  {
    n > 0 && (WipedIn(states, ops, ios, n - 1) || (!TookBackup(states, n - 1) && WipedSince(states, ops, ios, n - 1)))
  }

  /** At every point of every run: an open database is dirty, and a clean one that has ever
      been backed up is exactly its last backup if, and only if, it was not wiped since. */
  lemma {:induction false} BackupsAreCurrent(names: set<Bytes>, states: seq<Managed>, ops: seq<Op>, ios: seq<Io>,
          n: nat)
    requires IsRun(names, states, ops, ios) && n < |states|
    ensures states[n].isOpen ==> states[n].dirty
    ensures
      var s := states[n];
      !s.dirty && s.backups != [] ==>
        (s.file == Some(s.backups[|s.backups| - 1]) <==> !WipedSince(states, ops, ios, n))
    ensures !states[n].dirty && states[n].backups == [] && !WipedSince(states, ops, ios, n) ==>
        states[n].file == states[0].file
  {
    if n > 0 {
      BackupsAreCurrent(names, states, ops, ios, n - 1);
      BackupStep(names, states[n - 1], ops[n - 1], ios[n - 1]);
      assert ManagedStep(names, states[n - 1], ops[n - 1], ios[n - 1]).0 == states[n];
    }
  }

  /** What one call does to the file, the flags and the backups. */
  lemma BackupStep(names: set<Bytes>, s: Managed, op: Op, io: Io)
    requires s.isOpen ==> s.dirty
    ensures
      var (t, r) := ManagedStep(names, s, op, io);
      && (t.isOpen ==> t.dirty)
      && (t.backups == s.backups
          || (r == BackedUp(true) && !t.dirty && s.file.Some? && t.file == s.file &&
              t.backups == s.backups + [s.file.value]))
      && (!t.dirty && t.backups == s.backups ==>
            !s.dirty && t.file == if op.Wipe? && s.on && (s.isOpen ==> io.close) && io.remove then None else s.file)
      && (op.Backup? && r.Failed? ==> t.dirty == s.dirty && t.file == s.file && t.backups == s.backups)
  {
  }

  /** A wipe leaves the clean flag: after a backup and a wipe, the next backup is skipped,
      although the last one is not what the database holds. */
  lemma WipeStaysClean(names: set<Bytes>, s: Managed)
    requires s.on && s.dirty && s.file.Some?
    ensures
      var s1 := ManagedStep(names, s, Backup, AllWell).0;
      var s2 := ManagedStep(names, s1, Wipe, AllWell).0;
      s2.file == None && s2.backups == s.backups + [s.file.value] &&
          ManagedStep(names, s2, Backup, AllWell) == (s2, BackedUp(false))
  {
  }

  // ------------------------------------------------ what is added is found again

  /** The database file has this value, or none, under the key. */
  predicate Holds(s: Managed, bucket: Bytes, key: Bytes, value: Option<Bytes>) {
    && s.file.Some? && bucket in s.file.value
    && value == (if key in s.file.value[bucket] then Some(s.file.value[bucket][key]) else None)
  }

  /** The call is about another key, and does not remove the file. */
  predicate LeavesKey(op: Op, bucket: Bytes, key: Bytes) {
    && !op.Wipe?
    && (op.Add? || op.Rm? ==> op.bucket != bucket || op.key != key)
  }

  lemma StillHolds(names: set<Bytes>, s: Managed, op: Op, io: Io, bucket: Bytes, key: Bytes, value: Option<Bytes>)
    requires Holds(s, bucket, key, value) && LeavesKey(op, bucket, key)
    ensures Holds(ManagedStep(names, s, op, io).0, bucket, key, value)
  {
  }

  ghost function ManagedAfter(names: set<Bytes>, s: Managed, ops: seq<Op>, ios: seq<Io>): Managed
    requires |ios| == |ops|
  {
    if ops == [] then s
    else
      var n := |ops| - 1;
      ManagedStep(names, ManagedAfter(names, s, ops[..n], ios[..n]), ops[n], ios[n]).0
  }

  lemma {:induction false} HoldsThroughout(names: set<Bytes>, s: Managed, ops: seq<Op>, ios: seq<Io>, bucket: Bytes,
                                           key: Bytes, value: Option<Bytes>)
    requires |ios| == |ops| && Holds(s, bucket, key, value)
    requires forall k :: 0 <= k < |ops| ==> LeavesKey(ops[k], bucket, key)
    ensures Holds(ManagedAfter(names, s, ops, ios), bucket, key, value)
  {
    if ops != [] {
      var n := |ops| - 1;
      HoldsThroughout(names, s, ops[..n], ios[..n], bucket, key, value);
      StillHolds(names, ManagedAfter(names, s, ops[..n], ios[..n]), ops[n], ios[n], bucket, key, value);
    }
  }

  /** An add that is done, and then any calls on other keys, with closing, reopening, backups,
      failures and whatever the file system answers: a get that succeeds finds the value. After
      a removal it finds none. */
  lemma GetsWhatWasPut(names: set<Bytes>, s: Managed, put: Op, io: Io, ops: seq<Op>, ios: seq<Io>, io': Io)
    requires (put.Add? || put.Rm?) && |ios| == |ops|
    requires forall k :: 0 <= k < |ops| ==> LeavesKey(ops[k], put.bucket, put.key)
    ensures
      var (s1, r1) := ManagedStep(names, s, put, io);
      var s2 := ManagedAfter(names, s1, ops, ios);
      var r2 := ManagedStep(names, s2, Get(put.bucket, put.key), io').1;
      r1 == Done ==>
        && Holds(s2, put.bucket, put.key, if put.Add? then Some(put.value) else None)
        && (r2.Failed? || r2 == Got(if put.Add? then Some(put.value) else None))
        && (s2.on && (s2.isOpen || (io'.open && io'.buckets && [] !in names)) && io'.tx ==> r2.Got?)
  {
    var (s1, r1) := ManagedStep(names, s, put, io);
    if r1 == Done {
      var value := if put.Add? then Some(put.value) else None;
      HoldsThroughout(names, s1, ops, ios, put.bucket, put.key, value);
      GetHeld(names, ManagedAfter(names, s1, ops, ios), put.bucket, put.key, value, io');
    }
  }

  lemma GetHeld(names: set<Bytes>, s: Managed, bucket: Bytes, key: Bytes, value: Option<Bytes>, io: Io)
    requires Holds(s, bucket, key, value)
    ensures
      var r := ManagedStep(names, s, Get(bucket, key), io).1;
      && (r.Failed? || r == Got(value))
      && (s.on && (s.isOpen || (io.open && io.buckets && [] !in names)) && io.tx ==> r.Got?)
  {
  }

  /** A dirty database that is there is backed up, with all that it holds, if all goes well. */
  lemma BackupHolds(names: set<Bytes>, s: Managed, bucket: Bytes, key: Bytes, value: Option<Bytes>, io: Io)
    requires s.on && s.dirty && Holds(s, bucket, key, value) && (s.isOpen ==> io.close) && io.copy
    ensures
      var (t, r) := ManagedStep(names, s, Backup, io);
      && r == BackedUp(true) && |t.backups| == |s.backups| + 1
      && bucket in t.backups[|s.backups|]
      && value == (var b := t.backups[|s.backups|][bucket]; if key in b then Some(b[key]) else None)
  {
  }

  // -------------------------------------------------------------- all the values

  /** The values that come back are the stored ones, transformed, and no others. */
  lemma {:induction false} BagHas(b: Bucket, transforms: seq<Bytes -> Bytes>, x: Bytes)
    ensures x in Bag(b, transforms) <==> exists k :: k in b && Transformed(transforms, b[k]) == x
    decreases |b|
  {
    if b != map[] {
      var j := AnyKey(b);
      Smaller(b, j);
      BagFirst(b, transforms);
      BagHas(b - {j}, transforms, x);
      if exists k :: k in b && Transformed(transforms, b[k]) == x {
        var k :| k in b && Transformed(transforms, b[k]) == x;
        assert k != j ==> k in b - {j} && (b - {j})[k] == b[k];
      }
      if exists k :: k in b - {j} && Transformed(transforms, (b - {j})[k]) == x {
        var k :| k in b - {j} && Transformed(transforms, (b - {j})[k]) == x;
        assert k in b && b[k] == (b - {j})[k];
      }
    }
  }

  lemma {:induction false} BagSize(b: Bucket, transforms: seq<Bytes -> Bytes>)
    ensures |Bag(b, transforms)| == |b|
    decreases |b|
  {
    if b != map[] {
      var j := AnyKey(b);
      Smaller(b, j);
      BagFirst(b, transforms);
      BagSize(b - {j}, transforms);
    }
  }

  /** Two transforms: the second one is given what the first one makes. */
  lemma TransformsInOrder(f: Bytes -> Bytes, g: Bytes -> Bytes, transforms: seq<Bytes -> Bytes>, v: Bytes)
    ensures Transformed([f, g], v) == g(f(v))
    ensures Transformed(transforms + [g], v) == g(Transformed(transforms, v))
  {
    assert [f, g][..1] == [f] && [f][..0] == [];
    assert (transforms + [g])[..|transforms|] == transforms;
    assert Transformed([f], v) == f(Transformed([], v));
  }

  /** Reading a bucket with two transforms gives g(f(v)) for each stored v, as many values as
      there are keys, and leaves the bucket. */
  lemma GetsAllValues(b: Bucket, bucket: Bytes, f: Bytes -> Bytes, g: Bytes -> Bytes)
    ensures
      var (b', r) := Transact(b, GetAll(bucket, [f, g]));
      && b' == b && r.All? && |r.values| == |b|
      && forall x :: x in r.values <==> exists k :: k in b && g(f(b[k])) == x
  {
    BagSize(b, [f, g]);
    forall x ensures x in Bag(b, [f, g]) <==> exists k :: k in b && g(f(b[k])) == x {
      BagHas(b, [f, g], x);
      forall k | k in b ensures Transformed([f, g], b[k]) == g(f(b[k])) {
        TransformsInOrder(f, g, [], b[k]);
      }
    }
  }

  /** A database that is off refuses every call but those that turn it on or close it. */
  lemma OffRefuses(names: set<Bytes>, s: Managed, m: Memory, op: Op, io: Io)
    requires !op.SetStatus? && !op.Close?
    ensures !s.on ==> ManagedStep(names, s, op, io) == (s, Failed(Disabled))
    ensures !m.on ==> MemoryStep(m, op) == (m, Failed(Disabled))
  {
  }
}
