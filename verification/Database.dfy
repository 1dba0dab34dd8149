/** The two databases as objects, each method proved against its step in Store. */
module Database {
  import opened Wrappers
  import opened Store

  /** The receiver's buffer after a copy: what does not fit is dropped, what is not
      overwritten stays. */
  function Overwritten(buffer: Bytes, b: Bytes): Bytes {
    if |b| <= |buffer| then b + buffer[|b|..] else b[..|buffer|]
  }

  /** A copy gives back the value exactly into a buffer of its length. */
  lemma CopyFits(buffer: Bytes, b: Bytes)
    ensures |Overwritten(buffer, b)| == |buffer|
    ensures Overwritten(buffer, b) == b <==> |buffer| == |b|
  {
  }

  /** The built-in copy. */
  method Copy(b: Bytes, buffer: array<bv8>)
    modifies buffer
    ensures buffer[..] == Overwritten(old(buffer[..]), b)
  {
    var n := if |b| < buffer.Length then |b| else buffer.Length;
    ghost var before := buffer[..];
    for i := 0 to n
      invariant forall k :: 0 <= k < i ==> buffer[k] == b[k]
      invariant forall k :: i <= k < buffer.Length ==> buffer[k] == before[k]
    {
      buffer[i] := b[i];
    }
  }

  /** A key or a value, with the filters it goes through. */
  class Data {
    var data: array<bv8>
    const read: Option<Bytes -> Bytes>
    const write: Option<Bytes -> Bytes>
    const use: Option<Bytes -> Bytes>
    var result: Option<Bytes>

    constructor (data: array<bv8>, read: Option<Bytes -> Bytes>, write: Option<Bytes -> Bytes>,
        use: Option<Bytes -> Bytes>)
      ensures this.data == data && this.read == read && this.write == write && this.use == use && result == None
    {
      this.data, this.read, this.write, this.use, result := data, read, write, use, None;
    }

    function Get(): Bytes
      reads this, data
    {
      if read.None? then data[..] else read.value(data[..])
    }

    /** Without a write filter the value goes to the use function, or else into the buffer
        that is there; with one, its outcome becomes the buffer. */
    method Set(b: Bytes)
      modifies this, data
      ensures write.None? ==> data == old(data)
      ensures data[..] == if write.Some? then write.value(b)
                          else if use.Some? then old(data[..]) else Overwritten(old(data[..]), b)
      ensures result == if use.None? then old(result) else Some(use.value(if write.Some? then write.value(b) else b))
    {
      if write.None? {
        if use.Some? {
          result := Some(use.value(b));
        } else {
          Copy(b, data);
        }
      } else {
        var filtered := write.value(b);
        data := new bv8[|filtered|](i requires 0 <= i < |filtered| => filtered[i]);
        assert data[..] == filtered;
        if use.Some? {
          result := Some(use.value(filtered));
        }
      }
    }
  }

  /** Runs the transforms over a value, first to last. */
  method Transform(transforms: seq<Bytes -> Bytes>, value: Bytes) returns (res: Bytes)
    ensures res == Transformed(transforms, value)
  {
    res := value;
    for i := 0 to |transforms|
      invariant res == Transformed(transforms[..i], value)
    {
      assert transforms[..i + 1][..i] == transforms[..i];
      res := transforms[i](res);
    }
    assert transforms[..|transforms|] == transforms;
  }

  /** All values of a bucket, in any order. */
  method AllValues(b: Bucket, transforms: seq<Bytes -> Bytes>) returns (values: seq<Bytes>)
    ensures multiset(values) == Bag(b, transforms)
  {
    values := [];
    var rest := b;
    while rest != map[]
      invariant multiset(values) + Bag(rest, transforms) == Bag(b, transforms)
      decreases |rest|
    {
      assert rest.Keys != {};
      var k :| k in rest.Keys;
      var res := Transform(transforms, rest[k]);
      BagWithout(rest, k, transforms);
      Smaller(rest, k);
      values := values + [res];
      rest := rest - {k};
    }
  }

  function SetOf(names: seq<Bytes>): set<Bytes> {
    set n | n in names
  }

  class Mgd {
    const names: seq<Bytes>  // of the buckets
    var file: Option<Buckets>
    var bdb: bool            // the file is open
    var dirty: bool
    var on: bool             // what the status function says
    var backups: seq<Buckets>

    constructor (names: seq<Bytes>, file: Option<Buckets>)
      ensures this.names == names && State() == Managed(file, false, false, true, [])
    {
      this.names, this.file, bdb, dirty, on, backups := names, file, false, false, true, [];
    }

    function State(): Managed
      reads this
    {
      Managed(file, bdb, dirty, on, backups)
    }

    function Names(): set<Bytes> {
      SetOf(names)
    }

    method Open(io: Io) returns (ok: bool)
      requires !bdb
      modifies `file, `bdb
      ensures (State(), ok) == Opened(Names(), old(State()), io)
    {
      if !io.open {
        return false;
      }
      file, bdb := Some(Contents(file)), true;
      var tx := Contents(file);
      ok := io.buckets;
      for i := 0 to |names|
        invariant tx == WithBuckets(SetOf(names[..i]), Contents(file))
        invariant ok == (io.buckets && [] !in names[..i])
      {
        assert names[..i + 1] == names[..i] + [names[i]];
        if names[i] == [] {
          ok := false;
        }
        if names[i] !in tx {
          tx := tx[names[i] := map[]];
        }
      }
      assert names[..|names|] == names;
      if ok {
        file := Some(tx);
      }
    }

    method Operate(io: Io) returns (error: Option<Error>)
      modifies `file, `bdb, `dirty
      ensures (State(), error) == Store.Operate(Names(), old(State()), io)
    {
      if !on {
        return Some(Disabled);
      }
      dirty := true;
      if !bdb {
        var ok := Open(io);
        if !ok {
          return Some(IoError);
        }
      }
      return None;
    }

    method AddKeyValueToBucket(bucket: Bytes, keyValue: Data, index: Data, io: Io) returns (r: Result)
      modifies this
      ensures (State(), r) == ManagedStep(Names(), old(State()),
          Op.Add(bucket, old(index.Get()), old(keyValue.Get())), io)
    {
      var key, value := index.Get(), keyValue.Get();
      var error := Operate(io);
      if error.Some? {
        return Failed(error.value);
      }
      if bucket !in Contents(file) {
        return Crashed;
      }
      if !io.tx || !BoltTakes(key, value) {
        assert Contents(file)[bucket := Contents(file)[bucket]] == Contents(file);
        return Failed(IoError);
      }
      file := Some(Contents(file)[bucket := Contents(file)[bucket][key := value]]);
      r := Done;
    }

    method RmKeyValueFromBucket(bucket: Bytes, index: Data, io: Io) returns (r: Result)
      modifies this
      ensures (State(), r) == ManagedStep(Names(), old(State()), Op.Rm(bucket, old(index.Get())), io)
    {
      var key := index.Get();
      var error := Operate(io);
      if error.Some? {
        return Failed(error.value);
      }
      if bucket !in Contents(file) {
        return Crashed;
      }
      if !io.tx {
        return Failed(IoError);
      }
      file := Some(Contents(file)[bucket := Contents(file)[bucket] - {key}]);
      r := Done;
    }

    method GetKeyValueFromBucket(bucket: Bytes, index: Data, keyValue: Data, io: Io) returns (r: Result)
      modifies this, keyValue, keyValue.data
      ensures (State(), r) == ManagedStep(Names(), old(State()), Op.Get(bucket, old(index.Get())), io)
      ensures
        if r.Got? && r.found.Some? then keyValue.data[..] == Received(keyValue, old(keyValue.data[..]), r.found.value)
        else keyValue.data == old(keyValue.data) && keyValue.data[..] == old(keyValue.data[..])
    {
      var key := index.Get();
      var error := Operate(io);
      if error.Some? {
        return Failed(error.value);
      }
      if bucket !in Contents(file) {
        return Crashed;
      }
      if !io.tx {
        return Failed(IoError);
      }
      var b := Contents(file)[bucket];
      assert Contents(file)[bucket := b] == Contents(file);
      if key !in b {
        return Got(None);
      }
      keyValue.Set(b[key]);
      r := Got(Some(b[key]));
    }

    method GetAllValuesFromBucket(bucket: Bytes, transforms: seq<Bytes -> Bytes>, io: Io)
      returns (r: Result, values: seq<Bytes>)
      modifies this
      ensures (State(), r) == ManagedStep(Names(), old(State()), Op.GetAll(bucket, transforms), io)
      ensures r.All? ==> multiset(values) == r.values
    {
      values := [];
      var error := Operate(io);
      if error.Some? {
        return Failed(error.value), values;
      }
      if bucket !in Contents(file) {
        return Crashed, values;
      }
      if !io.tx {
        return Failed(IoError), values;
      }
      assert Contents(file)[bucket := Contents(file)[bucket]] == Contents(file);
      values := AllValues(Contents(file)[bucket], transforms);
      r := All(multiset(values));
    }

    method CloseFile(io: Io) returns (ok: bool)
      modifies `bdb
      ensures ok == io.close && bdb == (old(bdb) && !ok)
    {
      ok := io.close;
      if ok {
        bdb := false;
      }
    }

    method Backup(io: Io) returns (r: Result)
      modifies this
      ensures (State(), r) == ManagedStep(Names(), old(State()), Op.Backup, io)
    {
      if !on {
        return Failed(Disabled);
      }
      if !dirty {
        return BackedUp(false);
      }
      if bdb {
        var ok := CloseFile(io);
        if !ok {
          return Failed(IoError);
        }
      }
      if file.None? || !io.copy {
        return Failed(IoError);
      }
      backups := backups + [file.value];
      dirty := false;
      r := BackedUp(true);
    }

    method Wipe(io: Io) returns (r: Result)
      modifies this
      ensures (State(), r) == ManagedStep(Names(), old(State()), Op.Wipe, io)
    {
      if !on {
        return Failed(Disabled);
      }
      if bdb {
        var ok := CloseFile(io);
        if !ok {
          return Failed(IoError);
        }
      }
      if !io.remove {
        return Failed(IoError);
      }
      file := None;
      r := Done;
    }

    method Close(io: Io) returns (r: Result)
      modifies this
      ensures (State(), r) == ManagedStep(Names(), old(State()), Op.Close, io)
    {
      if bdb {
        var ok := CloseFile(io);
        return if ok then Done else Failed(IoError);
      }
      r := Done;
    }

    method SetStatusFn(on: bool)
      modifies this
      ensures State() == ManagedStep(Names(), old(State()), Op.SetStatus(on), AllWell).0
    {
      this.on := on;
    }
  }

  /** What a get leaves in the receiver's buffer. */
  function Received(keyValue: Data, buffer: Bytes, found: Bytes): Bytes {
    if keyValue.write.Some? then keyValue.write.value(found)
    else if keyValue.use.Some? then buffer
    else Overwritten(buffer, found)
  }

  class MemDB {
    var buckets: Buckets
    var on: bool

    constructor (names: seq<Bytes>)
      ensures State() == Memory(map n | n in names :: map[], true)
    {
      buckets, on := map n | n in names :: map[], true;
    }

    function State(): Memory
      reads this
    {
      Memory(buckets, on)
    }

    method AddKeyValueToBucket(bucket: Bytes, keyValue: Data, index: Data) returns (r: Result)
      modifies this
      ensures (State(), r) == MemoryStep(old(State()), Op.Add(bucket, old(index.Get()), old(keyValue.Get())))
    {
      if !on {
        return Failed(Disabled);
      }
      if bucket !in buckets {
        return Crashed;
      }
      var key := index.Get();
      buckets := buckets[bucket := buckets[bucket][key := keyValue.Get()]];
      r := Done;
    }

    method RmKeyValueFromBucket(bucket: Bytes, index: Data) returns (r: Result)
      modifies this
      ensures (State(), r) == MemoryStep(old(State()), Op.Rm(bucket, old(index.Get())))
    {
      if !on {
        return Failed(Disabled);
      }
      if bucket !in buckets {
        return Crashed;
      }
      buckets := buckets[bucket := buckets[bucket] - {index.Get()}];
      r := Done;
    }

    method GetKeyValueFromBucket(bucket: Bytes, index: Data, keyValue: Data) returns (r: Result)
      modifies keyValue, keyValue.data
      ensures (State(), r) == MemoryStep(old(State()), Op.Get(bucket, old(index.Get())))
      ensures
        if r.Got? && r.found.Some? then keyValue.data[..] == Received(keyValue, old(keyValue.data[..]), r.found.value)
        else keyValue.data == old(keyValue.data) && keyValue.data[..] == old(keyValue.data[..])
    {
      if !on {
        return Failed(Disabled);
      }
      if bucket !in buckets {
        return Crashed;
      }
      var key := index.Get();
      if key !in buckets[bucket] {
        return Got(None);
      }
      var d := buckets[bucket][key];
      keyValue.Set(d);
      r := Got(Some(d));
    }

    method GetAllValuesFromBucket(bucket: Bytes, transforms: seq<Bytes -> Bytes>)
      returns (r: Result, values: seq<Bytes>)
      ensures (State(), r) == MemoryStep(State(), Op.GetAll(bucket, transforms))
      ensures r.All? ==> multiset(values) == r.values
    {
      values := [];
      if !on {
        return Failed(Disabled), values;
      }
      if bucket !in buckets {
        return Crashed, values;
      }
      values := AllValues(buckets[bucket], transforms);
      r := All(multiset(values));
    }

    method SetStatusFn(on: bool)
      modifies this
      ensures State() == MemoryStep(old(State()), Op.SetStatus(on)).0
    {
      this.on := on;
    }
  }
}
