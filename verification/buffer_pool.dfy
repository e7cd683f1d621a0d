/**
 * Buffer reuse keyed by (size, usage, flags) (Plywood.Graphics.Core/PwBufferPool.cs).
 *
 * Every buffer the pool ever created is tracked in `info` until a cleanup
 * destroys it; a buffer that is not in use waits in the FIFO queue of its
 * key.  The frame number the source reads from the global frame counter is
 * a parameter, and so is the order in which the cleanup enumerates the
 * tracking dictionary.
 */
module BufferPool {
  import opened Common
  import opened Buffers
  import Gpu

  datatype BufferKey = BufferKey(size: int, usage: BufferUsage, flags: BufferFlags)

  datatype BufferInfo = BufferInfo(key: BufferKey, inUse: bool, createdFrame: int, lastUsedFrame: int)

  datatype Pool = Pool(buckets: map<BufferKey, seq<Buffer>>, info: map<Buffer, BufferInfo>)

  const EmptyPool := Pool(map[], map[])

  /** The frames a buffer may sit unused before `CleanupUnusedBuffers` destroys it by default. */
  const DefaultMaxFramesUnused := 60

  function Bucket(p: Pool, k: BufferKey): seq<Buffer> {
    if k in p.buckets then p.buckets[k] else []
  }

  /** `GetOrAdd`: make sure the key has a (possibly empty) queue. */
  function EnsureBucket(p: Pool, k: BufferKey): (r: Pool)
    ensures k in r.buckets && Bucket(r, k) == Bucket(p, k)
    ensures r.info == p.info
    ensures forall k' :: Bucket(r, k') == Bucket(p, k')
  {
    if k in p.buckets then p else p.(buckets := p.buckets[k := []])
  }

  /**
   * The pool's invariant:
   *  - every queued buffer is tracked, under the key of its queue, and not in use;
   *  - a queue holds a buffer at most once;
   *  - every tracked buffer that is not in use is queued under its key;
   *  - every tracked buffer was minted by the device and matches its key.
   */
  ghost predicate Inv(p: Pool, d: Gpu.Device) {
    && (forall k, i | k in p.buckets && 0 <= i < |p.buckets[k]| ::
          p.buckets[k][i] in p.info && p.info[p.buckets[k][i]].key == k && !p.info[p.buckets[k][i]].inUse)
    && (forall k | k in p.buckets :: Distinct(p.buckets[k]))
    && (forall b | b in p.info && !p.info[b].inUse :: b in Bucket(p, p.info[b].key))
    && (forall b | b in p.info ::
          b.id < d.nextId && p.info[b].key.size == b.size && p.info[b].key.usage == b.usage)
  }

  /** No buffer occurs twice. */
  ghost predicate Distinct(q: seq<Buffer>) {
    forall i, j | 0 <= i < j < |q| :: q[i] != q[j]
  }

  lemma EmptyPoolInv(d: Gpu.Device)
    ensures Inv(EmptyPool, d)
  {
  }

  /** The raw creation call `CreateNewBuffer` makes for each named usage. */
  function RawCreateCall(size: int, usage: BufferUsage, flags: BufferFlags): (r: Gpu.DeviceCall)
    requires !usage.UnnamedUsage?
    ensures r.CreateVertexBufferRaw? <==> usage.Vertex?
    ensures r.CreateIndexBufferRaw? <==> usage.Index?
    ensures r.CreateUniformBufferRaw? <==> usage.Uniform?
    ensures r.CreateInstanceBufferRaw? <==> usage.Instance?
    ensures r.size == size && r.flags == flags
  {
    match usage
    case Vertex => Gpu.CreateVertexBufferRaw(size, flags)
    case Index => Gpu.CreateIndexBufferRaw(size, flags)
    case Uniform => Gpu.CreateUniformBufferRaw(size, flags)
    case Instance => Gpu.CreateInstanceBufferRaw(size, flags)
  }

  /** `CreateNewBuffer`: the usage's raw creation call mints the buffer; any other usage value throws. */
  function CreateNewBuffer(d: Gpu.Device, size: int, usage: BufferUsage, flags: BufferFlags): (r: Result<(Gpu.Device, Buffer)>)
    ensures r.Err? <==> usage.UnnamedUsage?
    ensures r.Err? ==> r.error == UnknownBufferUsage
    ensures r.Ok? ==>
      && r.value.1 == Buffer(d.nextId, size, usage)
      && r.value.0 == Gpu.Device(d.trace + [RawCreateCall(size, usage, flags)], d.nextId + 1)
  {
    if usage.UnnamedUsage? then Err(UnknownBufferUsage)
    else Ok(Gpu.MintBuffer(d, RawCreateCall(size, usage, flags), size, usage))
  }

  /** The pool and device after a rent, and the buffer or the exception. */
  datatype RentOutcome = RentOutcome(pool: Pool, device: Gpu.Device, result: Result<Buffer>)

  /**
   * `RentBuffer`: the head of the key's queue if there is one, otherwise a
   * freshly created buffer.  The queue is created first and the head is
   * dequeued before its tracking entry is looked up, so both survive an
   * exception.
   */
  function Rent(p: Pool, d: Gpu.Device, frame: int, size: int, usage: BufferUsage, flags: BufferFlags): (r: RentOutcome)
    ensures var k := BufferKey(size, usage, flags);
      && (|Bucket(p, k)| > 0 ==>
            && r.device == d
            && Bucket(r.pool, k) == Bucket(p, k)[1..]
            && (r.result.Ok? <==> Bucket(p, k)[0] in p.info)
            && (r.result.Ok? ==> r.result.value == Bucket(p, k)[0]))
      && (|Bucket(p, k)| == 0 && r.result.Ok? ==>
            && r.result.value == Buffer(d.nextId, size, usage)
            && r.device.nextId == d.nextId + 1
            && Bucket(r.pool, k) == [])
      && (|Bucket(p, k)| == 0 ==> (r.result.Err? <==> usage.UnnamedUsage?))
    ensures r.result.Ok? ==>
      && r.result.value in r.pool.info
      && r.pool.info[r.result.value].inUse
      && r.pool.info[r.result.value].lastUsedFrame == frame
    ensures r.result.Err? ==> r.result.error in {MissingBufferInfo, UnknownBufferUsage}
    ensures r.result.Err? ==> r.pool.info == p.info && r.device == d
    ensures var k := BufferKey(size, usage, flags);
      |Bucket(p, k)| > 0 && r.result.Ok? ==>
        var b := Bucket(p, k)[0];
        r.pool.info == p.info[b := p.info[b].(inUse := true, lastUsedFrame := frame)]
    ensures var k := BufferKey(size, usage, flags);
      |Bucket(p, k)| == 0 && r.result.Ok? ==>
        && r.device == Gpu.Device(d.trace + [RawCreateCall(size, usage, flags)], d.nextId + 1)
        && r.pool.info == p.info[r.result.value := BufferInfo(k, true, frame, frame)]
    ensures var k := BufferKey(size, usage, flags);
      forall k' | k' != k :: Bucket(r.pool, k') == Bucket(p, k')
  {
    var k := BufferKey(size, usage, flags);
    var p1 := EnsureBucket(p, k);
    var q := p1.buckets[k];
    if |q| > 0 then
      var b := q[0];
      var p2 := p1.(buckets := p1.buckets[k := q[1..]]);
      if b !in p2.info then RentOutcome(p2, d, Err(MissingBufferInfo))
      else
        var info := p2.info[b].(inUse := true, lastUsedFrame := frame);
        RentOutcome(p2.(info := p2.info[b := info]), d, Ok(b))
    else
      match CreateNewBuffer(d, size, usage, flags)
      case Err(e) => RentOutcome(p1, d, Err(e))
      case Ok((d2, b)) =>
        RentOutcome(p1.(info := p1.info[b := BufferInfo(k, true, frame, frame)]), d2, Ok(b))
  }

  /**
   * `ReturnBuffer`: an untracked buffer is ignored; a tracked one is marked
   * free and enqueued under the key it was rented with.
   */
  function Return(p: Pool, b: Buffer): (r: Pool)
    ensures b !in p.info ==> r == p
    ensures b in p.info ==>
      && r.info == p.info[b := p.info[b].(inUse := false)]
      && Bucket(r, p.info[b].key) == Bucket(p, p.info[b].key) + [b]
      && (forall k | k != p.info[b].key :: Bucket(r, k) == Bucket(p, k))
  {
    if b !in p.info then p
    else
      var info := p.info[b].(inUse := false);
      var p1 := EnsureBucket(p, info.key);
      Pool(p1.buckets[info.key := p1.buckets[info.key] + [b]], p.info[b := info])
  }

  // ---------------------------------------------------------------------------
  // Invariant preservation

  lemma RentPreservesInv(p: Pool, d: Gpu.Device, frame: int, size: int, usage: BufferUsage, flags: BufferFlags)
    requires Inv(p, d)
    ensures Inv(Rent(p, d, frame, size, usage, flags).pool, Rent(p, d, frame, size, usage, flags).device)
  {
    var k := BufferKey(size, usage, flags);
    if |Bucket(p, k)| > 0 {
      DequeuePreservesInv(p, d, k, frame);
    } else {
      var r := Rent(p, d, frame, size, usage, flags);
      if r.result.Ok? {
        FreshPreservesInv(EnsureBucket(p, k), d, r.device, r.result.value, k, frame);
      }
    }
  }

  /** Taking the head of a queue and marking it in use keeps the invariant. */
  lemma DequeuePreservesInv(p: Pool, d: Gpu.Device, k: BufferKey, frame: int)
    requires Inv(p, d) && |Bucket(p, k)| > 0
    ensures var q := p.buckets[k];
      && q[0] in p.info
      && Inv(Pool(p.buckets[k := q[1..]], p.info[q[0] := p.info[q[0]].(inUse := true, lastUsedFrame := frame)]), d)
  {
    var q := p.buckets[k];
    var b := q[0];
    assert b in p.info && p.info[b].key == k;
    var r := Pool(p.buckets[k := q[1..]], p.info[b := p.info[b].(inUse := true, lastUsedFrame := frame)]);
    forall k', i | k' in r.buckets && 0 <= i < |r.buckets[k']|
      ensures r.buckets[k'][i] != b
      ensures r.buckets[k'][i] in p.info && p.info[r.buckets[k'][i]].key == k'
      ensures !p.info[r.buckets[k'][i]].inUse
    {
      if k' == k {
        assert r.buckets[k'][i] == q[i + 1];
      } else {
        assert r.buckets[k'][i] == p.buckets[k'][i];
      }
    }
    forall k' | k' in r.buckets
      ensures Distinct(r.buckets[k'])
    {
      if k' == k {
        assert forall i | 0 <= i < |q| - 1 :: r.buckets[k][i] == q[i + 1];
      }
    }
    forall c | c in r.info && !r.info[c].inUse
      ensures c in Bucket(r, r.info[c].key)
    {
      DequeueKeepsOthersQueued(p, d, k, r, c);
    }
    forall c | c in r.info
      ensures c.id < d.nextId && r.info[c].key.size == c.size && r.info[c].key.usage == c.usage
    {
      assert r.info[c].key == p.info[c].key;
    }
  }

  /** After the head of `k`'s queue leaves it, every other idle buffer is still queued under its key. */
  lemma DequeueKeepsOthersQueued(p: Pool, d: Gpu.Device, k: BufferKey, r: Pool, c: Buffer)
    requires Inv(p, d) && |Bucket(p, k)| > 0
    requires r.buckets == p.buckets[k := p.buckets[k][1..]]
    requires c in p.info && !p.info[c].inUse && c != p.buckets[k][0]
    ensures c in Bucket(r, p.info[c].key)
  {
    var q := p.buckets[k];
    assert c in Bucket(p, p.info[c].key);
    if p.info[c].key == k {
      var i :| 0 <= i < |q| && q[i] == c;
      assert i != 0;
      assert Bucket(r, k)[i - 1] == c;
    }
  }

  /** Tracking a freshly minted buffer as in use keeps the invariant. */
  lemma FreshPreservesInv(p: Pool, d: Gpu.Device, d2: Gpu.Device, b: Buffer, k: BufferKey, frame: int)
    requires Inv(p, d) && b.id == d.nextId && d2.nextId == d.nextId + 1
    requires k.size == b.size && k.usage == b.usage
    ensures Inv(p.(info := p.info[b := BufferInfo(k, true, frame, frame)]), d2)
  {
    var r := p.(info := p.info[b := BufferInfo(k, true, frame, frame)]);
    assert b !in p.info;
    forall c | c in r.info && !r.info[c].inUse
      ensures c in Bucket(r, r.info[c].key)
    {
      assert c in Bucket(p, p.info[c].key);
    }
  }

  lemma ReturnPreservesInv(p: Pool, d: Gpu.Device, b: Buffer)
    requires Inv(p, d)
    requires b in p.info ==> p.info[b].inUse
    ensures Inv(Return(p, b), d)
  {
    if b in p.info {
      var r := Return(p, b);
      var k := p.info[b].key;
      forall k', i | k' in p.buckets && 0 <= i < |p.buckets[k']|
        ensures p.buckets[k'][i] != b
      {
      }
      forall k', i | k' in r.buckets && 0 <= i < |r.buckets[k']|
        ensures r.buckets[k'][i] in r.info && r.info[r.buckets[k'][i]].key == k' && !r.info[r.buckets[k'][i]].inUse
      {
        if k' == k && i == |Bucket(p, k)| {
          assert r.buckets[k'][i] == b;
        } else {
          assert r.buckets[k'][i] == p.buckets[k'][i];
        }
      }
      forall c | c in r.info && !r.info[c].inUse
        ensures c in Bucket(r, r.info[c].key)
      {
        if c == b {
          assert Bucket(r, k)[|Bucket(p, k)|] == b;
        } else {
          var i :| 0 <= i < |Bucket(p, p.info[c].key)| && Bucket(p, p.info[c].key)[i] == c;
          assert Bucket(r, p.info[c].key)[i] == c;
        }
      }
    }
  }

  // ---------------------------------------------------------------------------
  // Reuse

  /** With the invariant, a rent never loses a buffer's tracking entry, and every result matches the request. */
  lemma RentMatchesRequest(p: Pool, d: Gpu.Device, frame: int, size: int, usage: BufferUsage, flags: BufferFlags)
    requires Inv(p, d)
    ensures var r := Rent(p, d, frame, size, usage, flags);
      && (r.result.Err? <==> (usage.UnnamedUsage? && |Bucket(p, BufferKey(size, usage, flags))| == 0))
      && (r.result.Ok? ==> r.result.value.size == size && r.result.value.usage == usage
                            && r.pool.info[r.result.value].key == BufferKey(size, usage, flags))
  {
    var k := BufferKey(size, usage, flags);
    if |Bucket(p, k)| > 0 {
      assert Bucket(p, k)[0] in p.info;
    }
  }

  /** A buffer returned to an empty queue is the next one rented for its key, and no device call is made. */
  lemma ReturnThenRentReuses(p: Pool, d: Gpu.Device, b: Buffer, frame: int)
    requires b in p.info
    requires |Bucket(p, p.info[b].key)| == 0
    ensures var k := p.info[b].key;
      var r := Rent(Return(p, b), d, frame, k.size, k.usage, k.flags);
      r.result == Ok(b) && r.device == d && |Bucket(r.pool, k)| == 0
  {
  }

  /**
   * Returning the same buffer twice queues it twice, so two later rents
   * hand the same buffer to two callers.  The pool does not guard against
   * a double return; its invariant needs the caller not to make one.
   */
  lemma DoubleReturnHandsOutTwice(p: Pool, d: Gpu.Device, b: Buffer, frame: int)
    requires b in p.info
    requires |Bucket(p, p.info[b].key)| == 0
    ensures var k := p.info[b].key;
      var p2 := Return(Return(p, b), b);
      var r1 := Rent(p2, d, frame, k.size, k.usage, k.flags);
      var r2 := Rent(r1.pool, r1.device, frame, k.size, k.usage, k.flags);
      r1.result == Ok(b) && r2.result == Ok(b)
  {
    var k := p.info[b].key;
    var p2 := Return(Return(p, b), b);
    assert Bucket(p2, k) == [b, b];
  }

  // ---------------------------------------------------------------------------
  // Cleanup

  /** The cleanup's selection: free, and idle for more than `maxFramesUnused` frames. */
  predicate Stale(info: BufferInfo, frame: int, maxFramesUnused: int) {
    !info.inUse && frame - info.lastUsedFrame > maxFramesUnused
  }

  /** The stale buffers of an enumeration of the tracking dictionary, in enumeration order. */
  function StaleInOrder(p: Pool, order: seq<Buffer>, frame: int, maxFramesUnused: int): (r: seq<Buffer>)
    requires forall i | 0 <= i < |order| :: order[i] in p.info
    ensures forall b :: b in r <==> b in order && Stale(p.info[b], frame, maxFramesUnused)
    ensures |r| <= |order|
    decreases |order|
  {
    if order == [] then []
    else
      (if Stale(p.info[order[0]], frame, maxFramesUnused) then [order[0]] else [])
      + StaleInOrder(p, order[1..], frame, maxFramesUnused)
  }

  /** One `DestroyBuffer` call per buffer, in order. */
  function DestroyAll(d: Gpu.Device, bs: seq<Buffer>): (r: Gpu.Device)
    ensures r.nextId == d.nextId
    ensures |r.trace| == |d.trace| + |bs|
    ensures r.trace[..|d.trace|] == d.trace
    ensures forall i | 0 <= i < |bs| :: r.trace[|d.trace| + i] == Gpu.DestroyBuffer(bs[i])
    decreases |bs|
  {
    if bs == [] then d
    else
      var d' := DestroyAll(Gpu.Issue(d, Gpu.DestroyBuffer(bs[0])), bs[1..]);
      assert d'.trace[..|d.trace|] == d'.trace[..|d.trace| + 1][..|d.trace|];
      d'
  }

  /** `order` enumerates the tracking dictionary, each key once. */
  predicate Enumerates(p: Pool, order: seq<Buffer>) {
    && (forall b | b in p.info :: b in order)
    && (forall i | 0 <= i < |order| :: order[i] in p.info)
    && (forall i, j | 0 <= i < j < |order| :: order[i] != order[j])
  }

  /**
   * `CleanupUnusedBuffers` as written: stale buffers are dropped from the
   * tracking dictionary and destroyed, but stay in their queues.
   */
  function CleanupAsWritten(p: Pool, d: Gpu.Device, frame: int, maxFramesUnused: int, order: seq<Buffer>): (r: (Pool, Gpu.Device))
    requires Enumerates(p, order)
    ensures forall b :: b in r.0.info <==> b in p.info && !Stale(p.info[b], frame, maxFramesUnused)
    ensures forall b | b in r.0.info :: r.0.info[b] == p.info[b]
    ensures r.0.buckets == p.buckets
    ensures r.1 == DestroyAll(d, StaleInOrder(p, order, frame, maxFramesUnused))
  {
    var stale := StaleInOrder(p, order, frame, maxFramesUnused);
    var info := map b | b in p.info && !Stale(p.info[b], frame, maxFramesUnused) :: p.info[b];
    (p.(info := info), DestroyAll(d, stale))
  }

  /**
   * A queued buffer that the cleanup destroys is still handed out by the
   * next rent, whose tracking lookup then throws: the pool now fails every
   * rent for that key until the queue is drained.
   */
  lemma CleanupLeavesDestroyedBufferQueued()
    ensures var k := BufferKey(64, Vertex, NoFlags);
      var b := Buffer(0, 64, Vertex);
      var p := Pool(map[k := [b]], map[b := BufferInfo(k, false, 0, 0)]);
      var d := Gpu.Device([], 1);
      && Inv(p, d)
      && var (p2, d2) := CleanupAsWritten(p, d, 61, DefaultMaxFramesUnused, [b]);
      && d2.trace == [Gpu.DestroyBuffer(b)]
      && !Inv(p2, d2)
      && Rent(p2, d2, 61, 64, Vertex, NoFlags).result == Err(MissingBufferInfo)
  {
    var k := BufferKey(64, Vertex, NoFlags);
    var b := Buffer(0, 64, Vertex);
    var p := Pool(map[k := [b]], map[b := BufferInfo(k, false, 0, 0)]);
    assert StaleInOrder(p, [b], 61, DefaultMaxFramesUnused) == [b];
  }

  /** Remove every buffer of `gone` from a queue, keeping the order of the rest. */
  function Purge(q: seq<Buffer>, gone: set<Buffer>): (r: seq<Buffer>)
    ensures forall b :: b in r <==> b in q && b !in gone
    ensures |r| <= |q|
    decreases |q|
  {
    if q == [] then []
    else (if q[0] in gone then [] else [q[0]]) + Purge(q[1..], gone)
  }

  lemma {:induction false} PurgeKeepsDistinct(q: seq<Buffer>, gone: set<Buffer>)
    requires Distinct(q)
    ensures Distinct(Purge(q, gone))
    decreases |q|
  {
    if q != [] {
      var t := Purge(q[1..], gone);
      PurgeKeepsDistinct(q[1..], gone);
      if q[0] !in gone {
        var r := Purge(q, gone);
        assert r == [q[0]] + t;
        assert q[0] !in q[1..];
        assert q[0] !in t;
        forall i, j | 0 <= i < j < |r| ensures r[i] != r[j] {
          if i == 0 {
            assert r[j] == t[j - 1];
          } else {
            assert r[i] == t[i - 1] && r[j] == t[j - 1];
          }
        }
      } else {
        assert Purge(q, gone) == t;
      }
    }
  }

  /** The pool without the buffers of `gone`: untracked, and purged from every queue. */
  function RemoveBuffers(p: Pool, gone: set<Buffer>): (r: Pool)
    ensures forall b :: b in r.info <==> b in p.info && b !in gone
    ensures forall b | b in r.info :: r.info[b] == p.info[b]
    ensures forall k :: Bucket(r, k) == Purge(Bucket(p, k), gone)
  {
    var r := Pool(map k | k in p.buckets :: Purge(p.buckets[k], gone),
                  map b | b in p.info && b !in gone :: p.info[b]);
    r
  }

  lemma RemoveBuffersPreservesInv(p: Pool, d: Gpu.Device, gone: set<Buffer>)
    requires Inv(p, d)
    ensures Inv(RemoveBuffers(p, gone), d)
  {
    var r := RemoveBuffers(p, gone);
    forall k | k in r.buckets
      ensures Distinct(r.buckets[k])
    {
      assert r.buckets[k] == Purge(p.buckets[k], gone);
      PurgeKeepsDistinct(p.buckets[k], gone);
    }
    forall k, i | k in r.buckets && 0 <= i < |r.buckets[k]|
      ensures r.buckets[k][i] in r.info && r.info[r.buckets[k][i]].key == k && !r.info[r.buckets[k][i]].inUse
    {
      var c := r.buckets[k][i];
      assert c in Bucket(r, k);
      var j :| 0 <= j < |p.buckets[k]| && p.buckets[k][j] == c;
    }
  }

  /**
   * The cleanup as evidently intended: a destroyed buffer also leaves its
   * queue, so the pool never hands it out again.
   */
  function CleanupAndPurge(p: Pool, d: Gpu.Device, frame: int, maxFramesUnused: int, order: seq<Buffer>): (r: (Pool, Gpu.Device))
    requires Enumerates(p, order)
    ensures forall b :: b in r.0.info <==> b in p.info && !Stale(p.info[b], frame, maxFramesUnused)
    ensures forall b | b in r.0.info :: r.0.info[b] == p.info[b]
    ensures forall k, b :: b in Bucket(r.0, k) <==> b in Bucket(p, k) && !(b in p.info && Stale(p.info[b], frame, maxFramesUnused))
    ensures r.1 == DestroyAll(d, StaleInOrder(p, order, frame, maxFramesUnused))
  {
    var gone := set b | b in p.info && Stale(p.info[b], frame, maxFramesUnused);
    (RemoveBuffers(p, gone), DestroyAll(d, StaleInOrder(p, order, frame, maxFramesUnused)))
  }

  lemma CleanupAndPurgePreservesInv(p: Pool, d: Gpu.Device, frame: int, maxFramesUnused: int, order: seq<Buffer>)
    requires Inv(p, d) && Enumerates(p, order)
    ensures var (p2, d2) := CleanupAndPurge(p, d, frame, maxFramesUnused, order); Inv(p2, d2)
  {
    var gone := set b | b in p.info && Stale(p.info[b], frame, maxFramesUnused);
    RemoveBuffersPreservesInv(p, d, gone);
    var (p2, d2) := CleanupAndPurge(p, d, frame, maxFramesUnused, order);
    assert p2 == RemoveBuffers(p, gone);
    assert d2.nextId == d.nextId;
  }

  /** After the corrected cleanup, a rent never fails for lack of a tracking entry. */
  lemma RentAfterPurgeNeverMissesInfo(p: Pool, d: Gpu.Device, frame: int, maxFramesUnused: int, order: seq<Buffer>,
                                      size: int, usage: BufferUsage, flags: BufferFlags)
    requires Inv(p, d) && Enumerates(p, order)
    ensures var (p2, d2) := CleanupAndPurge(p, d, frame, maxFramesUnused, order);
      Rent(p2, d2, frame, size, usage, flags).result != Err(MissingBufferInfo)
  {
    var (p2, d2) := CleanupAndPurge(p, d, frame, maxFramesUnused, order);
    CleanupAndPurgePreservesInv(p, d, frame, maxFramesUnused, order);
    RentMatchesRequest(p2, d2, frame, size, usage, flags);
  }

  /** The corrected cleanup destroys each stale buffer exactly once and nothing else. */
  lemma CleanupDestroysExactlyStale(p: Pool, d: Gpu.Device, frame: int, maxFramesUnused: int, order: seq<Buffer>, b: Buffer)
    requires Enumerates(p, order)
    ensures var (_, d2) := CleanupAndPurge(p, d, frame, maxFramesUnused, order);
      Gpu.DestroyBuffer(b) in d2.trace[|d.trace|..] <==> b in p.info && Stale(p.info[b], frame, maxFramesUnused)
  {
    var stale := StaleInOrder(p, order, frame, maxFramesUnused);
    var d2 := DestroyAll(d, stale);
    var tail := d2.trace[|d.trace|..];
    assert |tail| == |stale|;
    assert forall i | 0 <= i < |stale| :: tail[i] == Gpu.DestroyBuffer(stale[i]);
    if Gpu.DestroyBuffer(b) in tail {
      var i :| 0 <= i < |tail| && tail[i] == Gpu.DestroyBuffer(b);
      assert stale[i] == b;
      assert b in stale;
      var j :| 0 <= j < |order| && order[j] == b;
      assert b in p.info;
    }
    if b in p.info && Stale(p.info[b], frame, maxFramesUnused) {
      assert b in order;
      assert b in stale;
      var i :| 0 <= i < |stale| && stale[i] == b;
      assert tail[i] == Gpu.DestroyBuffer(b);
    }
  }
}
