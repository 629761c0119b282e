/**
 pg_listener: long messages arrive as chunks, interleaved with each other and
 with plain notifications, and are put together again. The hash and the JSON
 decoder are parameters.
 */
module ChunkAssembler {
  import opened Wrappers
  import opened EventTree
  import opened Sequences

  datatype Chunk = Chunk(uuid: string, count: int, text: string, xxHash: string)

  // A notification whose payload was decoded, or why it was not.
  datatype Notification =
    | Plain(data: Json)
    | Chunked(chunk: Chunk)
    | MissingChunkKey
    | UndecodablePayload

  datatype Error = MissingKeyError | DecodeError

  type Cache = map<string, seq<Chunk>>

  datatype Codec = Codec(hash: string -> string, decode: string -> Option<Json>)

  function Concat(chunks: seq<Chunk>): string {
    if chunks == [] then "" else Concat(chunks[..|chunks| - 1]) + chunks[|chunks| - 1].text
  }

  // What one notification does to the cache, what it delivers, and whether it
  // ends the processing.
  datatype Effect = Effect(cache: Cache, delivered: seq<Json>, error: Option<Error>)

  function Appended(cache: Cache, c: Chunk): seq<Chunk> {
    (if c.uuid in cache then cache[c.uuid] else []) + [c]
  }

  function HandleChunk(cache: Cache, c: Chunk, codec: Codec): Effect {
    var chunks := Appended(cache, c);
    if |chunks| != chunks[0].count then Effect(cache[c.uuid := chunks], [], None)
    else
      var text := Concat(chunks);
      var rest := cache[c.uuid := chunks] - {c.uuid};
      if codec.hash(text) != chunks[0].xxHash then Effect(rest, [], None)
      else
        match codec.decode(text)
        case Some(data) => Effect(rest, [data], None)
        case None => Effect(rest, [], Some(DecodeError))
  }

  function Handle(cache: Cache, n: Notification, codec: Codec): Effect {
    match n
    case Plain(data) => Effect(cache, [data], None)
    case Chunked(c) => HandleChunk(cache, c, codec)
    case MissingChunkKey => Effect(cache, [], Some(MissingKeyError))
    case UndecodablePayload => Effect(cache, [], Some(DecodeError))
  }

  // All notifications, up to the first error.
  function HandleAll(ns: seq<Notification>, codec: Codec): Effect {
    if ns == [] then Effect(map[], [], None)
    else
      var before := HandleAll(ns[..|ns| - 1], codec);
      if before.error.Some? then before
      else
        var e := Handle(before.cache, ns[|ns| - 1], codec);
        Effect(e.cache, before.delivered + e.delivered, e.error)
  }

  // The chunks of one message among the notifications, in order of arrival.
  function Stream(ns: seq<Notification>, uuid: string): seq<Chunk> {
    if ns == [] then []
    else
      var last := ns[|ns| - 1];
      Stream(ns[..|ns| - 1], uuid) + if last.Chunked? && last.chunk.uuid == uuid then [last.chunk] else []
  }

  predicate BelongsTo(n: Notification, uuid: string) {
    n.Chunked? && n.chunk.uuid == uuid
  }

  // --- Complete streams in any interleaving ------------------------------------

  // The sender's promise for one message: its first chunk announces how many
  // there are and the hash of the whole, and the whole is JSON.
  predicate CompleteMessage(chunks: seq<Chunk>, codec: Codec) {
    chunks != [] ==>
      && chunks[0].count == |chunks|
      && codec.hash(Concat(chunks)) == chunks[0].xxHash
      && codec.decode(Concat(chunks)).Some?
  }

  ghost predicate CompleteStreams(ns: seq<Notification>, codec: Codec) {
    && (forall i :: 0 <= i < |ns| ==> ns[i].Plain? || ns[i].Chunked?)
    && (forall uuid: string :: CompleteMessage(Stream(ns, uuid), codec))
  }

  // Notification i brings the last chunk of its message.
  predicate Completes(ns: seq<Notification>, i: nat)
    requires i < |ns|
  {
    ns[i].Chunked? && |Stream(ns[..i + 1], ns[i].chunk.uuid)| == |Stream(ns, ns[i].chunk.uuid)|
  }

  // What the first n notifications should deliver: plain data at once, a
  // message when its last chunk arrives.
  function Expected(ns: seq<Notification>, n: nat, codec: Codec): seq<Json>
    requires n <= |ns|
  {
    if n == 0 then []
    else
      Expected(ns, n - 1, codec) +
      match ns[n - 1]
      case Plain(data) => [data]
      case Chunked(c) =>
        if Completes(ns, n - 1) && codec.decode(Concat(Stream(ns, c.uuid))).Some?
        then [codec.decode(Concat(Stream(ns, c.uuid))).value] else []
      case _ => []
  }

  lemma {:induction false} StreamGrows(ns: seq<Notification>, n: nat, uuid: string)
    requires n <= |ns|
    ensures Stream(ns[..n], uuid) <= Stream(ns, uuid)
    decreases |ns|
  {
    if n == |ns| {
      assert ns[..n] == ns;
    } else {
      StreamGrows(ns[..|ns| - 1], n, uuid);
      assert ns[..|ns| - 1][..n] == ns[..n];
    }
  }

  lemma StreamStep(ns: seq<Notification>, n: nat, uuid: string)
    requires n < |ns|
    ensures Stream(ns[..n + 1], uuid)
            == Stream(ns[..n], uuid) + if ns[n].Chunked? && ns[n].chunk.uuid == uuid then [ns[n].chunk] else []
    ensures Stream(ns[..n + 1], uuid) <= Stream(ns, uuid)
  {
    assert ns[..n + 1][..n] == ns[..n];
    StreamGrows(ns, n + 1, uuid);
  }

  // The cache after n notifications: the streams begun and not complete.
  ghost predicate CacheOk(cache: Cache, ns: seq<Notification>, n: nat)
    requires n <= |ns|
  {
    forall uuid: string :: CachedAt(cache, Stream(ns[..n], uuid), Stream(ns, uuid), uuid)
  }

  predicate CachedAt(cache: Cache, got: seq<Chunk>, all: seq<Chunk>, uuid: string) {
    if 0 < |got| < |all| then uuid in cache && cache[uuid] == got else uuid !in cache
  }

  lemma {:induction false} PrefixHandled(ns: seq<Notification>, n: nat, codec: Codec)
    requires CompleteStreams(ns, codec) && n <= |ns|
    ensures var e := HandleAll(ns[..n], codec);
            e.error.None? && e.delivered == Expected(ns, n, codec) && CacheOk(e.cache, ns, n)
  {
    if n > 0 {
      PrefixHandled(ns, n - 1, codec);
      assert ns[..n][..n - 1] == ns[..n - 1];
      var before := HandleAll(ns[..n - 1], codec);
      OneHandled(ns, n - 1, before.cache, codec);
    }
  }

  // One more chunk c of a message, of which `before` had come and `all` will.
  lemma ChunkHandled(cache: Cache, c: Chunk, codec: Codec, before: seq<Chunk>, all: seq<Chunk>)
    requires CachedAt(cache, before, all, c.uuid) && before + [c] <= all && CompleteMessage(all, codec)
    ensures var e, got := HandleChunk(cache, c, codec), before + [c];
            && e.error.None? && CachedAt(e.cache, got, all, c.uuid)
            && (forall u: string :: u != c.uuid ==> SameAt(cache, e.cache, u))
            && e.delivered == DeliveredBy(got, all, codec)
  {
    var got := before + [c];
    assert Appended(cache, c) == got && got[0] == all[0];
    if |got| == |all| {
      assert got == all;
    }
  }

  predicate SameAt(cache: Cache, cache': Cache, uuid: string) {
    (uuid in cache' <==> uuid in cache) && (uuid in cache ==> cache'[uuid] == cache[uuid])
  }

  // The message, when its last chunk has come.
  function DeliveredBy(got: seq<Chunk>, all: seq<Chunk>, codec: Codec): seq<Json> {
    if |got| == |all| && codec.decode(Concat(all)).Some? then [codec.decode(Concat(all)).value] else []
  }

  lemma SameStaysCached(cache: Cache, cache': Cache, got: seq<Chunk>, all: seq<Chunk>, uuid: string)
    requires CachedAt(cache, got, all, uuid) && SameAt(cache, cache', uuid)
    ensures CachedAt(cache', got, all, uuid)
  {
  }

  lemma {:induction false} ExpectedStep(ns: seq<Notification>, n: nat, codec: Codec)
    requires n < |ns|
    ensures ns[n].Plain? ==> Expected(ns, n + 1, codec) == Expected(ns, n, codec) + [ns[n].data]
    ensures ns[n].Chunked? ==>
      Expected(ns, n + 1, codec)
      == Expected(ns, n, codec) + DeliveredBy(Stream(ns[..n + 1], ns[n].chunk.uuid), Stream(ns, ns[n].chunk.uuid), codec)
  {
  }

  lemma {:induction false} OneHandled(ns: seq<Notification>, n: nat, cache: Cache, codec: Codec)
    requires CompleteStreams(ns, codec) && n < |ns| && CacheOk(cache, ns, n)
    ensures var e := Handle(cache, ns[n], codec);
            && e.error.None? && CacheOk(e.cache, ns, n + 1)
            && Expected(ns, n + 1, codec) == Expected(ns, n, codec) + e.delivered
  {
    var e := Handle(cache, ns[n], codec);
    ExpectedStep(ns, n, codec);
    if ns[n].Chunked? {
      StreamStep(ns, n, ns[n].chunk.uuid);
      ChunkHandled(cache, ns[n].chunk, codec, Stream(ns[..n], ns[n].chunk.uuid), Stream(ns, ns[n].chunk.uuid));
    }
    forall uuid: string ensures CachedAt(e.cache, Stream(ns[..n + 1], uuid), Stream(ns, uuid), uuid) {
      StreamStep(ns, n, uuid);
      if !BelongsTo(ns[n], uuid) {
        SameStaysCached(cache, e.cache, Stream(ns[..n], uuid), Stream(ns, uuid), uuid);
      }
    }
  }

  // Any interleaving of complete streams with plain notifications: nothing
  // fails, every plain datum is delivered when it arrives and every message
  // when its last chunk does, and the cache ends empty.
  lemma CompleteStreamsDelivered(ns: seq<Notification>, codec: Codec)
    requires CompleteStreams(ns, codec)
    ensures HandleAll(ns, codec) == Effect(map[], Expected(ns, |ns|, codec), None)
  {
    PrefixHandled(ns, |ns|, codec);
    assert ns[..|ns|] == ns;
    var cache := HandleAll(ns, codec).cache;
    forall uuid: string ensures uuid !in cache {
      assert CachedAt(cache, Stream(ns[..|ns|], uuid), Stream(ns, uuid), uuid);
    }
    assert cache == map[];
  }

  // Each message is delivered exactly once: one notification completes it.
  lemma {:induction false} CompletedExactlyOnce(ns: seq<Notification>, uuid: string)
    requires Stream(ns, uuid) != []
    ensures exists i :: 0 <= i < |ns| && BelongsTo(ns[i], uuid) && Completes(ns, i)
    ensures forall i, j :: (0 <= i < j < |ns| && BelongsTo(ns[i], uuid) && BelongsTo(ns[j], uuid)) ==>
      !(Completes(ns, i) && Completes(ns, j))
  {
    var i := LastOfStream(ns, uuid);
    StreamStep(ns, i, uuid);
    forall i, j | 0 <= i < j < |ns| && BelongsTo(ns[i], uuid) && BelongsTo(ns[j], uuid)
      ensures !(Completes(ns, i) && Completes(ns, j))
    {
      StreamStep(ns, j, uuid);
      StreamGrows(ns[..j], i + 1, uuid);
      assert ns[..j][..i + 1] == ns[..i + 1];
    }
  }

  lemma {:induction false} LastOfStream(ns: seq<Notification>, uuid: string) returns (i: nat)
    requires Stream(ns, uuid) != []
    ensures i < |ns| && ns[i].Chunked? && ns[i].chunk.uuid == uuid
    ensures Stream(ns[..i + 1], uuid) == Stream(ns, uuid)
    decreases |ns|
  {
    var last := |ns| - 1;
    if ns[last].Chunked? && ns[last].chunk.uuid == uuid {
      i := last;
      assert ns[..i + 1] == ns;
    } else {
      i := LastOfStream(ns[..last], uuid);
      assert ns[..last][..i + 1] == ns[..i + 1];
    }
  }

  // --- Arbitrary arrivals ---------------------------------------------------------

  // data arrived as such, or is what consecutive chunks of one message decode
  // to, when their text has the hash the first of them declares.
  ghost predicate Justified(data: Json, ns: seq<Notification>, codec: Codec) {
    || (exists i :: 0 <= i < |ns| && ns[i] == Plain(data))
    || (exists uuid: string, a: nat, b: nat :: JustifiedByChunks(data, ns, codec, uuid, a, b))
  }

  ghost predicate JustifiedByChunks(data: Json, ns: seq<Notification>, codec: Codec, uuid: string, a: nat, b: nat) {
    var stream := Stream(ns, uuid);
    && a < b <= |stream|
    && stream[a].count == b - a
    && codec.hash(Concat(stream[a..b])) == stream[a].xxHash
    && codec.decode(Concat(stream[a..b])) == Some(data)
  }

  // What is cached for a message are its latest chunks.
  ghost predicate CachedTail(cache: Cache, ns: seq<Notification>, uuid: string) {
    uuid in cache ==> cache[uuid] != [] && exists a: nat :: a <= |Stream(ns, uuid)| && cache[uuid] == Stream(ns, uuid)[a..]
  }

  lemma {:induction false} JustifiedStays(data: Json, ns: seq<Notification>, n: Notification, codec: Codec)
    requires Justified(data, ns, codec)
    ensures Justified(data, ns + [n], codec)
  {
    if i :| 0 <= i < |ns| && ns[i] == Plain(data) {
      assert (ns + [n])[i] == Plain(data);
    } else {
      var uuid: string, a: nat, b: nat :| JustifiedByChunks(data, ns, codec, uuid, a, b);
      StreamGrows(ns + [n], |ns|, uuid);
      assert (ns + [n])[..|ns|] == ns;
      var stream, longer := Stream(ns, uuid), Stream(ns + [n], uuid);
      assert longer[a..b] == stream[a..b];
      assert JustifiedByChunks(data, ns + [n], codec, uuid, a, b);
    }
  }

  // However chunks arrive, are lost, repeated or mixed up: whatever is
  // delivered is justified.
  lemma {:induction false} DeliveredIsJustified(ns: seq<Notification>, codec: Codec)
    ensures var e := HandleAll(ns, codec);
            && (forall data :: data in e.delivered ==> Justified(data, ns, codec))
            && (e.error.None? ==> forall uuid: string :: CachedTail(e.cache, ns, uuid))
    decreases |ns|
  {
    if ns != [] {
      var front, n := ns[..|ns| - 1], ns[|ns| - 1];
      assert ns == front + [n];
      DeliveredIsJustified(front, codec);
      var before := HandleAll(front, codec);
      forall data | data in before.delivered ensures Justified(data, ns, codec) {
        JustifiedStays(data, front, n, codec);
      }
      if before.error.None? {
        NextIsJustified(front, n, before.cache, codec);
      }
    }
  }

  lemma OtherKeys<K, V>(m: map<K, V>, k: K, v: V, u: K)
    requires u != k
    ensures u in m[k := v] <==> u in m
    ensures u in m[k := v] - {k} <==> u in m
    ensures u in m ==> m[k := v][u] == m[u] && (m[k := v] - {k})[u] == m[u]
  {
  }

  lemma OthersKept(cache: Cache, n: Notification, codec: Codec, uuid: string)
    requires !BelongsTo(n, uuid)
    ensures SameAt(cache, Handle(cache, n, codec).cache, uuid)
  {
    if n.Chunked? {
      OtherKeys(cache, n.chunk.uuid, Appended(cache, n.chunk), uuid);
    }
  }

  lemma {:induction false} NextIsJustified(ns: seq<Notification>, n: Notification, cache: Cache, codec: Codec)
    requires forall uuid: string :: CachedTail(cache, ns, uuid)
    ensures var e := Handle(cache, n, codec);
            && (forall data :: data in e.delivered ==> Justified(data, ns + [n], codec))
            && (forall uuid: string :: CachedTail(e.cache, ns + [n], uuid))
  {
    var all, e := ns + [n], Handle(cache, n, codec);
    if n.Chunked? {
      assert CachedTail(cache, ns, n.chunk.uuid);
      ChunkIsJustified(ns, n.chunk, cache, codec);
    } else if n.Plain? {
      assert all[|ns|] == n;
    }
    forall uuid: string ensures CachedTail(e.cache, all, uuid) {
      if !BelongsTo(n, uuid) {
        OthersKept(cache, n, codec, uuid);
        OtherTail(cache, e.cache, ns, n, uuid);
      }
    }
  }

  lemma {:induction false} OtherTail(cache: Cache, cache': Cache, ns: seq<Notification>, n: Notification, uuid: string)
    requires CachedTail(cache, ns, uuid) && !BelongsTo(n, uuid)
    requires uuid in cache' ==> uuid in cache && cache'[uuid] == cache[uuid]
    ensures CachedTail(cache', ns + [n], uuid)
  {
    assert (ns + [n])[..|ns|] == ns && (ns + [n])[..|ns| + 1] == ns + [n];
    StreamStep(ns + [n], |ns|, uuid);
    assert Stream(ns + [n], uuid) == Stream(ns, uuid);
  }

  lemma {:induction false} ChunkIsJustified(ns: seq<Notification>, c: Chunk, cache: Cache, codec: Codec)
    requires CachedTail(cache, ns, c.uuid)
    ensures var e, all := HandleChunk(cache, c, codec), ns + [Chunked(c)];
            && (forall data :: data in e.delivered ==> Justified(data, all, codec))
            && CachedTail(e.cache, all, c.uuid)
  {
    var e, all := HandleChunk(cache, c, codec), ns + [Chunked(c)];
    var a := TailStart(cache, ns, c);
    var stream := Stream(all, c.uuid);
    assert stream[a..] == stream[a..|stream|];
    assert CachedTail(e.cache, all, c.uuid);
    forall data | data in e.delivered ensures Justified(data, all, codec) {
      assert JustifiedByChunks(data, all, codec, c.uuid, a, |stream|);
    }
  }

  lemma {:induction false} TailStart(cache: Cache, ns: seq<Notification>, c: Chunk) returns (a: nat)
    requires CachedTail(cache, ns, c.uuid)
    ensures a < |Stream(ns + [Chunked(c)], c.uuid)|
    ensures Appended(cache, c) == Stream(ns + [Chunked(c)], c.uuid)[a..]
  {
    var all, stream := ns + [Chunked(c)], Stream(ns, c.uuid);
    assert all[..|ns|] == ns && all[..|all|] == all;
    StreamStep(all, |ns|, c.uuid);
    if c.uuid in cache {
      a :| a <= |stream| && cache[c.uuid] == stream[a..];
    } else {
      a := |stream|;
    }
    assert (stream + [c])[a..] == stream[a..] + [c];
  }

  // --- The listener --------------------------------------------------------------

  class Listener {
    var cache: Cache
    var queue: seq<Json>

    constructor ()
      ensures cache == map[] && queue == []
    {
      cache, queue := map[], [];
    }

    // _handle_chunked_message
    method HandleChunkedMessage(c: Chunk, codec: Codec) returns (error: Option<Error>)
      modifies this
      ensures var e := HandleChunk(old(cache), c, codec);
              cache == e.cache && queue == old(queue) + e.delivered && error == e.error
    {
      if c.uuid in cache {
        cache := cache[c.uuid := cache[c.uuid] + [c]];
      } else {
        cache := cache[c.uuid := [c]];
      }
      error := None;
      assert cache[c.uuid] == Appended(old(cache), c);
      var chunks := cache[c.uuid];
      if |chunks| == chunks[0].count {
        var allData := "";
        for i := 0 to |chunks|
          invariant allData == Concat(chunks[..i])
        {
          assert chunks[..i + 1][..i] == chunks[..i];
          allData := allData + chunks[i].text;
        }
        assert chunks[..|chunks|] == chunks;
        cache := cache - {c.uuid};
        if codec.hash(allData) == chunks[0].xxHash {
          match codec.decode(allData)
          case Some(data) => queue := queue + [data];
          case None => error := Some(DecodeError);
        }
      }
    }

    // _process_notifications
    method ProcessNotifications(ns: seq<Notification>, codec: Codec) returns (error: Option<Error>)
      requires cache == map[]
      modifies this
      ensures var e := HandleAll(ns, codec);
              cache == e.cache && queue == old(queue) + e.delivered && error == e.error
    {
      error := None;
      ghost var delivered: seq<Json> := [];
      for i := 0 to |ns|
        invariant queue == old(queue) + delivered
        invariant error.None? && HandleAll(ns[..i], codec) == Effect(cache, delivered, None)
      {
        ghost var e := Handle(cache, ns[i], codec);
        HandleNext(ns, i, codec);
        Associates(old(queue), delivered, e.delivered);
        delivered := delivered + e.delivered;
        match ns[i] {
          case Plain(data) => queue := queue + [data];
          case Chunked(c) => error := HandleChunkedMessage(c, codec);
          case MissingChunkKey => error := Some(MissingKeyError);
          case UndecodablePayload => error := Some(DecodeError);
        }
        if error.Some? {
          ErrorStops(ns, i + 1, codec);
          return;
        }
      }
      assert ns[..|ns|] == ns;
    }
  }

  lemma {:induction false} HandleNext(ns: seq<Notification>, i: nat, codec: Codec)
    requires i < |ns| && HandleAll(ns[..i], codec).error.None?
    ensures var before := HandleAll(ns[..i], codec);
            var e := Handle(before.cache, ns[i], codec);
            HandleAll(ns[..i + 1], codec) == Effect(e.cache, before.delivered + e.delivered, e.error)
  {
    assert ns[..i + 1][..i] == ns[..i];
  }

  lemma {:induction false} ErrorStops(ns: seq<Notification>, n: nat, codec: Codec)
    requires n <= |ns| && HandleAll(ns[..n], codec).error.Some?
    ensures HandleAll(ns, codec) == HandleAll(ns[..n], codec)
    decreases |ns|
  {
    if n == |ns| {
      assert ns[..n] == ns;
    } else {
      assert ns[..|ns| - 1][..n] == ns[..n];
      ErrorStops(ns[..|ns| - 1], n, codec);
    }
  }
}
