/**
 * Source selection and batch building of the playout queue (src/queue.rs), as
 * pure functions over the queue's entries and its collaborators.
 *
 * The collaborators are oracles:
 *  - `Resolver` is `util::path_to_data`: a path either resolves to shared bytes
 *    and a format extension or it does not;
 *  - `RemoteService` is the random-track endpoint: the response to the n-th
 *    request ever sent, `None` when the request, the read or the JSON decode failed;
 *  - `Transcoder` is `PreBuffer::from_transcode`: it starts one output stream
 *    over the shared bytes or fails.
 * The imperative queue in module PlayoutQueue is proved against these functions.
 */
module Selection {
  import opened Wrappers

  /** The `i64` of `QueueEntry::id`. */
  newtype Int64 = x: int | -0x8000_0000_0000_0000 <= x < 0x8000_0000_0000_0000

  /** `QueueEntry`: one audio source waiting in the queue; `QueueEntry::new` is its constructor. */
  datatype QueueEntry = QueueEntry(id: Int64, path: string)

  /** The `(Arc<Vec<u8>>, String)` pair every stream of a batch is built from. */
  datatype Source = Source(data: seq<bv8>, ext: string)

  /** One configured output stream (its mount and encoding parameters are not looked at here). */
  type StreamProfile(==, 0)

  /** An encoded buffer for one stream; its contents are not looked at here. */
  type PreBuffer(0)

  type Resolver = string -> Option<Source>
  type RemoteService = nat -> Option<QueueEntry>
  type Transcoder = (seq<bv8>, string, StreamProfile) -> Option<PreBuffer>

  /** The number of remote requests `next_buffer` makes before it falls back. */
  const MaxTries: nat := 10

  // ---------------------------------------------------------------------------
  // Tier 1: the queue scan of `next_queue_buffer`
  // ---------------------------------------------------------------------------

  predicate Resolves(e: QueueEntry, resolve: Resolver) {
    resolve(e.path).Some?
  }

  /**
   * How many entries the scan drops from the head: every one of them is
   * unresolvable, and the entry after them, if any, resolves.
   */
  function Dropped(entries: seq<QueueEntry>, resolve: Resolver): (k: nat)
    ensures k <= |entries|
    ensures forall i :: 0 <= i < k ==> !Resolves(entries[i], resolve)
    ensures k < |entries| ==> Resolves(entries[k], resolve)
  {
    if entries == [] || Resolves(entries[0], resolve) then 0
    else 1 + Dropped(entries[1..], resolve)
  }

  /** The entries left once the scan has dropped the unresolvable ones at the head. */
  function Pruned(entries: seq<QueueEntry>, resolve: Resolver): seq<QueueEntry> {
    entries[Dropped(entries, resolve)..]
  }

  /** What the queue scan returns: the resolution of the first entry that resolves, if any. */
  function QueueChoice(entries: seq<QueueEntry>, resolve: Resolver): Option<Source> {
    var rest := Pruned(entries, resolve);
    if rest == [] then None else resolve(rest[0].path)
  }

  /** The scan finds nothing exactly when no entry resolves; otherwise it finds the first one that does. */
  lemma QueueChoiceIsFirstResolvable(entries: seq<QueueEntry>, resolve: Resolver)
    ensures QueueChoice(entries, resolve).None? <==> forall i :: 0 <= i < |entries| ==> !Resolves(entries[i], resolve)
    ensures QueueChoice(entries, resolve).Some? ==>
      var k := Dropped(entries, resolve);
      k < |entries| && QueueChoice(entries, resolve) == resolve(entries[k].path)
  {
    var k := Dropped(entries, resolve);
    if k < |entries| {
      assert Pruned(entries, resolve)[0] == entries[k];
    }
  }

  /** The scan never drops an entry that resolves: it is still in the queue, at its old place less the pruned prefix. */
  lemma PruningKeepsResolvable(entries: seq<QueueEntry>, resolve: Resolver, i: nat)
    requires i < |entries| && Resolves(entries[i], resolve)
    ensures var k := Dropped(entries, resolve);
      k <= i && Pruned(entries, resolve)[i - k] == entries[i]
  {
  }

  /** A second scan drops nothing more and finds the same source. */
  lemma PrunedIdempotent(entries: seq<QueueEntry>, resolve: Resolver)
    ensures Pruned(Pruned(entries, resolve), resolve) == Pruned(entries, resolve)
    ensures QueueChoice(Pruned(entries, resolve), resolve) == QueueChoice(entries, resolve)
  {
    var rest := Pruned(entries, resolve);
    if rest != [] {
      assert rest[0] == entries[Dropped(entries, resolve)];
      assert Dropped(rest, resolve) == 0;
    }
  }

  // ---------------------------------------------------------------------------
  // Tier 2: the remote random-track lookups of `next_buffer` / `random_buffer`
  // ---------------------------------------------------------------------------

  /** One `random_buffer` call: a decoded entry whose path resolves, or nothing. */
  function Attempt(response: Option<QueueEntry>, resolve: Resolver): (r: Option<Source>)
    ensures r.Some? <==> response.Some? && Resolves(response.value, resolve)
  {
    match response
    case None => None
    case Some(e) => resolve(e.path)
  }

  /** The outcome of a run of remote requests: the source found, if any, and how many requests were sent. */
  datatype RemoteOutcome = RemoteOutcome(found: Option<Source>, sent: nat)

  /** At most `tries` requests, numbered from `first`, stopping at the first one that yields a source. */
  function RemoteSearch(remote: RemoteService, resolve: Resolver, first: nat, tries: nat): (o: RemoteOutcome)
    decreases tries
  {
    if tries == 0 then RemoteOutcome(None, 0)
    else
      var r := Attempt(remote(first), resolve);
      if r.Some? then RemoteOutcome(r, 1)
      else
        var o := RemoteSearch(remote, resolve, first + 1, tries - 1);
        RemoteOutcome(o.found, o.sent + 1)
  }

  /**
   * The search sends at most `tries` requests. If one yields a source, it is the
   * last request sent and every earlier one failed; if none does, all `tries`
   * were sent and all failed.
   */
  lemma {:induction false} RemoteSearchSpec(remote: RemoteService, resolve: Resolver, first: nat, tries: nat)
    ensures var o := RemoteSearch(remote, resolve, first, tries);
      && o.sent <= tries
      && (o.found.None? <==> o.sent == tries && forall n :: first <= n < first + tries ==> Attempt(remote(n), resolve).None?)
      && (o.found.Some? ==>
            1 <= o.sent && o.found == Attempt(remote(first + o.sent - 1), resolve) &&
            forall n :: first <= n < first + o.sent - 1 ==> Attempt(remote(n), resolve).None?)
    decreases tries
  {
    if tries > 0 && Attempt(remote(first), resolve).None? {
      RemoteSearchSpec(remote, resolve, first + 1, tries - 1);
    }
  }

  // ---------------------------------------------------------------------------
  // The whole policy of `next_buffer`
  // ---------------------------------------------------------------------------

  datatype Tier = FromQueue | FromRemote | FromFallback

  /** The source chosen for the next slot, the tier it came from and how many remote requests were sent. */
  datatype Selection = Selection(source: Source, tier: Tier, sent: nat)

  /** `next_buffer`: the queue scan, then at most `MaxTries` remote requests, then the configured fallback. */
  function Select(entries: seq<QueueEntry>, resolve: Resolver, remote: RemoteService, first: nat, fallback: Source): Selection {
    match QueueChoice(entries, resolve)
    case Some(src) => Selection(src, FromQueue, 0)
    case None => RemoteOrFallback(RemoteSearch(remote, resolve, first, MaxTries), fallback)
  }

  /** The second and third tiers: the remote source if the search found one, the fallback otherwise. */
  function RemoteOrFallback(o: RemoteOutcome, fallback: Source): Selection {
    if o.found.Some? then Selection(o.found.value, FromRemote, o.sent)
    else Selection(fallback, FromFallback, o.sent)
  }

  /**
   * The policy of `next_buffer`: the queue's first resolvable entry if there is
   * one, and then no remote request at all (and the queue is left empty
   * otherwise); failing that, the first of at most `MaxTries` remote requests
   * that yields a source; failing that, after exactly `MaxTries` failed
   * requests, the configured fallback.
   */
  lemma SelectSpec(entries: seq<QueueEntry>, resolve: Resolver, remote: RemoteService, first: nat, fallback: Source)
    ensures var s := Select(entries, resolve, remote, first, fallback);
      && (s.tier == FromQueue <==> QueueChoice(entries, resolve).Some?)
      && (s.tier == FromQueue ==> Some(s.source) == QueueChoice(entries, resolve) && s.sent == 0)
      && (s.tier != FromQueue ==> Pruned(entries, resolve) == [])
      && (s.tier == FromRemote ==>
            1 <= s.sent <= MaxTries && Some(s.source) == Attempt(remote(first + s.sent - 1), resolve) &&
            forall n :: first <= n < first + s.sent - 1 ==> Attempt(remote(n), resolve).None?)
      && (s.tier == FromFallback ==>
            s.source == fallback && s.sent == MaxTries &&
            forall n :: first <= n < first + MaxTries ==> Attempt(remote(n), resolve).None?)
  {
    RemoteSearchSpec(remote, resolve, first, MaxTries);
  }

  /** A queue whose head resolves loses no entry, and the slot is fed from the head without any remote request. */
  lemma ResolvableHeadWins(entries: seq<QueueEntry>, resolve: Resolver, remote: RemoteService, first: nat, fallback: Source)
    requires entries != [] && Resolves(entries[0], resolve)
    ensures Pruned(entries, resolve) == entries
    ensures Select(entries, resolve, remote, first, fallback) == Selection(resolve(entries[0].path).value, FromQueue, 0)
  {
    assert Dropped(entries, resolve) == 0;
  }

  /** After the scan the head, if any, resolves, and it is the source the slot is fed from. */
  lemma PrunedHeadSelected(entries: seq<QueueEntry>, resolve: Resolver, remote: RemoteService, first: nat, fallback: Source)
    ensures var rest := Pruned(entries, resolve);
      rest != [] ==>
        && Resolves(rest[0], resolve)
        && Select(entries, resolve, remote, first, fallback) == Selection(resolve(rest[0].path).value, FromQueue, 0)
  {
    var k := Dropped(entries, resolve);
    if k < |entries| {
      assert Pruned(entries, resolve)[0] == entries[k];
    }
  }

  /** A queue `[broken, broken2, good]` heals to `[good]` and the slot is fed from `good`. */
  lemma SelfHealing(broken: QueueEntry, broken2: QueueEntry, good: QueueEntry, resolve: Resolver,
                    remote: RemoteService, first: nat, fallback: Source)
    requires !Resolves(broken, resolve) && !Resolves(broken2, resolve) && Resolves(good, resolve)
    ensures Pruned([broken, broken2, good], resolve) == [good]
    ensures Select([broken, broken2, good], resolve, remote, first, fallback)
         == Selection(resolve(good.path).value, FromQueue, 0)
  {
    assert [broken, broken2, good][1..] == [broken2, good];
    assert [broken2, good][1..] == [good];
    assert Dropped([good], resolve) == 0;
    assert Dropped([broken2, good], resolve) == 1;
    assert Dropped([broken, broken2, good], resolve) == 2;
  }

  /** The search stops at the first request that yields a source, having sent it and every earlier one. */
  lemma {:induction false} RemoteSearchFirstHit(remote: RemoteService, resolve: Resolver, first: nat, tries: nat, k: nat)
    requires k < tries && Attempt(remote(first + k), resolve).Some?
    requires forall n :: first <= n < first + k ==> Attempt(remote(n), resolve).None?
    ensures RemoteSearch(remote, resolve, first, tries) == RemoteOutcome(Attempt(remote(first + k), resolve), k + 1)
    decreases k
  {
    if k > 0 {
      assert Attempt(remote(first), resolve).None?;
      RemoteSearchFirstHit(remote, resolve, first + 1, tries - 1, k - 1);
    }
  }

  /** The first remote request that yields a source wins, and no later request is sent. */
  lemma FirstRemoteSuccessWins(entries: seq<QueueEntry>, resolve: Resolver, remote: RemoteService,
                               first: nat, fallback: Source, k: nat)
    requires QueueChoice(entries, resolve).None?
    requires k < MaxTries && Attempt(remote(first + k), resolve).Some?
    requires forall n :: first <= n < first + k ==> Attempt(remote(n), resolve).None?
    ensures Select(entries, resolve, remote, first, fallback)
         == Selection(Attempt(remote(first + k), resolve).value, FromRemote, k + 1)
  {
    RemoteSearchFirstHit(remote, resolve, first, MaxTries, k);
  }

  /** With nothing resolvable in the queue and all `MaxTries` remote requests failing, the fallback is used. */
  lemma FallbackAfterAllRemoteFailures(entries: seq<QueueEntry>, resolve: Resolver, remote: RemoteService,
                                       first: nat, fallback: Source)
    requires forall i :: 0 <= i < |entries| ==> !Resolves(entries[i], resolve)
    requires forall n :: first <= n < first + MaxTries ==> Attempt(remote(n), resolve).None?
    ensures Select(entries, resolve, remote, first, fallback) == Selection(fallback, FromFallback, MaxTries)
  {
    QueueChoiceIsFirstResolvable(entries, resolve);
    RemoteSearchSpec(remote, resolve, first, MaxTries);
  }

  // ---------------------------------------------------------------------------
  // Batch building: `initiate_transcode`
  // ---------------------------------------------------------------------------

  /**
   * The buffers `initiate_transcode` collects: one `from_transcode` per stream,
   * in stream order, over the same source, keeping the ones that start.
   */
  function Batch(src: Source, streams: seq<StreamProfile>, transcode: Transcoder): (b: seq<PreBuffer>)
    ensures |b| <= |streams|
  {
    if streams == [] then []
    else
      var init := Batch(src, streams[..|streams| - 1], transcode);
      match transcode(src.data, src.ext, streams[|streams| - 1])
      case Some(p) => init + [p]
      case None => init
  }

  /** The positions, in increasing order, of the streams among the first `n` that start over `src`. */
  function Started(src: Source, streams: seq<StreamProfile>, transcode: Transcoder, n: nat): (idx: seq<nat>)
    requires n <= |streams|
    ensures forall j :: 0 <= j < |idx| ==> idx[j] < n
    ensures forall j, k :: 0 <= j < k < |idx| ==> idx[j] < idx[k]
    ensures forall i :: 0 <= i < n ==> (i in idx <==> transcode(src.data, src.ext, streams[i]).Some?)
  {
    if n == 0 then []
    else
      var init := Started(src, streams, transcode, n - 1);
      if transcode(src.data, src.ext, streams[n - 1]).Some? then init + [n - 1] else init
  }

  /**
   * The batch is exactly the buffers of the streams that start, in stream
   * order: its j-th buffer is the one built for the j-th stream that starts,
   * from the same source as all the others.
   */
  lemma {:induction false} BatchIsStartedStreams(src: Source, streams: seq<StreamProfile>, transcode: Transcoder)
    ensures var b, idx := Batch(src, streams, transcode), Started(src, streams, transcode, |streams|);
      |b| == |idx| &&
      forall j :: 0 <= j < |b| ==> transcode(src.data, src.ext, streams[idx[j]]) == Some(b[j])
  {
    if streams != [] {
      var n := |streams|;
      var init := streams[..n - 1];
      BatchIsStartedStreams(src, init, transcode);
      assert init[..n - 1] == streams[..n - 1];
      StartedPrefix(src, init, streams, transcode, n - 1);
      var b0, idx0 := Batch(src, init, transcode), Started(src, streams, transcode, n - 1);
      var b, idx := Batch(src, streams, transcode), Started(src, streams, transcode, n);
      var last := transcode(src.data, src.ext, streams[n - 1]);
      if last.Some? {
        assert b == b0 + [last.value] && idx == idx0 + [n - 1];
      } else {
        assert b == b0 && idx == idx0;
      }
      forall j | 0 <= j < |b| ensures transcode(src.data, src.ext, streams[idx[j]]) == Some(b[j]) {
        if j < |b0| {
          assert streams[idx0[j]] == init[idx0[j]];
        }
      }
    }
  }

  /** `Started` over the first `n` streams looks at nothing beyond them. */
  lemma {:induction false} StartedPrefix(src: Source, xs: seq<StreamProfile>, ys: seq<StreamProfile>, transcode: Transcoder, n: nat)
    requires n <= |xs| && n <= |ys| && xs[..n] == ys[..n]
    ensures Started(src, xs, transcode, n) == Started(src, ys, transcode, n)
  {
    if n > 0 {
      assert xs[..n - 1] == xs[..n][..n - 1] == ys[..n][..n - 1] == ys[..n - 1];
      assert xs[n - 1] == xs[..n][n - 1] == ys[..n][n - 1] == ys[n - 1];
      StartedPrefix(src, xs, ys, transcode, n - 1);
    }
  }

  /** Batch building distributes over splitting the stream list. */
  lemma {:induction false} BatchConcat(src: Source, xs: seq<StreamProfile>, ys: seq<StreamProfile>, transcode: Transcoder)
    ensures Batch(src, xs + ys, transcode) == Batch(src, xs, transcode) + Batch(src, ys, transcode)
    decreases |ys|
  {
    if ys == [] {
      assert xs + ys == xs;
    } else {
      var m := |ys|;
      BatchConcat(src, xs, ys[..m - 1], transcode);
      assert (xs + ys)[..|xs + ys| - 1] == xs + ys[..m - 1];
      assert (xs + ys)[|xs + ys| - 1] == ys[m - 1];
    }
  }

  /** A stream that fails to start is skipped: the batch is the one built without it, not discarded. */
  lemma BatchSkipsFailingStream(src: Source, streams: seq<StreamProfile>, transcode: Transcoder, i: nat)
    requires i < |streams| && transcode(src.data, src.ext, streams[i]).None?
    ensures Batch(src, streams, transcode) == Batch(src, streams[..i] + streams[i + 1..], transcode)
  {
    assert streams == streams[..i] + [streams[i]] + streams[i + 1..];
    BatchConcat(src, streams[..i] + [streams[i]], streams[i + 1..], transcode);
    BatchConcat(src, streams[..i], [streams[i]], transcode);
    BatchConcat(src, streams[..i], streams[i + 1..], transcode);
    assert [streams[i]][..0] == [];
  }

  /** When every stream starts, the batch has one buffer per stream, in stream order. */
  lemma BatchComplete(src: Source, streams: seq<StreamProfile>, transcode: Transcoder)
    requires forall i :: 0 <= i < |streams| ==> transcode(src.data, src.ext, streams[i]).Some?
    ensures var b := Batch(src, streams, transcode);
      |b| == |streams| && forall i :: 0 <= i < |streams| ==> transcode(src.data, src.ext, streams[i]) == Some(b[i])
  {
    BatchIsStartedStreams(src, streams, transcode);
    var idx := Started(src, streams, transcode, |streams|);
    StartedAll(src, streams, transcode, |streams|);
  }

  /** When every stream starts, `Started` lists every position. */
  lemma {:induction false} StartedAll(src: Source, streams: seq<StreamProfile>, transcode: Transcoder, n: nat)
    requires n <= |streams|
    requires forall i :: 0 <= i < n ==> transcode(src.data, src.ext, streams[i]).Some?
    ensures |Started(src, streams, transcode, n)| == n
    ensures forall i :: 0 <= i < n ==> Started(src, streams, transcode, n)[i] == i
  {
    if n > 0 {
      StartedAll(src, streams, transcode, n - 1);
    }
  }

  /** When no stream starts, the batch is empty: the queue hands out no buffer for that slot. */
  lemma {:induction false} BatchEmptyWhenNothingStarts(src: Source, streams: seq<StreamProfile>, transcode: Transcoder)
    requires forall i :: 0 <= i < |streams| ==> transcode(src.data, src.ext, streams[i]).None?
    ensures Batch(src, streams, transcode) == []
  {
    if streams != [] {
      BatchEmptyWhenNothingStarts(src, streams[..|streams| - 1], transcode);
    }
  }
}
