/**
 * The playout look-ahead queue of src/queue.rs: the pending entries, the staged
 * batch of per-stream buffers, and the mutations that decide when the batch is
 * rebuilt. Each method is proved against the functions of module Selection.
 */
module PlayoutQueue {
  import opened Wrappers
  import opened Selection

  /** The part of the station configuration the queue reads: its streams, the static fallback and the random endpoint. */
  datatype Config = Config(streams: seq<StreamProfile>, fallback: Source, random: string)

  class Queue {
    /** The staged batch for the next slot, if one is staged. */
    var next: Option<seq<PreBuffer>>
    /** The pending entries; entry 0 is the next candidate source. */
    var entries: seq<QueueEntry>
    const cfg: Config

    /** The collaborators: path resolution, the transcoder and the random-track endpoint. */
    const resolve: Resolver
    const transcode: Transcoder
    const remote: RemoteService
    /** How many requests have been sent to the random-track endpoint; the next one gets response `remote(requests)`. */
    var requests: nat

    /** How many times `start_next_tc` has run. */
    ghost var recomputations: nat

    /** The source `start_next_tc` picks for entries `e` when the next remote request is number `first`. */
    function Choice(e: seq<QueueEntry>, first: nat): Selection {
      Select(e, resolve, remote, first, cfg.fallback)
    }

    /** The batch `start_next_tc` stages for entries `e` when the next remote request is number `first`. */
    function Staged(e: seq<QueueEntry>, first: nat): seq<PreBuffer> {
      Batch(Choice(e, first).source, cfg.streams, transcode)
    }

    /** The effect of one `start_next_tc` run on the entries `e`, requests numbered from `first`. */
    ghost predicate Recomputed(e: seq<QueueEntry>, first: nat)
      reads this
    {
      && entries == Pruned(e, resolve)
      && requests == first + Choice(e, first).sent
      && next == Some(Staged(e, first))
    }

    /**
     * The invariant the rebuild rules keep: the head, if any, resolves, and a
     * staged batch is the one built from the current head.
     */
    ghost predicate HeadConsistent()
      reads this
    {
      && (entries == [] || Resolves(entries[0], resolve))
      && (next.Some? && entries != [] ==> next.value == Batch(resolve(entries[0].path).value, cfg.streams, transcode))
    }

    /** A rebuild leaves the queue head-consistent. */
    lemma RecomputedIsHeadConsistent(e: seq<QueueEntry>, first: nat)
      requires Recomputed(e, first)
      ensures HeadConsistent()
    {
      PrunedHeadSelected(e, resolve, remote, first, cfg.fallback);
    }

    /** `Queue::new`: no entries and nothing staged. */
    constructor (cfg: Config, resolve: Resolver, transcode: Transcoder, remote: RemoteService)
      ensures this.cfg == cfg && this.resolve == resolve && this.transcode == transcode && this.remote == remote
      ensures next == None && entries == [] && requests == 0 && recomputations == 0
      ensures HeadConsistent()
    {
      this.cfg := cfg;
      this.resolve := resolve;
      this.transcode := transcode;
      this.remote := remote;
      next := None;
      entries := [];
      requests := 0;
      recomputations := 0;
    }

    /** Appends `qe`; rebuilds the batch exactly when the queue had been empty, i.e. when `qe` became the head. */
    method Push(qe: QueueEntry)
      requires HeadConsistent()
      modifies this
      ensures HeadConsistent()
      ensures var pushed := old(entries) + [qe];
        if |pushed| == 1 then
          Recomputed(pushed, old(requests)) && recomputations == old(recomputations) + 1
        else
          entries == pushed && next == old(next) && requests == old(requests) && recomputations == old(recomputations)
    {
      entries := entries + [qe];
      if |entries| == 1 {
        StartNextTc();
      }
    }

    /** Makes `qe` entry 0, shifting the others back, and always rebuilds the batch. */
    method PushHead(qe: QueueEntry)
      modifies this
      ensures Recomputed([qe] + old(entries), old(requests)) && recomputations == old(recomputations) + 1
      ensures HeadConsistent()
    {
      entries := [qe] + entries;
      StartNextTc();
    }

    /** Drops the last entry if there is one; rebuilds the batch exactly when the queue is then empty (also when it already was). */
    method Pop()
      requires HeadConsistent()
      modifies this
      ensures HeadConsistent()
      ensures var popped := if old(entries) == [] then [] else old(entries)[..|old(entries)| - 1];
        if |popped| == 0 then
          Recomputed(popped, old(requests)) && recomputations == old(recomputations) + 1
        else
          entries == popped && next == old(next) && requests == old(requests) && recomputations == old(recomputations)
    {
      if entries != [] {
        ghost var head := entries[0];
        entries := entries[..|entries| - 1];
        assert entries != [] ==> entries[0] == head;
      }
      if |entries| == 0 {
        StartNextTc();
      }
    }

    /** Drops entry 0 if there is one and always rebuilds the batch. */
    method PopHead()
      modifies this
      ensures var popped := if old(entries) == [] then [] else old(entries)[1..];
        Recomputed(popped, old(requests)) && recomputations == old(recomputations) + 1
      ensures HeadConsistent()
    {
      if entries != [] {
        entries := entries[1..];
      }
      StartNextTc();
    }

    /** Drops every entry and always rebuilds the batch (from the remote tier or the fallback). */
    method Clear()
      modifies this
      ensures Recomputed([], old(requests)) && recomputations == old(recomputations) + 1
      ensures entries == [] && next.Some?
      ensures HeadConsistent()
    {
      entries := [];
      StartNextTc();
    }

    /**
     * Hands the staged batch to the caller and leaves nothing staged; when
     * nothing was staged it first builds a batch from the current entries.
     */
    method GetNextTc() returns (batch: seq<PreBuffer>)
      requires HeadConsistent()
      modifies this
      ensures next == None && HeadConsistent()
      ensures entries != [] ==> batch == Batch(resolve(entries[0].path).value, cfg.streams, transcode)
      ensures old(next).Some? ==>
        && batch == old(next).value
        && entries == old(entries) && requests == old(requests) && recomputations == old(recomputations)
      ensures old(next).None? ==>
        && batch == Staged(old(entries), old(requests))
        && entries == Pruned(old(entries), resolve)
        && requests == old(requests) + Choice(old(entries), old(requests)).sent
        && recomputations == old(recomputations) + 1
    {
      if next.None? {
        StartNextTc();
      }
      assert HeadConsistent();
      batch := next.value;
      next := None;
    }

    /** Builds a batch from the current entries and stages it. */
    method StartNextTc()
      modifies this
      ensures Recomputed(old(entries), old(requests)) && recomputations == old(recomputations) + 1
      ensures next.Some? && HeadConsistent()
    {
      var batch := InitiateTranscode();
      next := Some(batch);
      recomputations := recomputations + 1;
      RecomputedIsHeadConsistent(old(entries), old(requests));
    }

    /**
     * Picks the source of the next slot: the queue scan, then up to `MaxTries`
     * remote requests, then the configured fallback.
     */
    method NextBuffer() returns (src: Source)
      modifies this`entries, this`requests
      ensures src == Choice(old(entries), old(requests)).source
      ensures requests == old(requests) + Choice(old(entries), old(requests)).sent
      ensures entries == Pruned(old(entries), resolve)
    {
      ghost var first := requests;
      var buf := NextQueueBuffer();
      ghost var queued, fellBack := buf, false;
      var sent := requests;
      var tries: nat := MaxTries;
      while buf.None?
        invariant tries <= MaxTries && sent == first + (MaxTries - tries)
        invariant queued.Some? ==> buf == queued && tries == MaxTries
        invariant queued.None? && buf.None? ==> forall n :: first <= n < sent ==> Attempt(remote(n), resolve).None?
        invariant queued.None? && buf.Some? ==>
          first < sent && buf == Attempt(remote(sent - 1), resolve) &&
          forall n :: first <= n < sent - 1 ==> Attempt(remote(n), resolve).None?
        modifies {}
        decreases tries
      {
        if tries == 0 {
          buf := Some(cfg.fallback);
          fellBack := true;
          break;
        }
        buf := RandomBuffer(sent);
        sent := sent + 1;
        tries := tries - 1;
      }
      requests := sent;
      src := buf.value;
      QueueChoiceIsFirstResolvable(old(entries), resolve);
      if queued.None? {
        if fellBack {
          FallbackAfterAllRemoteFailures(old(entries), resolve, remote, first, cfg.fallback);
        } else {
          FirstRemoteSuccessWins(old(entries), resolve, remote, first, cfg.fallback, sent - 1 - first);
        }
      }
    }

    /** Scans from the head, removing each entry whose path does not resolve, and stops at the first that does. */
    method NextQueueBuffer() returns (r: Option<Source>)
      modifies this`entries
      ensures entries == Pruned(old(entries), resolve)
      ensures r == QueueChoice(old(entries), resolve)
      ensures r.None? <==> entries == []
      ensures r.Some? ==> r == resolve(entries[0].path)
    {
      while entries != []
        invariant Pruned(entries, resolve) == Pruned(old(entries), resolve)
        decreases |entries|
      {
        var found := resolve(entries[0].path);
        if found.Some? {
          return found;
        }
        entries := entries[1..];
      }
      return None;
    }

    /** Request number `n` to the random-track endpoint: `Attempt` run against the oracle's response. The queue is not touched. */
    method RandomBuffer(n: nat) returns (r: Option<Source>)
      ensures r == Attempt(remote(n), resolve)
    {
      var response := remote(n);
      match response
      case None => r := None;
      case Some(e) => r := resolve(e.path);
    }

    /** Picks the source, then starts every configured stream over it, in stream order, keeping those that start. */
    method InitiateTranscode() returns (prebufs: seq<PreBuffer>)
      modifies this`entries, this`requests
      ensures prebufs == Staged(old(entries), old(requests))
      ensures requests == old(requests) + Choice(old(entries), old(requests)).sent
      ensures entries == Pruned(old(entries), resolve)
    {
      var src := NextBuffer();
      prebufs := [];
      for i := 0 to |cfg.streams|
        invariant prebufs == Batch(src, cfg.streams[..i], transcode)
      {
        var started := transcode(src.data, src.ext, cfg.streams[i]);
        assert cfg.streams[..i + 1][..i] == cfg.streams[..i];
        if started.Some? {
          prebufs := prebufs + [started.value];
        }
      }
      assert cfg.streams[..|cfg.streams|] == cfg.streams;
    }
  }

  /**
   * Pushing a resolvable entry into a new queue stages a batch built from it;
   * popping it again stages a batch built by the fallback policy (remote
   * requests, then the static fallback).
   */
  method PushThenPop(cfg: Config, resolve: Resolver, transcode: Transcoder, remote: RemoteService, a: QueueEntry)
    returns (first: seq<PreBuffer>, second: seq<PreBuffer>)
    requires Resolves(a, resolve)
    ensures first == Batch(resolve(a.path).value, cfg.streams, transcode)
    ensures second == Batch(Select([], resolve, remote, 0, cfg.fallback).source, cfg.streams, transcode)
  {
    var q := new Queue(cfg, resolve, transcode, remote);
    ResolvableHeadWins([a], resolve, remote, 0, cfg.fallback);
    q.Push(a);
    assert q.entries == [a] && q.requests == 0;
    first := q.GetNextTc();
    q.Pop();
    assert q.next == Some(q.Staged([], 0));
    second := q.GetNextTc();
  }

  /**
   * Taking the staged batch twice in a row without a mutation in between: the
   * second call rebuilds the batch from the same head rather than handing out
   * nothing, and the head stays in the queue. `rebuilds` counts the batch
   * builds: one by the push, one by the second retrieval.
   */
  method RetrieveTwice(cfg: Config, resolve: Resolver, transcode: Transcoder, remote: RemoteService, a: QueueEntry)
    returns (first: seq<PreBuffer>, second: seq<PreBuffer>, ghost rebuilds: nat)
    requires Resolves(a, resolve)
    ensures first == second == Batch(resolve(a.path).value, cfg.streams, transcode)
    ensures rebuilds == 2
  {
    var q := new Queue(cfg, resolve, transcode, remote);
    ResolvableHeadWins([a], resolve, remote, 0, cfg.fallback);
    q.Push(a);
    assert q.entries == [a] && q.requests == 0 && q.next == Some(q.Staged([a], 0));
    first := q.GetNextTc();
    assert q.entries == [a] && q.requests == 0 && q.next == None;
    second := q.GetNextTc();
    assert q.recomputations == 2 && q.entries == [a] && q.next == None;
    rebuilds := q.recomputations;
  }
}
