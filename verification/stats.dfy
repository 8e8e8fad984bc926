/**
  Per-path response byte statistics of the proxy (main.go, `requestBytes`
  and `updateStats`).

  The registry maps a request path to the cumulative number of response
  bytes relayed for it. Every relayed response calls `UpdateStats` once,
  under one mutex, so each call is one atomic step here. Totals are
  mathematical integers: the 64-bit wrap-around of the source is not modelled.
*/
module Stats {

  /** The content length `net/http` reports when the response length is unknown. */
  const UnknownLength: int := -1

  /** One relayed response: the request's URL path and the response's content length. */
  datatype Exchange = Exchange(path: string, contentLength: int)

  /** Reading a Go map yields the zero value for a missing key. */
  function Lookup(totals: map<string, int>, path: string): int
  {
    if path in totals then totals[path] else 0
  }

  /**
    The registry after one update for `path`. A known length (any value
    other than -1, negative ones included) is added to the previous total;
    the unknown length stores 0, discarding the previous total.
    No other path is touched and `path` is always present afterwards.
  */
  function Record(totals: map<string, int>, path: string, contentLength: int): (r: map<string, int>)
    ensures path in r
    ensures contentLength != UnknownLength ==> r[path] == Lookup(totals, path) + contentLength
    ensures contentLength == UnknownLength ==> r[path] == 0
    ensures r.Keys == totals.Keys + {path}
    ensures forall p :: p in totals && p != path ==> r[p] == totals[p]
  {
    totals[path := if contentLength != UnknownLength then Lookup(totals, path) + contentLength else 0]
  }

  /** The registry after the exchanges of `log`, applied in order, starting from `totals`. */
  function Replay(totals: map<string, int>, log: seq<Exchange>): map<string, int>
  {
    if log == [] then totals
    else
      var last := log[|log| - 1];
      Record(Replay(totals, log[..|log| - 1]), last.path, last.contentLength)
  }

  /** The content lengths of the exchanges in `log` for `path`, in order. */
  function LengthsFor(log: seq<Exchange>, path: string): seq<int>
  {
    if log == [] then []
    else
      var last := log[|log| - 1];
      LengthsFor(log[..|log| - 1], path) + (if last.path == path then [last.contentLength] else [])
  }

  function Sum(lengths: seq<int>): int
  {
    if lengths == [] then 0 else Sum(lengths[..|lengths| - 1]) + lengths[|lengths| - 1]
  }

  /** The lengths that follow the last unknown length (all of them when there is none). */
  function AfterLastUnknown(lengths: seq<int>): seq<int>
  {
    if lengths == [] then []
    else if lengths[|lengths| - 1] == UnknownLength then []
    else AfterLastUnknown(lengths[..|lengths| - 1]) + [lengths[|lengths| - 1]]
  }

  /**
    The total a path has, stated without reference to the update rule: if
    one of its responses had an unknown length, the sum of the lengths seen
    since the last such response; otherwise its starting total plus the sum
    of all its lengths.
  */
  function ExpectedTotal(start: int, lengths: seq<int>): int
  {
    if UnknownLength in lengths then Sum(AfterLastUnknown(lengths)) else start + Sum(lengths)
  }

  /**
    Every path's total after any interleaving of exchanges depends only on
    that path's own exchanges: no update is lost, double-counted or applied
    to another path.
  */
  lemma {:induction false} ReplayTotal(totals: map<string, int>, log: seq<Exchange>, path: string)
    ensures Lookup(Replay(totals, log), path) == ExpectedTotal(Lookup(totals, path), LengthsFor(log, path))
  {
    if log != [] {
      var front, last := log[..|log| - 1], log[|log| - 1];
      ReplayTotal(totals, front, path);
      var ls := LengthsFor(front, path);
      if last.path == path {
        var ls' := ls + [last.contentLength];
        assert LengthsFor(log, path) == ls';
        assert ls'[..|ls'| - 1] == ls;
        if last.contentLength != UnknownLength {
          assert UnknownLength in ls' <==> UnknownLength in ls;
          assert AfterLastUnknown(ls') == AfterLastUnknown(ls) + [last.contentLength];
          assert (AfterLastUnknown(ls) + [last.contentLength])[..|AfterLastUnknown(ls)|] == AfterLastUnknown(ls);
        } else {
          assert UnknownLength in ls';
        }
      } else {
        assert LengthsFor(log, path) == ls + [];
        assert ls + [] == ls;
      }
    }
  }

  /** A path is present after a replay exactly when it was before or some exchange used it. */
  lemma {:induction false} ReplayKeys(totals: map<string, int>, log: seq<Exchange>, path: string)
    ensures path in Replay(totals, log) <==> path in totals || exists i :: 0 <= i < |log| && log[i].path == path
  {
    if log != [] {
      var front := log[..|log| - 1];
      ReplayKeys(totals, front, path);
      if exists i :: 0 <= i < |front| && front[i].path == path {
        var i :| 0 <= i < |front| && front[i].path == path;
        assert log[i].path == path;
      }
      if exists i :: 0 <= i < |log| && log[i].path == path {
        var i :| 0 <= i < |log| && log[i].path == path;
        assert i < |front| ==> front[i].path == path;
      }
    }
  }

  /**
    For a path not seen before and responses whose lengths are all known,
    the total after the n-th response is L1 + ... + Ln, whatever exchanges
    for other paths are interleaved.
  */
  lemma {:induction false} KnownLengthsAccumulate(totals: map<string, int>, log: seq<Exchange>, path: string)
    requires path !in totals
    requires forall i :: 0 <= i < |log| && log[i].path == path ==> log[i].contentLength != UnknownLength
    ensures Lookup(Replay(totals, log), path) == Sum(LengthsFor(log, path))
  {
    ReplayTotal(totals, log, path);
    LengthsForKnown(log, path);
  }

  lemma {:induction false} LengthsForKnown(log: seq<Exchange>, path: string)
    requires forall i :: 0 <= i < |log| && log[i].path == path ==> log[i].contentLength != UnknownLength
    ensures UnknownLength !in LengthsFor(log, path)
  {
    if log != [] {
      LengthsForKnown(log[..|log| - 1], path);
    }
  }

  /**
    The statistics registry: `requestBytes` is the shared map of main.go.
    The ghost log `served` lists the updates applied so far; the invariant
    says the map is exactly what replaying them on an empty map gives.
  */
  class Registry {
    var requestBytes: map<string, int>
    ghost var served: seq<Exchange>

    ghost predicate Valid()
      reads this
    {
      requestBytes == Replay(map[], served)
    }

    /** `init` creates the empty map. */
    constructor ()
      ensures Valid()
      ensures requestBytes == map[] && served == []
    {
      requestBytes := map[];
      served := [];
    }

    /**
      `updateStats`: stores and returns the path's new total. The value
      returned is the value stored, so the `X-Bytes` header of a response
      always equals the registry's entry for its path.
    */
    method UpdateStats(path: string, contentLength: int) returns (bytes: int)
      requires Valid()
      modifies this
      ensures Valid()
      ensures served == old(served) + [Exchange(path, contentLength)]
      ensures requestBytes == Record(old(requestBytes), path, contentLength)
      ensures bytes == requestBytes[path]
      ensures bytes == ExpectedTotal(0, LengthsFor(served, path))
    {
      bytes := 0;
      if contentLength != UnknownLength {
        bytes := Lookup(requestBytes, path) + contentLength;
      }
      requestBytes := requestBytes[path := bytes];
      served := served + [Exchange(path, contentLength)];
      assert served[..|served| - 1] == old(served);
      ReplayTotal(map[], served, path);
    }
  }

  /** Two responses for "/a" of 100 and 50 bytes yield `X-Bytes` 100 and then 150. */
  method ScenarioAccumulates()
  {
    var stats := new Registry();
    var first := stats.UpdateStats("/a", 100);
    var second := stats.UpdateStats("/a", 50);
    assert first == 100 && second == 150;
  }

  /** An unknown length after 100 bytes for "/a" resets its total to 0. */
  method ScenarioUnknownLengthResets()
  {
    var stats := new Registry();
    var first := stats.UpdateStats("/a", 100);
    var other := stats.UpdateStats("/b", 7);
    var second := stats.UpdateStats("/a", UnknownLength);
    assert first == 100 && second == 0;
    assert stats.requestBytes["/b"] == 7;
  }
}
