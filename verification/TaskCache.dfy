/** The Redis cache of list results: reads, writes and the SCAN/DEL invalidation loop. */
module TaskCache {
  import opened Domain
  import opened CacheKeys

  type Keyspace = map<string, CachedList>

  /** What other clients and expiry do to the keyspace between two of our calls. */
  datatype Others = Others(gone: set<string>, sets: map<string, CachedList>)

  const QUIET := Others({}, map[])

  function Disturb(ks: Keyspace, o: Others): Keyspace {
    (ks - o.gone) + o.sets
  }

  /**
   * One turn of the loop as the server answers it: a SCAN reply with the next cursor, then a DEL that
   * may report an error with or without having taken effect.
   */
  datatype Round = Round(
    pre: Others, scanFails: bool, keys: seq<string>, cursor: nat,
    mid: Others, delFails: bool, delApplied: bool)

  function Found(r: Round): set<string> {
    set k | k in r.keys
  }

  function BeforeDel(ks: Keyspace, r: Round): Keyspace {
    Disturb(Disturb(ks, r.pre), r.mid)
  }

  function AfterRound(ks: Keyspace, r: Round): Keyspace {
    if r.keys != [] && (!r.delFails || r.delApplied) then BeforeDel(ks, r) - Found(r) else BeforeDel(ks, r)
  }

  /** The keyspace and verdict after the loop; a server that stops answering counts as an error. */
  function Scanned(ks: Keyspace, rounds: seq<Round>): (Keyspace, bool)
    decreases |rounds|
  {
    if rounds == [] then (ks, false)
    else if rounds[0].scanFails then (Disturb(ks, rounds[0].pre), false)
    else if rounds[0].keys != [] && rounds[0].delFails then (AfterRound(ks, rounds[0]), false)
    else if rounds[0].cursor == 0 then (AfterRound(ks, rounds[0]), true)
    else Scanned(AfterRound(ks, rounds[0]), rounds[1..])
  }

  class Cache {
    var entries: Keyspace

    constructor ()
      ensures entries == map[]
    {
      entries := map[];
    }

    method Get(key: string, fails: bool) returns (r: Result<CachedList>)
      ensures r == if fails then Err(Internal) else if key in entries then Ok(entries[key]) else Err(NotFound)
    {
      if fails { return Err(Internal); }
      if key !in entries { return Err(NotFound); }
      r := Ok(entries[key]);
    }

    method Set(key: string, data: CachedList, lost: bool)
      modifies this
      ensures entries == if lost then old(entries) else old(entries)[key := data]
    {
      if !lost { entries := entries[key := data]; }
    }

    method Delete(keys: set<string>)
      modifies this
      ensures entries == old(entries) - keys
    {
      entries := entries - keys;
    }

    method Suffer(o: Others)
      modifies this
      ensures entries == Disturb(old(entries), o)
    {
      entries := Disturb(entries, o);
    }

    method Invalidate(pattern: string, rounds: seq<Round>) returns (ok: bool)
      modifies this
      ensures pattern != "" && pattern[|pattern| - 1] == '*' ==> (entries, ok) == Scanned(old(entries), rounds)
      ensures !(pattern != "" && pattern[|pattern| - 1] == '*') ==>
        ok == (rounds != [] && !rounds[0].delFails)
        && entries == if ok || (rounds != [] && rounds[0].delApplied) then old(entries) - {pattern} else old(entries)
    {
      if !(pattern != "" && pattern[|pattern| - 1] == '*') {
        if rounds != [] && (!rounds[0].delFails || rounds[0].delApplied) { Delete({pattern}); }
        return rounds != [] && !rounds[0].delFails;
      }
      var i := 0;
      while i < |rounds|
        invariant 0 <= i <= |rounds|
        invariant Scanned(entries, rounds[i..]) == Scanned(old(entries), rounds)
      {
        var r := rounds[i];
        assert rounds[i..][0] == r && rounds[i..][1..] == rounds[i + 1..];
        Suffer(r.pre);
        if r.scanFails { return false; }
        Suffer(r.mid);
        if r.keys != [] {
          if !r.delFails || r.delApplied { Delete(set k | k in r.keys); }
          if r.delFails { return false; }
        }
        if r.cursor == 0 { return true; }
        i := i + 1;
      }
      ok := false;
    }
  }

  // ---- what the loop achieves ----

  /** SCAN with MATCH only returns matching keys. */
  predicate OnlyMatching(pattern: string, rounds: seq<Round>) {
    forall i :: 0 <= i < |rounds| ==> forall k :: k in rounds[i].keys ==> Glob(pattern, k)
  }

  /** The keys that were in the keyspace at every moment of the loop. */
  function Throughout(ks: Keyspace, rounds: seq<Round>): set<string>
    decreases |rounds|
  {
    if rounds == [] then ks.Keys
    else
      var here := ks.Keys * Disturb(ks, rounds[0].pre).Keys * BeforeDel(ks, rounds[0]).Keys
        * AfterRound(ks, rounds[0]).Keys;
      if rounds[0].cursor == 0 then here else here * Throughout(AfterRound(ks, rounds[0]), rounds[1..])
  }

  function Returned(rounds: seq<Round>): set<string> {
    if rounds == [] then {}
    else if rounds[0].cursor == 0 then Found(rounds[0])
    else Found(rounds[0]) + Returned(rounds[1..])
  }

  /** The keys other clients wrote during the loop. */
  function Written(rounds: seq<Round>): set<string> {
    if rounds == [] then {}
    else
      var here := rounds[0].pre.sets.Keys + rounds[0].mid.sets.Keys;
      if rounds[0].cursor == 0 then here else here + Written(rounds[1..])
  }

  /** The promise of SCAN: a full iteration returns every matching key that stayed in the keyspace throughout. */
  predicate ScanPromise(pattern: string, ks: Keyspace, rounds: seq<Round>) {
    forall k :: k in Throughout(ks, rounds) && Glob(pattern, k) ==> k in Returned(rounds)
  }

  lemma {:induction false} ReturnedIsGone(ks: Keyspace, rounds: seq<Round>, k: string)
    requires Scanned(ks, rounds).1 && k in Throughout(ks, rounds)
    ensures k !in Returned(rounds)
    decreases |rounds|
  {
    assert k !in rounds[0].keys;
    if rounds[0].cursor != 0 { ReturnedIsGone(AfterRound(ks, rounds[0]), rounds[1..], k); }
  }

  /** A key left at the end that nobody wrote meanwhile was there all along. */
  lemma {:induction false} LeftoverWasThroughout(ks: Keyspace, rounds: seq<Round>, k: string)
    requires Scanned(ks, rounds).1 && k in Scanned(ks, rounds).0 && k !in Written(rounds)
    ensures k in Throughout(ks, rounds)
    decreases |rounds|
  {
    if rounds[0].cursor != 0 { LeftoverWasThroughout(AfterRound(ks, rounds[0]), rounds[1..], k); }
    LeftoverInKeys(ks, rounds, k);
  }

  lemma {:induction false} LeftoverInKeys(ks: Keyspace, rounds: seq<Round>, k: string)
    requires Scanned(ks, rounds).1 && k in Scanned(ks, rounds).0 && k !in Written(rounds)
    ensures k in AfterRound(ks, rounds[0]) && k in ks
    decreases |rounds|
  {
    if rounds[0].cursor != 0 { LeftoverInKeys(AfterRound(ks, rounds[0]), rounds[1..], k); }
  }

  /**
   * When the loop succeeds, no matching key survived it untouched: each was absent at some moment, and
   * one that is there at the end was written by somebody else during the loop.
   */
  lemma InvalidateClears(pattern: string, ks: Keyspace, rounds: seq<Round>, k: string)
    requires ScanPromise(pattern, ks, rounds) && Scanned(ks, rounds).1 && Glob(pattern, k)
    ensures k !in Throughout(ks, rounds)
    ensures k in Scanned(ks, rounds).0 ==> k in Written(rounds)
  {
    if k in Throughout(ks, rounds) { ReturnedIsGone(ks, rounds, k); }
    if k in Scanned(ks, rounds).0 && k !in Written(rounds) { LeftoverWasThroughout(ks, rounds, k); }
  }

  /** The keyspace had the loop not run at all. */
  function WithoutUs(ks: Keyspace, rounds: seq<Round>): Keyspace
    decreases |rounds|
  {
    if rounds == [] then ks
    else if rounds[0].scanFails then Disturb(ks, rounds[0].pre)
    else if (rounds[0].keys != [] && rounds[0].delFails) || rounds[0].cursor == 0 then BeforeDel(ks, rounds[0])
    else WithoutUs(BeforeDel(ks, rounds[0]), rounds[1..])
  }

  predicate AgreeAt(a: Keyspace, b: Keyspace, k: string) {
    (k in a <==> k in b) && (k in a ==> a[k] == b[k])
  }

  /** Success or error, the loop touches no key outside the pattern. */
  lemma {:induction false} InvalidateSparesOthers(pattern: string, a: Keyspace, b: Keyspace, rounds: seq<Round>, k: string)
    requires OnlyMatching(pattern, rounds) && !Glob(pattern, k) && AgreeAt(a, b, k)
    ensures AgreeAt(Scanned(a, rounds).0, WithoutUs(b, rounds), k)
    decreases |rounds|
  {
    if rounds != [] {
      assert k !in rounds[0].keys;
      assert AgreeAt(AfterRound(a, rounds[0]), BeforeDel(b, rounds[0]), k);
      InvalidateSparesOthers(pattern, AfterRound(a, rounds[0]), BeforeDel(b, rounds[0]), rounds[1..], k);
    }
  }

  // ---- nobody else at work ----

  predicate Undisturbed(rounds: seq<Round>) {
    forall i :: 0 <= i < |rounds| ==> rounds[i].pre == QUIET && rounds[i].mid == QUIET
  }

  function Matching(pattern: string, ks: Keyspace): set<string> {
    set k | k in ks && Glob(pattern, k)
  }

  lemma {:induction false} NothingWritten(rounds: seq<Round>)
    requires Undisturbed(rounds)
    ensures Written(rounds) == {}
  {
    if rounds != [] { NothingWritten(rounds[1..]); }
  }

  lemma {:induction false} NothingElseChanges(ks: Keyspace, rounds: seq<Round>)
    requires Undisturbed(rounds)
    ensures WithoutUs(ks, rounds) == ks
    decreases |rounds|
  {
    if rounds != [] {
      assert Disturb(ks, QUIET) == ks;
      NothingElseChanges(ks, rounds[1..]);
    }
  }

  lemma {:induction false} NothingAppears(ks: Keyspace, rounds: seq<Round>, k: string)
    requires Undisturbed(rounds) && k in Scanned(ks, rounds).0
    ensures k in ks && Scanned(ks, rounds).0[k] == ks[k]
    decreases |rounds|
  {
    if rounds != [] {
      assert Disturb(ks, QUIET) == ks;
      if !(rounds[0].scanFails || (rounds[0].keys != [] && rounds[0].delFails) || rounds[0].cursor == 0) {
        NothingAppears(AfterRound(ks, rounds[0]), rounds[1..], k);
      }
    }
  }

  /**
   * Alone, a successful loop removes exactly the matching keys; a failed one removes some of them and
   * nothing else.
   */
  lemma InvalidateAlone(pattern: string, ks: Keyspace, rounds: seq<Round>)
    requires Undisturbed(rounds) && OnlyMatching(pattern, rounds) && ScanPromise(pattern, ks, rounds)
    ensures Scanned(ks, rounds).1 ==> Scanned(ks, rounds).0 == ks - Matching(pattern, ks)
    ensures exists gone :: gone <= Matching(pattern, ks) && Scanned(ks, rounds).0 == ks - gone
  {
    var end := Scanned(ks, rounds).0;
    var gone := ks.Keys - end.Keys;
    NothingWritten(rounds);
    NothingElseChanges(ks, rounds);
    forall k | k in end
      ensures k in ks && end[k] == ks[k]
      ensures Scanned(ks, rounds).1 ==> !Glob(pattern, k)
    {
      NothingAppears(ks, rounds, k);
      if Scanned(ks, rounds).1 && Glob(pattern, k) { InvalidateClears(pattern, ks, rounds, k); }
    }
    forall k | k in ks && !Glob(pattern, k)
      ensures k in end
    {
      InvalidateSparesOthers(pattern, ks, ks, rounds, k);
    }
    assert end == ks - gone;
    if Scanned(ks, rounds).1 {
      assert gone == Matching(pattern, ks);
    }
  }
}
