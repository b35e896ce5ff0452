/**
 The cache of analysis results in Redis, with its two writers: the router and the
 console's ingest job. One key per SHA-256; each lookup and each store is one step.
 The clock is one non-decreasing millisecond counter.
*/
module HashCache {
  import opened Common

  const SOC_TTL_SEC := 7 * 24 * 3600

  /** A Redis hash with the fields it has, and when the key expires, if ever. */
  datatype Entry = Entry(verdict: Option<string>, score: Option<real>, hitCount: int, deadline: Option<int>)
  type Store = map<string, Entry>

  datatype Cached = Cached(verdict: string, score: real)

  datatype Op =
    | Lookup(sha: string, now: int)
    | RouterResult(sha: string, verdict: string, score: real, now: int)     // an analysis result reaches the servicer
    | IngestResult(sha: string, predicted: string, score: real, now: int)   // an ingest job finishes

  function Live(store: Store, sha: string, now: int): Option<Entry>
  {
    if sha in store && (store[sha].deadline.Some? ==> now < store[sha].deadline.value) then Some(store[sha]) else None
  }

  /** EXPIRE deletes the key when the time to live is not positive. */
  function Expire(store: Store, sha: string, ttl: int, now: int): Store
  {
    if sha !in store then store
    else if ttl <= 0 then store - {sha}
    else store[sha := store[sha].(deadline := Some(now + 1000 * ttl))]
  }

  /** HINCRBY creates the hash when the key is missing. */
  function CountHit(store: Store, sha: string, now: int): Store
  {
    match Live(store, sha, now)
    case Some(entry) => store[sha := entry.(hitCount := entry.hitCount + 1)]
    case None => store[sha := Entry(None, None, 1, None)]
  }

  function Put(store: Store, sha: string, verdict: string, score: real, ttl: int, now: int): Store
  {
    var deadline := match Live(store, sha, now) case Some(entry) => entry.deadline case None => None;
    Expire(store[sha := Entry(Some(verdict), Some(score), 0, deadline)], sha, ttl, now)
  }

  function Label(predicted: string): string
  {
    if predicted == "STEGO" then "STEGO" else "CLEAN"
  }

  function After(ttl: int, store: Store, op: Op): Store
  {
    match op
    case Lookup(sha, now) =>
      if Live(store, sha, now).None? then store else CountHit(Expire(store, sha, ttl, now), sha, now)
    case RouterResult(sha, verdict, score, now) =>
      if verdict == "ERROR" then store else Put(store, sha, verdict, score, ttl, now)
    case IngestResult(sha, predicted, score, now) =>
      if sha == "" then store else Put(store, sha, Label(predicted), score, SOC_TTL_SEC, now)
  }

  function Answer(store: Store, sha: string, now: int): Option<Cached>
  {
    match Live(store, sha, now)
    case None => None
    case Some(entry) =>
      Some(Cached(if entry.verdict.Some? then entry.verdict.value else "UNKNOWN",
                  if entry.score.Some? then entry.score.value else 0.0))
  }

  /** The router's cache object and its store. */
  class Cache {
    const ttl: int     // CACHE_TTL_SEC
    var store: Store

    constructor (ttl: int)
      ensures this.ttl == ttl && store == map[]
    {
      this.ttl := ttl;
      store := map[];
    }

    method LookupHash(sha: string, now: int) returns (cached: Option<Cached>)
      modifies this
      ensures cached == Answer(old(store), sha, now)
      ensures store == After(ttl, old(store), Lookup(sha, now))
    {
      var data := Live(store, sha, now);
      if data == None {
        return None;
      }
      store := Expire(store, sha, ttl, now);
      store := CountHit(store, sha, now);
      var verdict, score := "UNKNOWN", 0.0;
      if data.value.verdict.Some? {
        verdict := data.value.verdict.value;
      }
      if data.value.score.Some? {
        score := data.value.score.value;
      }
      return Some(Cached(verdict, score));
    }

    method StoreHash(sha: string, verdict: string, score: real, now: int)
      modifies this
      ensures store == Put(old(store), sha, verdict, score, ttl, now)
    {
      store := store[sha := Entry(Some(verdict), Some(score), 0,
                                  match Live(store, sha, now) case Some(entry) => entry.deadline case None => None)];
      store := Expire(store, sha, ttl, now);
    }

    /** One request of either writer; the answer is that of a lookup. */
    method Handle(op: Op) returns (answer: Option<Cached>)
      modifies this
      ensures store == After(ttl, old(store), op)
      ensures answer == if op.Lookup? then Answer(old(store), op.sha, op.now) else None
      ensures !op.Lookup? && !Stores(op, op.sha) ==> store == old(store)
      ensures Stores(op, op.sha) && (ttl > 0 || op.IngestResult?) ==> Answer(store, op.sha, op.now) == Some(Stored(op))
    {
      answer := None;
      match op {
        case Lookup(sha, now) =>
          answer := LookupHash(sha, now);
        case RouterResult(sha, verdict, score, now) =>
          if verdict != "ERROR" {
            StoreHash(sha, verdict, score, now);
          }
        case IngestResult(sha, predicted, score, now) =>
          if sha != "" {
            store := Put(store, sha, Label(predicted), score, SOC_TTL_SEC, now);
          }
      }
    }

    /** A whole history; the answers to its lookups are those of the leased history, and no answer is ERROR. */
    method Serve(ops: seq<Op>) returns (answers: seq<Option<Cached>>)
      requires store == map[] && ttl > 0
      modifies this
      ensures |answers| == |ops|
      ensures forall i :: 0 <= i < |ops| && ops[i].Lookup? ==>
                answers[i] == Leased(ttl, ops[..i], ops[i].sha, ops[i].now)
      ensures forall i :: 0 <= i < |ops| && answers[i].Some? ==> answers[i].value.verdict != "ERROR"
    {
      hide After, Answer, Leased;
      answers := [];
      for i := 0 to |ops|
        invariant |answers| == i && store == StoreAfter(ttl, ops[..i])
        invariant forall j :: 0 <= j < i && ops[j].Lookup? ==>
                    answers[j] == Leased(ttl, ops[..j], ops[j].sha, ops[j].now)
        invariant forall j :: 0 <= j < i && answers[j].Some? ==> answers[j].value.verdict != "ERROR"
      {
        assert ops[..i + 1][..i] == ops[..i] && ops[..i + 1][i] == ops[i];
        if ops[i].Lookup? {
          LookupIsLeased(ttl, ops[..i], ops[i].sha, ops[i].now);
          NoErrorAnswered(ttl, ops[..i], ops[i].sha, ops[i].now);
        }
        var answer := Handle(ops[i]);
        answers := answers + [answer];
      }
    }
  }

  // --- The history it must agree with ------------------------------------------------

  function StoreAfter(ttl: int, ops: seq<Op>): Store
  {
    if ops == [] then map[] else After(ttl, StoreAfter(ttl, ops[..|ops| - 1]), ops[|ops| - 1])
  }

  predicate Monotone(ops: seq<Op>)
  {
    forall i, j :: 0 <= i < j < |ops| ==> ops[i].now <= ops[j].now
  }

  predicate Stores(op: Op, sha: string)
  {
    match op
    case Lookup(_, _) => false
    case RouterResult(s, verdict, _, _) => s == sha && verdict != "ERROR"
    case IngestResult(s, _, _, _) => s == sha && sha != ""
  }

  function Stored(op: Op): Cached
    requires !op.Lookup?
  {
    match op
    case RouterResult(_, verdict, score, _) => Cached(verdict, score)
    case IngestResult(_, "STEGO", score, _) => Cached("STEGO", score)
    case IngestResult(_, _, score, _) => Cached("CLEAN", score)
  }

  /** How long a store or a hit keeps the entry, in milliseconds. */
  function LeaseLength(ttl: int, op: Op): int
  {
    1000 * if op.IngestResult? then 604_800 else ttl
  }

  /** The last store of a hash. */
  function LastStore(ops: seq<Op>, sha: string): (at: Option<nat>)
    ensures at.Some? ==> at.value < |ops| && Stores(ops[at.value], sha)
    ensures forall j :: (if at.Some? then at.value + 1 else 0) <= j < |ops| ==> !Stores(ops[j], sha)
  {
    if ops == [] then None
    else if Stores(ops[|ops| - 1], sha) then Some(|ops| - 1)
    else LastStore(ops[..|ops| - 1], sha)
  }

  /** The last store or hit of a hash. */
  function LastRenewal(ttl: int, ops: seq<Op>, sha: string): (at: Option<nat>)
    ensures at.Some? ==> at.value < |ops|
    decreases |ops|, 0
  {
    if ops == [] then None
    else
      var front, last := ops[..|ops| - 1], ops[|ops| - 1];
      if Stores(last, sha) || (last.Lookup? && last.sha == sha && IsHit(ttl, front, sha, last.now)) then Some(|ops| - 1)
      else LastRenewal(ttl, front, sha)
  }

  /** A lookup hits when the last store or hit is within its lease. */
  predicate IsHit(ttl: int, ops: seq<Op>, sha: string, now: int)
    decreases |ops|, 1
  {
    var at := LastRenewal(ttl, ops, sha);
    at.Some? && now < ops[at.value].now + LeaseLength(ttl, ops[at.value])
  }

  function HitsSinceStore(ttl: int, ops: seq<Op>, sha: string): (n: nat)
  {
    if ops == [] || Stores(ops[|ops| - 1], sha) then 0
    else
      var front, last := ops[..|ops| - 1], ops[|ops| - 1];
      var hit := last.Lookup? && last.sha == sha && IsHit(ttl, front, sha, last.now);
      HitsSinceStore(ttl, front, sha) + if hit then 1 else 0
  }

  function Leased(ttl: int, ops: seq<Op>, sha: string, now: int): Option<Cached>
  {
    var at := LastStore(ops, sha);
    if IsHit(ttl, ops, sha, now) && at.Some? then Some(Stored(ops[at.value])) else None
  }

  /** What the history says is kept for a hash. */
  function Expected(ttl: int, ops: seq<Op>, sha: string): (entry: Option<Entry>)
  {
    var at, renewed := LastStore(ops, sha), LastRenewal(ttl, ops, sha);
    if at.None? || renewed.None? then None
    else
      var result := Stored(ops[at.value]);
      Some(Entry(Some(result.verdict), Some(result.score), HitsSinceStore(ttl, ops, sha),
                 Some(ops[renewed.value].now + LeaseLength(ttl, ops[renewed.value]))))
  }

  ghost predicate EntryMatches(ttl: int, store: Store, ops: seq<Op>, sha: string)
  {
    && Held(store, sha) == Expected(ttl, ops, sha)
    && (LastStore(ops, sha).None? <==> LastRenewal(ttl, ops, sha).None?)
  }

  function Held(store: Store, sha: string): Option<Entry>
  {
    if sha in store then Some(store[sha]) else None
  }

  /** One operation on the entry of one hash. */
  function Renewed(ttl: int, held: Option<Entry>, op: Op, sha: string): Option<Entry>
  {
    if Stores(op, sha) then
      Some(Entry(Some(Stored(op).verdict), Some(Stored(op).score), 0, Some(op.now + LeaseLength(ttl, op))))
    else if op.Lookup? && op.sha == sha && held.Some? && held.value.deadline.Some?
      && op.now < held.value.deadline.value then
      Some(held.value.(hitCount := held.value.hitCount + 1, deadline := Some(op.now + LeaseLength(ttl, op))))
    else held
  }

  lemma HeldAfter(ttl: int, store: Store, op: Op, sha: string)
    requires ttl > 0 && (sha in store ==> store[sha].deadline.Some?)
    ensures Held(After(ttl, store, op), sha) == Renewed(ttl, Held(store, sha), op, sha)
  {
  }

  lemma HistoryLonger(ttl: int, ops: seq<Op>, op: Op, sha: string)
    ensures var longer, hit := ops + [op], op.Lookup? && op.sha == sha && IsHit(ttl, ops, sha, op.now);
            && LastStore(longer, sha) == (if Stores(op, sha) then Some(|ops|) else LastStore(ops, sha))
            && LastRenewal(ttl, longer, sha) ==
                 (if Stores(op, sha) || hit then Some(|ops|) else LastRenewal(ttl, ops, sha))
            && HitsSinceStore(ttl, longer, sha) ==
               (if Stores(op, sha) then 0 else HitsSinceStore(ttl, ops, sha) + if hit then 1 else 0)
  {
    hide Stores, IsHit;
    var longer := ops + [op];
    assert longer[..|longer| - 1] == ops && longer[|longer| - 1] == op;
  }

  lemma ExpectedAfter(ttl: int, ops: seq<Op>, op: Op, sha: string)
    requires LastStore(ops, sha).None? <==> LastRenewal(ttl, ops, sha).None?
    ensures Expected(ttl, ops + [op], sha) == Renewed(ttl, Expected(ttl, ops, sha), op, sha)
    ensures LastStore(ops + [op], sha).None? <==> LastRenewal(ttl, ops + [op], sha).None?
  {
    HistoryLonger(ttl, ops, op, sha);
    hide Stores, LeaseLength, Stored, LastStore, LastRenewal, HitsSinceStore;
    var longer := ops + [op];
    assert longer[|ops|] == op;
    var at, renewed := LastStore(ops, sha), LastRenewal(ttl, ops, sha);
    assert at.Some? ==> longer[at.value] == ops[at.value];
    assert renewed.Some? ==> longer[renewed.value] == ops[renewed.value];
  }

  lemma MatchesAfter(ttl: int, store: Store, ops: seq<Op>, op: Op, sha: string)
    requires ttl > 0 && EntryMatches(ttl, store, ops, sha)
    ensures EntryMatches(ttl, After(ttl, store, op), ops + [op], sha)
  {
    hide Renewed, After, LastStore, LastRenewal;
    HeldAfter(ttl, store, op, sha);
    ExpectedAfter(ttl, ops, op, sha);
  }

  lemma {:induction false} StoreMatches(ttl: int, ops: seq<Op>, sha: string)
    requires ttl > 0
    ensures EntryMatches(ttl, StoreAfter(ttl, ops), ops, sha)
  {
    if ops != [] {
      var front := ops[..|ops| - 1];
      assert ops == front + [ops[|ops| - 1]];
      StoreMatches(ttl, front, sha);
      MatchesAfter(ttl, StoreAfter(ttl, front), front, ops[|ops| - 1], sha);
    }
  }

  /**
   With a positive time to live a lookup answers the last stored result iff the last store
   or hit is within its lease.
  */
  lemma LookupIsLeased(ttl: int, ops: seq<Op>, sha: string, now: int)
    requires ttl > 0
    ensures Answer(StoreAfter(ttl, ops), sha, now) == Leased(ttl, ops, sha, now)
  {
    StoreMatches(ttl, ops, sha);
  }

  /**
   Once stored, a hash is answered until the shorter of the two writers' lifetimes is over,
   whatever else is looked up or stored in between.
  */
  lemma StoredIsAnswered(ttl: int, ops: seq<Op>, k: nat, sha: string, now: int)
    requires ttl > 0 && Monotone(ops) && k < |ops| && Stores(ops[k], sha)
    requires now < ops[k].now + 1000 * ttl && now < ops[k].now + 604_800_000
    ensures Answer(StoreAfter(ttl, ops), sha, now).Some?
  {
    LastAreLater(ttl, ops, k, sha);
    LookupIsLeased(ttl, ops, sha, now);
  }

  lemma {:induction false} LastAreLater(ttl: int, ops: seq<Op>, k: nat, sha: string)
    requires k < |ops| && Stores(ops[k], sha)
    ensures LastStore(ops, sha).Some? && LastRenewal(ttl, ops, sha).Some? && LastRenewal(ttl, ops, sha).value >= k
  {
    if k < |ops| - 1 {
      LastAreLater(ttl, ops[..|ops| - 1], k, sha);
    }
  }

  lemma HitCountIsHits(ttl: int, ops: seq<Op>, sha: string, now: int)
    requires ttl > 0 && IsHit(ttl, ops, sha, now)
    ensures sha in StoreAfter(ttl, ops) && StoreAfter(ttl, ops)[sha].hitCount == HitsSinceStore(ttl, ops, sha)
  {
    StoreMatches(ttl, ops, sha);
  }

  /**
   The lookup keeps its promise on every history if and only if the configured time to
   live is positive: otherwise the refresh deletes an ingested entry and the counter
   leaves a hash without a verdict and without an expiry.
  */
  lemma LookupIsLeasedIff(ttl: int)
    ensures (forall ops: seq<Op>, sha: string, now: int :: Monotone(ops) ==>
              Answer(StoreAfter(ttl, ops), sha, now) == Leased(ttl, ops, sha, now))
            <==> ttl > 0
  {
    if ttl > 0 {
      forall ops: seq<Op>, sha: string, now: int
        ensures Answer(StoreAfter(ttl, ops), sha, now) == Leased(ttl, ops, sha, now)
      {
        LookupIsLeased(ttl, ops, sha, now);
      }
    } else {
      GhostHash(ttl);
    }
  }

  lemma GhostHash(ttl: int)
    requires ttl <= 0
    ensures exists ops: seq<Op>, sha: string, now: int ::
              && Monotone(ops) && Answer(StoreAfter(ttl, ops), sha, now) == Some(Cached("UNKNOWN", 0.0))
              && Leased(ttl, ops, sha, now) == None
  {
    var one := [IngestResult("a", "STEGO", 1.0, 0)];
    var two := one + [Lookup("a", 1)];
    assert two[..1] == one && one[..0] == [];
    assert StoreAfter(ttl, one) == map["a" := Entry(Some("STEGO"), Some(1.0), 0, Some(1000 * SOC_TTL_SEC))];
    assert StoreAfter(ttl, two) == map["a" := Entry(None, None, 1, None)];
    assert Answer(StoreAfter(ttl, two), "a", 2) == Some(Cached("UNKNOWN", 0.0));
    assert LastRenewal(ttl, two, "a") == Some(1);
    assert Leased(ttl, two, "a", 2) == None;
  }

  /** Whatever the configuration, no entry ever holds ERROR. */
  lemma {:induction false} NoErrorCached(ttl: int, ops: seq<Op>)
    ensures forall sha <- StoreAfter(ttl, ops) :: StoreAfter(ttl, ops)[sha].verdict != Some("ERROR")
  {
    if ops != [] {
      NoErrorCached(ttl, ops[..|ops| - 1]);
    }
  }

  lemma NoErrorAnswered(ttl: int, ops: seq<Op>, sha: string, now: int)
    ensures Answer(StoreAfter(ttl, ops), sha, now).Some? ==>
              Answer(StoreAfter(ttl, ops), sha, now).value.verdict != "ERROR"
  {
    NoErrorCached(ttl, ops);
  }
}
