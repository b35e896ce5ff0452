/** What the routing protocol guarantees in every run, from its invariant. */
module Guarantees {
  import opened Common
  import opened RouterState
  import opened Protocol
  import opened Replies
  import Ledger
  import Carving

  lemma Reachable(schedule: seq<Action>)
    ensures Inv(Run(Init, schedule))
  {
    hide Run;
    InitInv();
    RunKeepsInv(Init, schedule);
  }

  lemma InitInv()
    ensures Inv(Init)
  {
  }

  /**
   Every interleaving partitions the rate-allowed chunks, by acceptance position, over the
   live records and the claimed generations, and keeps acceptance order inside each.
  */
  lemma NoChunkLostOrDuplicated(schedule: seq<Action>)
    ensures Partitioned(Run(Init, schedule).router)
    ensures var r := Run(Init, schedule).router;
            && (forall k :: 0 <= k < |r.log| ==>
                 && Exists(r, r.home[k])
                 && Rank(r.home, k) < |Contents(r, r.home[k])|
                 && Contents(r, r.home[k])[Rank(r.home, k)] == r.log[k].payload)
            && (forall p, i: nat :: Exists(r, p) && i < |Contents(r, p)| ==> FilledFromLog(r, p, i))
  {
    Reachable(schedule);
    EveryChunkInExactlyOnePlace(Run(Init, schedule).router);
  }

  ghost function AllowedBy(s: State, a: Action): seq<(Chunk, real)>
    requires Enabled(s, a)
  {
    match a
    case Decide(id, true, now) => [(s.rpcs[id].chunk, now)]
    case _ => []
  }

  /** The chunks the limiter allows in the course of a schedule, and when. */
  ghost function Allowed(s: State, schedule: seq<Action>): seq<(Chunk, real)>
    decreases |schedule|
  {
    if schedule == [] then []
    else
      var a := schedule[0];
      if !Enabled(s, a) then Allowed(s, schedule[1..])
      else
        AllowedBy(s, a) + Allowed(Next(s, a), schedule[1..])
  }

  ghost predicate Logged(r: Router, r': Router, allowed: seq<(Chunk, real)>)
  {
    && r'.log == r.log + seq(|allowed|, i requires 0 <= i < |allowed| => allowed[i].0)
    && r'.times == r.times + seq(|allowed|, i requires 0 <= i < |allowed| => allowed[i].1)
  }

  lemma StepLogs(s: State, a: Action)
    requires Enabled(s, a)
    ensures Logged(s.router, Next(s, a).router, AllowedBy(s, a))
  {
    hide Ledger.Inv, Ledger.Apply, ProgressStep;
    match a
    case Progress(g, reply) => ProgressAdvances(s, g, reply);
    case Cancel(id, reply) => ProgressAdvances(s, s.rpcs[id].current.value, reply);
    case _ =>
  }

  lemma LoggedTogether(r: Router, r': Router, r'': Router, a: seq<(Chunk, real)>, b: seq<(Chunk, real)>)
    requires Logged(r, r', a) && Logged(r', r'', b)
    ensures Logged(r, r'', a + b)
  {
  }

  /** A run accepts exactly the chunks its limiter allows, in that order. */
  lemma {:induction false} AcceptsWhatIsAllowed(s: State, schedule: seq<Action>)
    ensures Logged(s.router, Run(s, schedule).router, Allowed(s, schedule))
    decreases |schedule|
  {
    hide Enabled, Next, Logged, AllowedBy;
    if schedule == [] {
      assert Logged(s.router, s.router, []) by { LoggedNothing(s.router); }
    } else if Enabled(s, schedule[0]) {
      var a := schedule[0];
      StepLogs(s, a);
      AcceptsWhatIsAllowed(Next(s, a), schedule[1..]);
      LoggedTogether(s.router, Next(s, a).router, Run(s, schedule).router,
        AllowedBy(s, a), Allowed(Next(s, a), schedule[1..]));
    } else {
      AcceptsWhatIsAllowed(s, schedule[1..]);
    }
  }

  lemma LoggedNothing(r: Router)
    ensures Logged(r, r, [])
  {
  }

  /**
   In every run a record names the first chunk it holds, and was last seen when the last
   one was accepted.
  */
  lemma RecordsNameTheirChunks(schedule: seq<Action>)
    ensures RecordsDescribed(Run(Init, schedule).router)
  {
    Reachable(schedule);
  }

  /** The stream's last accepted chunk is more than five seconds old. */
  ghost predicate IdleAt(r: Router, sid: StreamId, now: real)
    requires |r.home| == |r.times|
  {
    exists k: nat :: LastAt(r.home, Live(sid), k) && now - r.times[k] > 5.0
  }

  /** In every run a sweep claims exactly the live streams whose last chunk was accepted over five seconds ago. */
  lemma SweepClaimsIdle(schedule: seq<Action>, order: seq<StreamId>, now: real, sid: StreamId)
    requires Enabled(Run(Init, schedule), Sweep(order, now)) && sid in Run(Init, schedule).router.streams
    ensures var r, after := Run(Init, schedule).router, Next(Run(Init, schedule), Sweep(order, now)).router;
            |r.home| == |r.times| && (sid !in after.streams <==> IdleAt(r, sid, now))
  {
    Reachable(schedule);
    var s := Run(Init, schedule);
    hide Run, Partitioned, CallsKept, SlotsCounted, Ownership, EventsMatch, Ledger.Inv;
    var r := s.router;
    assert Exists(r, Live(sid)) && Described(r, Live(sid));
    var k: nat :| LastAt(r.home, Live(sid), k) && r.streams[sid].lastSeen == r.times[k];
    forall l: nat | LastAt(r.home, Live(sid), l) ensures l == k {
      LastIsUnique(r.home, Live(sid), k, l);
    }
  }

  lemma LastIsUnique(home: seq<Place>, p: Place, k: nat, l: nat)
    requires LastAt(home, p, k) && LastAt(home, p, l)
    ensures k == l
  {
    NoneAfterLast(home, p, k);
    NoneAfterLast(home, p, l);
  }

  lemma NoneAfterLast(home: seq<Place>, p: Place, k: nat)
    requires LastAt(home, p, k)
    ensures forall i :: k < i < |home| ==> home[i] != p
  {
    forall i | k < i < |home| ensures home[i] != p {
      assert home[i] == home[k + 1..][i - k - 1];
    }
  }

  /** How far the processing of a generation has come. */
  function Progressed(phase: Phase): nat
  {
    match phase
    case Waiting => 0
    case Registering => 1
    case Building => 2
    case LookingUp(_) => 3
    case PersistingHit(_, _) => 4
    case AwaitingSlot(_, _) => 4
    case Dispatching(_, _) => 5
    case Storing(_, _) => 6
    case Persisting(_, _) => 7
    case Writing(_) => 8
    case Finished(_) => 9
    case Raised(_) => 9
  }

  ghost predicate Extends(s: State, s': State)
  {
    && s.router.claimed <= s'.router.claimed
    && s.router.log <= s'.router.log
    && s.owners <= s'.owners
    && |s.phases| <= |s'.phases|
    && (forall g :: 0 <= g < |s.phases| ==> Progressed(s.phases[g]) <= Progressed(s'.phases[g]))
    && (forall g :: 0 <= g < |s.phases| && Over(s.phases[g]) ==> s'.phases[g] == s.phases[g])
  }

  lemma ProgressAdvances(s: State, g: nat, outcome: Outcome)
    requires g < |s.phases| && g < |s.router.claimed| && g < |s.replies| && !Over(s.phases[g])
    ensures var s' := ProgressStep(s, g, outcome);
            && s'.router == s.router && s'.owners == s.owners
            && s'.phases == s.phases[g := s'.phases[g]]
            && Progressed(s.phases[g]) <= Progressed(s'.phases[g])
  {
    hide EventOf, Ledger.AddStep, Ledger.PrintEntry, Carving.ImageToAnalyze;
  }

  lemma NextExtends(s: State, a: Action)
    requires Inv(s) && Enabled(s, a)
    ensures Extends(s, Next(s, a))
  {
    hide Ledger.Inv, Partitioned, RecordsDescribed, EventsMatch, CallsKept, SlotsCounted, Ownership, ProgressStep;
    if a.Progress? {
      ProgressAdvances(s, a.generation, a.outcome);
    } else if a.Cancel? {
      ProgressAdvances(s, s.rpcs[a.rpc].current.value, a.reply);
    }
  }

  lemma ExtendsTransitive(s: State, t: State, u: State)
    requires Extends(s, t) && Extends(t, u)
    ensures Extends(s, u)
  {
    forall g | 0 <= g < |s.phases|
      ensures Progressed(s.phases[g]) <= Progressed(u.phases[g])
      ensures Over(s.phases[g]) ==> u.phases[g] == s.phases[g]
    {
      assert Progressed(s.phases[g]) <= Progressed(t.phases[g]) <= Progressed(u.phases[g]);
    }
  }

  /**
   From claiming on, the chunk list, the claimant and the outcome of a generation are
   final: nothing any task does later changes them, and its processing never goes back.
  */
  lemma {:induction false} ClaimedIsFinal(s: State, schedule: seq<Action>)
    requires Inv(s)
    ensures Extends(s, Run(s, schedule))
    decreases |schedule|
  {
    hide Inv, Enabled, Next;
    if schedule != [] {
      var a := schedule[0];
      if Enabled(s, a) {
        NextKeepsInv(s, a);
        NextExtends(s, a);
        ClaimedIsFinal(Next(s, a), schedule[1..]);
        ExtendsTransitive(s, Next(s, a), Run(s, schedule));
      } else {
        ClaimedIsFinal(s, schedule[1..]);
      }
    }
  }

  ghost predicate HeldByReaper(s: State, g: nat) { g in s.sweep }
  ghost predicate HeldByCall(s: State, id: nat, g: nat)
  {
    id in s.rpcs && s.rpcs[id].Flushing? && s.rpcs[id].current == Some(g)
  }

  /** A generation is never in the hands of two tasks, and is in the hands of one until it is over. */
  lemma OneClaimant(schedule: seq<Action>, g: nat, a: nat, b: nat)
    ensures var s := Run(Init, schedule);
            && !(HeldByReaper(s, g) && HeldByCall(s, a, g))
            && (HeldByCall(s, a, g) && HeldByCall(s, b, g) ==> a == b)
            && (g < |s.phases| && !Over(s.phases[g]) ==>
                 HeldByReaper(s, g) || exists id :: HeldByCall(s, id, g))
  {
    Reachable(schedule);
    var s := Run(Init, schedule);
    if g < |s.phases| && !Over(s.phases[g]) {
      assert InHands(s.owners, s.sweep, s.rpcs, g);
      if s.owners[g].Call? {
        assert HeldByCall(s, s.owners[g].rpc, g);
      }
    }
  }

  /**
   When StreamPayload answers, none of the chunks it accepted is in a live record, and the
   count it reports is what it accepted plus what the rate limit dropped.
  */
  lemma AnsweredCallLeftNothing(schedule: seq<Action>, id: nat)
    ensures var s := Run(Init, schedule);
            id in s.rpcs && s.rpcs[id].Answered? ==>
              && s.rpcs[id].tally.received == CountRpc(s.router.log, id) + s.rpcs[id].tally.dropped
              && |s.router.home| == |s.router.log|
              && forall k :: 0 <= k < |s.router.log| && s.router.log[k].rpc == id ==> s.router.home[k].Claimed?
  {
    hide Run, RecordsDescribed, SlotsCounted, Ownership, EventsMatch, Ledger.Inv;
    Reachable(schedule);
    var s := Run(Init, schedule);
    if id in s.rpcs && s.rpcs[id].Answered? {
      assert CallKept(s.router.log, s.router.home, id, s.rpcs[id]);
    }
  }

  /** The semaphore counter is the number of dispatches in flight, within the largest limit so far. */
  lemma ScansWithinLimit(schedule: seq<Action>)
    ensures var s := Run(Init, schedule);
            s.active == InDispatch(s.phases) && 0 <= s.active <= Max(0, s.highest)
  {
    Reachable(schedule);
  }

  /** The counter grows by one, and only below the current limit. */
  lemma AcquiresBelowLimit(s: State, a: Action)
    requires Enabled(s, a) && Next(s, a).active > s.active
    ensures s.active < s.limit && Next(s, a).active == s.active + 1
  {
    hide Ledger.Inv;
  }

  ghost predicate NoLimitChange(schedule: seq<Action>)
  {
    forall i :: 0 <= i < |schedule| ==> !schedule[i].SetLimit?
  }

  lemma DrainsOnce(s: State, a: Action)
    requires Enabled(s, a) && !a.SetLimit?
    ensures Next(s, a).limit == s.limit && Next(s, a).active <= Max(s.active, s.limit)
  {
    hide Ledger.Inv, Ledger.Apply, ProgressStep, AllLive, ClaimAll;
    match a
    case Progress(g, reply) => DrainsOnReply(s, g, reply);
    case Cancel(id, reply) => DrainsOnReply(s, s.rpcs[id].current.value, reply);
    case _ =>
  }

  lemma DrainsOnReply(s: State, g: nat, reply: Outcome)
    requires g < |s.phases| && g < |s.router.claimed| && g < |s.replies|
    ensures var s' := ProgressStep(s, g, reply);
            s'.limit == s.limit && s'.active <= Max(s.active, s.limit)
  {
    hide EventOf, Ledger.AddStep, Ledger.PrintEntry, Carving.ImageToAnalyze;
  }

  /** After the limit was lowered beneath the count, the count only falls until it is back under it. */
  lemma {:induction false} OverLimitOnlyDrains(s: State, schedule: seq<Action>)
    requires NoLimitChange(schedule)
    ensures Run(s, schedule).limit == s.limit
    ensures Run(s, schedule).active <= Max(s.active, s.limit)
    decreases |schedule|
  {
    hide Enabled, Next;
    if schedule != [] {
      if Enabled(s, schedule[0]) {
        DrainsOnce(s, schedule[0]);
        OverLimitOnlyDrains(Next(s, schedule[0]), schedule[1..]);
      } else {
        OverLimitOnlyDrains(s, schedule[1..]);
      }
    }
  }

  ghost predicate EventOfGeneration(s: State, id: nat, g: nat)
  {
    id < |s.queue.added| && s.queue.added[id].source == Some(g)
  }

  /** The action answers generation g's write with an exception although the queue performed it. */
  ghost predicate LosesReply(s: State, a: Action, g: nat)
  {
    && g < |s.phases| && s.phases[g].Writing?
    && match a
       case Progress(h, reply) => h == g && reply.QueuedButRaised?
       case Cancel(id, reply) => id in s.rpcs && s.rpcs[id].Flushing? && s.rpcs[id].current == Some(g)
         && reply.QueuedButRaised?
       case _ => false
  }

  /** Some enabled action of the schedule does. */
  ghost predicate ReplyLost(s: State, schedule: seq<Action>, g: nat)
    decreases |schedule|
  {
    schedule != [] &&
    if Enabled(s, schedule[0]) then LosesReply(s, schedule[0], g) || ReplyLost(Next(s, schedule[0]), schedule[1..], g)
    else ReplyLost(s, schedule[1..], g)
  }

  ghost predicate LeftEvent(s: State, g: nat)
  {
    g < |s.phases| && s.phases[g].Raised? && s.phases[g].leftover.Some?
  }

  lemma LostStep(s: State, a: Action, g: nat)
    requires Enabled(s, a)
    ensures LeftEvent(Next(s, a), g) <==> LeftEvent(s, g) || LosesReply(s, a, g)
  {
    hide Ledger.Inv, Ledger.Apply, ProgressStep, Fits;
    match a
    case Progress(h, reply) => LostByReply(s, h, reply, g);
    case Cancel(id, reply) => LostByReply(s, s.rpcs[id].current.value, reply, g);
    case _ =>
  }

  lemma LostByReply(s: State, h: nat, reply: Outcome, g: nat)
    requires Awaiting(s, h) && Fits(s.phases[h], reply)
    ensures LeftEvent(ProgressStep(s, h, reply), g) <==>
            LeftEvent(s, g) || (g == h && s.phases[g].Writing? && reply.QueuedButRaised?)
  {
    hide Ledger.AddStep, EventOf;
  }

  lemma {:induction false} LostIff(s: State, schedule: seq<Action>, g: nat)
    ensures LeftEvent(Run(s, schedule), g) <==> LeftEvent(s, g) || ReplyLost(s, schedule, g)
    decreases |schedule|
  {
    hide Enabled, Next, LeftEvent, LosesReply;
    if schedule != [] {
      if Enabled(s, schedule[0]) {
        LostStep(s, schedule[0], g);
        LostIff(Next(s, schedule[0]), schedule[1..], g);
      } else {
        LostIff(s, schedule[1..], g);
      }
    }
  }

  ghost predicate HasEvent(s: State, g: nat)
  {
    exists id: nat :: EventOfGeneration(s, id, g)
  }

  /**
   A generation whose processing returned has exactly one event, one still in hand has none,
   and one that raised has at most one: it has one if and only if, in the course of the
   schedule, the reply to its write was lost.
  */
  lemma EventPerGeneration(schedule: seq<Action>, g: nat)
    ensures var s := Run(Init, schedule);
            g < |s.phases| ==>
              && (s.phases[g].Finished? ==> HasEvent(s, g))
              && (!Over(s.phases[g]) ==> !HasEvent(s, g))
              && (s.phases[g].Raised? ==> (HasEvent(s, g) <==> ReplyLost(Init, schedule, g)))
              && forall a: nat, b: nat :: EventOfGeneration(s, a, g) && EventOfGeneration(s, b, g) ==> a == b
  {
    hide Run, Partitioned, RecordsDescribed, CallsKept, SlotsCounted, Ownership, Ledger.Inv, ReplyLost;
    Reachable(schedule);
    LostIff(Init, schedule, g);
    var s := Run(Init, schedule);
    if g < |s.phases| {
      forall id: nat | EventOfGeneration(s, id, g) ensures Wrote(s.phases[g]) == Some(id) {}
      if Wrote(s.phases[g]).Some? {
        assert EventOfGeneration(s, Wrote(s.phases[g]).value, g);
      }
    }
  }

  ghost predicate NoReplyLost(schedule: seq<Action>)
  {
    forall i :: 0 <= i < |schedule| ==>
      !(schedule[i].Progress? && schedule[i].outcome.QueuedButRaised?)
        && !(schedule[i].Cancel? && schedule[i].reply.QueuedButRaised?)
  }

  lemma {:induction false} NoneLost(s: State, schedule: seq<Action>, g: nat)
    requires NoReplyLost(schedule)
    ensures !ReplyLost(s, schedule, g)
    decreases |schedule|
  {
    hide Enabled, Next;
    if schedule != [] {
      if Enabled(s, schedule[0]) {
        NoneLost(Next(s, schedule[0]), schedule[1..], g);
      } else {
        NoneLost(s, schedule[1..], g);
      }
    }
  }

  /** As long as the queue's replies arrive, exactly the generations whose processing returned have an event. */
  lemma EventIffReturned(schedule: seq<Action>, g: nat)
    requires NoReplyLost(schedule)
    ensures var s := Run(Init, schedule);
            g < |s.phases| ==> (HasEvent(s, g) <==> s.phases[g].Finished?)
  {
    NoneLost(Init, schedule, g);
    EventPerGeneration(schedule, g);
  }

  /**
   In every run an event says what the replies to its generation's processing told: the
   analyser's verdict, score, latency and model, the cached score under CACHE_HIT, or
   NO_IMAGE; and a payload is analysed only with an image in it and passed over only without one.
  */
  lemma EventTellsPath(schedule: seq<Action>, id: nat)
    ensures var s := Run(Init, schedule);
            id < |s.queue.added| && s.queue.added[id].source.Some? ==>
              var g := s.queue.added[id].source.value;
              && g < |s.router.claimed| && g < |s.replies|
              && EntryTold(s.queue.added[id].entry, s.router.claimed[g], s.replies[g])
  {
    ReachableTold(schedule);
  }

  lemma ReachableTold(schedule: seq<Action>)
    ensures Told(Run(Init, schedule))
  {
    hide Run, Partitioned, RecordsDescribed, CallsKept, SlotsCounted, Ownership, Ledger.Inv;
    Reachable([]);
    assert Run(Init, []) == Init by { EmptyRun(Init); }
    RunKeepsTold(Init, schedule);
  }

  lemma EmptyRun(s: State)
    ensures Run(s, []) == s
  {
  }

  ghost predicate NoErrorStored(phases: seq<Phase>)
  {
    forall g :: 0 <= g < |phases| ==>
      (phases[g].Storing? ==> phases[g].result.verdict != "ERROR") &&
      (phases[g].Persisting? ==> phases[g].result.verdict != "ERROR")
  }

  /** In every run, no result being written to the caches is an ERROR. */
  lemma {:induction false} ErrorsAreNotCached(s: State, schedule: seq<Action>)
    requires NoErrorStored(s.phases)
    ensures NoErrorStored(Run(s, schedule).phases)
    decreases |schedule|
  {
    if schedule != [] {
      var a := schedule[0];
      if Enabled(s, a) {
        NoErrorStep(s, a);
        ErrorsAreNotCached(Next(s, a), schedule[1..]);
      } else {
        ErrorsAreNotCached(s, schedule[1..]);
      }
    }
  }

  lemma NoErrorStep(s: State, a: Action)
    requires Enabled(s, a) && NoErrorStored(s.phases)
    ensures NoErrorStored(Next(s, a).phases)
  {
    hide Ledger.Inv, Ledger.Apply, ProgressStep;
    if a.Progress? {
      NoErrorProgress(s, a.generation, a.outcome);
    } else if a.Cancel? {
      NoErrorProgress(s, s.rpcs[a.rpc].current.value, a.reply);
    }
  }

  lemma NoErrorProgress(s: State, g: nat, outcome: Outcome)
    requires g < |s.phases| && g < |s.router.claimed| && g < |s.replies| && NoErrorStored(s.phases)
    ensures NoErrorStored(ProgressStep(s, g, outcome).phases)
  {
    hide ProgressStep;
    OnePhaseChanges(s, g, outcome);
    NoErrorReply(s, g, outcome);
  }

  lemma OnePhaseChanges(s: State, g: nat, outcome: Outcome)
    requires g < |s.phases| && g < |s.router.claimed| && g < |s.replies|
    ensures ProgressStep(s, g, outcome).phases == s.phases[g := ReplyStep(s, g, outcome).phases[g]]
  {
    hide EventOf, Ledger.AddStep, Ledger.PrintEntry, Carving.ImageToAnalyze;
  }

  lemma NoErrorReply(s: State, g: nat, outcome: Outcome)
    requires g < |s.phases| && g < |s.router.claimed| && NoErrorStored(s.phases)
    ensures var phase := ReplyStep(s, g, outcome).phases[g];
            phase.Storing? || phase.Persisting? ==> phase.result.verdict != "ERROR"
  {
    hide EventOf, Ledger.AddStep, Ledger.PrintEntry, Carving.ImageToAnalyze;
  }

  /** Endpoint and addresses are those of the first accepted chunk that ended up in the generation. */
  ghost predicate NamesFirstChunk(s: State, row: Ledger.Row, g: nat)
    requires |s.router.log| == |s.router.home|
  {
    exists k: nat ::
      && FirstAt(s.router.home, Claimed(g), k) && row.endpoint == Some(s.router.log[k].endpoint)
      && row.srcIp == Some(s.router.log[k].srcIp) && row.dstIp == Some(s.router.log[k].dstIp)
  }

  ghost predicate RowOfGeneration(s: State, row: Ledger.Row, g: nat)
    requires g < |s.router.claimed| && g < |s.replies| && |s.router.log| == |s.router.home|
  {
    && row.verdict.Some? && Says(SourceOf(s.replies[g]), row.verdict.value, row.score, row.latencyMs, row.modelType)
    && Warranted(s.replies[g], Join(Select(s.router.log, s.router.home, Claimed(g))))
    && row.streamId == Some(s.router.claimed[g].0)
    && NamesFirstChunk(s, row, g)
    && BuiltIn(s.replies[g]).Some? && row.sha256 == Some(BuiltIn(s.replies[g]).value.sha256)
    && row.pcapUri == Some(BuiltIn(s.replies[g]).value.pcapUri)
    && row.imageUri == Some(BuiltIn(s.replies[g]).value.imageUri)
    && row.bytesTotal == |Join(Select(s.router.log, s.router.home, Claimed(g)))|
  }

  /**
   End to end: an acknowledged message of a generation has exactly one ledger row. Its byte
   count is that of the accepted chunks which ended up in that generation, its endpoint and
   addresses are those of the first of them, and its verdict, score, latency, model, hash
   and URIs are what the processing of those bytes was told.
  */
  lemma AckedRowDescribesGeneration(schedule: seq<Action>, id: nat)
    ensures var s := Run(Init, schedule);
            id in s.queue.acked && id < |s.queue.added| && s.queue.added[id].source.Some? ==>
              var g := s.queue.added[id].source.value;
              && g < |s.router.claimed| && g < |s.replies| && |s.router.log| == |s.router.home|
              && exists i :: 0 <= i < |s.queue.rows| && s.queue.rows[i].0 == id
                   && RowOfGeneration(s, s.queue.rows[i].1, g)
                   && forall j :: 0 <= j < |s.queue.rows| && s.queue.rows[j].0 == id ==> j == i
  {
    Reachable(schedule);
    var s := Run(Init, schedule);
    if id in s.queue.acked && id < |s.queue.added| && s.queue.added[id].source.Some? {
      hide Run, PrintedFor, EntryTold, RowOfGeneration;
      hide Partitioned, RecordsDescribed, CallsKept, SlotsCounted, Ownership;
      EventTellsPath(schedule, id);
      var g := s.queue.added[id].source.value;
      assert Ledger.HasRow(s.queue, id);
      var i :| 0 <= i < |s.queue.rows| && s.queue.rows[i].0 == id;
      ParsedRow(s, g, s.queue.added[id].entry, s.queue.rows[i].1);
    }
  }

  lemma RowNamesFirstChunk(s: State, row: Ledger.Row, g: nat)
    requires g < |s.router.claimed| && RecordsDescribed(s.router)
    requires row.endpoint == Some(s.router.claimed[g].1.endpoint)
    requires row.srcIp == Some(s.router.claimed[g].1.metadata.srcIp)
    requires row.dstIp == Some(s.router.claimed[g].1.metadata.dstIp)
    ensures NamesFirstChunk(s, row, g)
  {
    assert Exists(s.router, Claimed(g)) && Described(s.router, Claimed(g));
    var k: nat :| FirstAt(s.router.home, Claimed(g), k) && s.router.claimed[g].1.metadata == s.router.log[k];
  }

  /** The row parsed from a told entry. */
  lemma ParsedRow(s: State, g: nat, entry: Ledger.Entry, row: Ledger.Row)
    requires g < |s.router.claimed| && g < |s.replies| && Partitioned(s.router) && RecordsDescribed(s.router)
    requires EntryTold(entry, s.router.claimed[g], s.replies[g]) && Ledger.ParseEntry(entry) == Some(row)
    ensures |s.router.log| == |s.router.home| && RowOfGeneration(s, row, g)
  {
    var event, nowMs :| Describes(event, s.router.claimed[g])
      && Tells(event, s.replies[g], Join(s.router.claimed[g].1.chunks))
      && entry == Ledger.PrintEntry(event, nowMs);
    Ledger.EntryRoundTrip(event, nowMs);
    hide Ledger.ParseEntry, Ledger.PrintEntry, Says, Warranted, SourceOf, BuiltIn, RecordsDescribed, NamesFirstChunk;
    assert Exists(s.router, Claimed(g)) && Contents(s.router, Claimed(g)) == s.router.claimed[g].1.chunks;
    RowNamesFirstChunk(s, row, g);
  }

  /** The first action of a schedule, when it is enabled. */
  lemma Unfold(s: State, a: Action, rest: seq<Action>) returns (next: State)
    requires Enabled(s, a)
    ensures next == Next(s, a) && Run(s, [a] + rest) == Run(next, rest)
  {
    next := Next(s, a);
    assert ([a] + rest)[1..] == rest;
  }

  const SAMPLE := Chunk(0, "10.0.0.1:80", "victim-a", "10.0.0.1", "10.0.0.2", [])

  const NOTHING := Built([], "", "", "")

  /** One call delivers one empty chunk, closes, and claims it. */
  lemma ClaimSample(rest: seq<Action>) returns (schedule: seq<Action>, s: State)
    ensures Run(Init, schedule) == Run(s, rest)
    ensures s.router.claimed == [(SAMPLE.sid, Record([[]], SAMPLE, SAMPLE.endpoint, 0.0))]
    ensures s.phases == [Waiting] && s.owners == [Call(0)] && s.replies == [[]] && s.queue == Ledger.EmptyQueue
    ensures 0 in s.rpcs && s.rpcs[0].Flushing? && s.rpcs[0].current == Some(0)
  {
    var b := [Close(0)] + ([Flush(0, SAMPLE.sid)] + rest);
    schedule := [Open(0)] + ([Receive(0, SAMPLE)] + ([Decide(0, true, 0.0)] + b));
    var s1 := Unfold(Init, Open(0), [Receive(0, SAMPLE)] + ([Decide(0, true, 0.0)] + b));
    var s2 := Unfold(s1, Receive(0, SAMPLE), [Decide(0, true, 0.0)] + b);
    var s3 := Unfold(s2, Decide(0, true, 0.0), b);
    var s4 := Unfold(s3, Close(0), [Flush(0, SAMPLE.sid)] + rest);
    s := Unfold(s4, Flush(0, SAMPLE.sid), rest);
    assert [] + [SAMPLE.payload] == [[]];
  }

  ghost predicate Sampling(s: State, phase: Phase)
  {
    && s.router.claimed == [(SAMPLE.sid, Record([[]], SAMPLE, SAMPLE.endpoint, 0.0))]
    && s.phases == [phase] && s.owners == [Call(0)] && |s.replies| == 1 && s.queue == Ledger.EmptyQueue
    && HeldByCall(s, 0, 0)
  }

  lemma SampleStep(s: State, outcome: Outcome, rest: seq<Action>, phase: Phase, phase': Phase) returns (next: State)
    requires Sampling(s, phase) && UnderWay(phase) && Fits(phase, outcome)
    requires !outcome.Queued? && !outcome.QueuedButRaised?
    requires |s.router.claimed| == |s.phases| == |s.replies| == 1
    requires ProgressStep(s, 0, outcome).phases == [phase']
    ensures Run(s, [Progress(0, outcome)] + rest) == Run(next, rest)
    ensures Sampling(next, phase')
  {
    next := Unfold(s, Progress(0, outcome), rest);
  }

  /** "A generation whose processing raised has no event" is false: the reply of XADD can be lost. */
  lemma RaisedGenerationCanHaveAnEvent() returns (schedule: seq<Action>)
    ensures var s := Run(Init, schedule);
            |s.phases| == 1 && s.phases[0].Raised? && EventOfGeneration(s, 0, 0)
  {
    hide Run, Sampling, ProgressStep, Next, Enabled;
    var f := [Progress(0, QueuedButRaised(1, 0))] + [];
    var e := [Progress(0, Miss)] + f;
    var d := [Progress(0, Return)] + ([Progress(0, Captured(NOTHING))] + e);
    var s0;
    schedule, s0 := ClaimSample([Begin(0)] + d);
    var s1 := BeginSample(s0, d);
    SampleOutcome(s1, Return, Registering, Building);
    var s2 := SampleStep(s1, Return, [Progress(0, Captured(NOTHING))] + e, Registering, Building);
    SampleOutcome(s2, Captured(NOTHING), Building, LookingUp(NOTHING));
    var s3 := SampleStep(s2, Captured(NOTHING), e, Building, LookingUp(NOTHING));
    var event := Ledger.Event(SAMPLE.sid, SAMPLE.endpoint, "", "NO_IMAGE", "0.0", SAMPLE.srcIp, SAMPLE.dstIp, 0, 0,
      "srnet", "", "");
    SampleMiss(s3, event);
    var s4 := SampleStep(s3, Miss, f, LookingUp(NOTHING), Writing(event));
    WriteAndRaise(s4, event);
  }

  lemma BeginSample(s: State, rest: seq<Action>) returns (next: State)
    requires s.router.claimed == [(SAMPLE.sid, Record([[]], SAMPLE, SAMPLE.endpoint, 0.0))]
    requires s.phases == [Waiting] && s.owners == [Call(0)] && |s.replies| == 1 && s.queue == Ledger.EmptyQueue
               && HeldByCall(s, 0, 0)
    ensures Run(s, [Begin(0)] + rest) == Run(next, rest) && Sampling(next, Registering)
  {
    next := Unfold(s, Begin(0), rest);
  }

  lemma SampleOutcome(s: State, outcome: Outcome, phase: Phase, phase': Phase)
    requires Sampling(s, phase)
    requires || (phase == Registering && outcome == Return && phase' == Building)
             || (phase == Building && outcome == Captured(NOTHING) && phase' == LookingUp(NOTHING))
    ensures |s.router.claimed| == |s.phases| == |s.replies| == 1
    ensures ProgressStep(s, 0, outcome).phases == [phase']
  {
  }

  lemma SampleMiss(s: State, event: Ledger.Event)
    requires Sampling(s, LookingUp(NOTHING))
    requires event == Ledger.Event(SAMPLE.sid, SAMPLE.endpoint, "", "NO_IMAGE", "0.0", SAMPLE.srcIp, SAMPLE.dstIp, 0,
               0, "srnet", "", "")
    ensures |s.router.claimed| == |s.phases| == |s.replies| == 1
    ensures ProgressStep(s, 0, Miss).phases == [Writing(event)]
  {
    assert Join([[]]) == [];
  }

  lemma WriteAndRaise(s: State, event: Ledger.Event)
    requires Sampling(s, Writing(event))
    ensures var s' := Run(s, [Progress(0, QueuedButRaised(1, 0))] + []);
            |s'.phases| == 1 && s'.phases[0].Raised? && EventOfGeneration(s', 0, 0)
  {
    var next := Unfold(s, Progress(0, QueuedButRaised(1, 0)), []);
  }
}
