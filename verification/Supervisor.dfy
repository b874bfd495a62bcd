/** Attempts in sequence: the supervisor, its horizon, and what holds after any number of them. */
module Supervisor {

  import opened Wrappers
  import opened EngineTypes
  import opened Chain
  import opened PoolEvents
  import opened Snapshots
  import opened SnapshotJson
  import opened Store
  import opened IndexedStore
  import opened Provider
  import opened Publication
  import opened Refinement
  import opened History
  import opened Preflight
  import opened Indexer
  import BelowSource

  type Published = (PublicSnapshot, nat)

  /** The store serves a snapshot of this provider's chain, and its source is strictly before the horizon. */
  ghost predicate InStep(store: CanonicalStore, rpc: PublicRpc, clock: Clock, p: Published)
    reads store, rpc, clock
  {
    && PublishedAs(store.Tables(), store.cfg, store.digest, rpc.chain, rpc.head, p.0, p.1)
    && p.0.facts.sourceFrom.timestamp < clock.time - OBSERVATION_SECONDS
  }

  /** One provider per attempt, or none when the selection itself failed. */
  type Selection = Option<PublicRpc>

  ghost function Objects(selections: seq<Selection>): set<PublicRpc> {
    set i | 0 <= i < |selections| && selections[i].Some? :: selections[i].value
  }

  ghost predicate AllValid(selections: seq<Selection>)
    reads Objects(selections)
  {
    forall rpc :: rpc in Objects(selections) ==> rpc.Valid()
  }

  class IndexerSupervisor {
    const store: CanonicalStore
    const clock: Clock
    const model: ModelVersion
    const maxEventRangeBlocks: nat
    const historyBufferSeconds: nat
    const initialBackoffMs: nat
    const maximumBackoffMs: nat

    constructor (store: CanonicalStore, clock: Clock, model: ModelVersion, maxEventRangeBlocks: nat,
                 historyBufferSeconds: nat, initialBackoffMs: nat, maximumBackoffMs: nat)
      requires 0 < maxEventRangeBlocks && 0 < historyBufferSeconds && 0 < initialBackoffMs <= maximumBackoffMs
      ensures this.store == store && this.clock == clock && this.model == model && Configured()
    {
      this.store, this.clock, this.model := store, clock, model;
      this.maxEventRangeBlocks, this.historyBufferSeconds := maxEventRangeBlocks, historyBufferSeconds;
      this.initialBackoffMs, this.maximumBackoffMs := initialBackoffMs, maximumBackoffMs;
    }

    predicate Configured() {
      0 < maxEventRangeBlocks && 0 < historyBufferSeconds && 0 < initialBackoffMs <= maximumBackoffMs
    }

    ghost predicate Sound()
      reads this, store
    {
      Configured() && ValidConfig(store.cfg) && Anchored(store.Tables(), store.cfg)
    }

    method RunAttempt(selection: Selection) returns (r: Result<Published, Code>)
      requires Sound() && (selection.Some? ==> selection.value.Valid())
      modifies store, clock, Objects([selection])
      ensures Sound() && (selection.Some? ==> selection.value.Valid())
      ensures r.Ok? ==> selection.Some? && InStep(store, selection.value, clock, r.value)
      ensures r.Ok? ==> old(selection.value.head) <= store.state.cursor.value.block
      ensures r.Err? ==> store.state.status == Failed && store.state.lastError == Some(r.error)
    {
      hide Anchored, ValidConfig, PublishedAs;
      ghost var before := store.Tables();
      if selection.None? {
        store.SetState(Failed, Some(RpcUnavailable));
        AnchoredElsewhere(before, store.Tables(), store.cfg);
        return Err(RpcUnavailable);
      }
      var rpc := selection.value;
      assert rpc in Objects([selection]) by {
        assert [selection][0] == selection;
      }
      var range := if maxEventRangeBlocks < DEFAULT_MAX_RANGE_BLOCKS then maxEventRangeBlocks
                   else DEFAULT_MAX_RANGE_BLOCKS;
      var indexer := new IncrementalPublicIndexer(rpc, store, clock, model, range, DEFAULT_REORG_WINDOW_BLOCKS);
      var started := clock.Now();
      r := indexer.SyncOnce(started - OBSERVATION_SECONDS - historyBufferSeconds);
      if r.Err? {
        before := store.Tables();
        store.SetState(Failed, Some(r.error));
        AnchoredElsewhere(before, store.Tables(), store.cfg);
      } else {
        SourceIsEarly(store.Tables(), store.cfg, store.digest, rpc.chain, rpc.head, r.value);
      }
    }

    /** Attempts one provider after another; a failure doubles the wait, up to its bound. */
    method Run(selections: seq<Selection>)
      returns (lastResult: Option<Published>, lastError: Option<Code>, backoffMs: nat)
      requires Sound() && AllValid(selections)
      modifies store, clock, Objects(selections)
      ensures Sound() && AllValid(selections)
      ensures initialBackoffMs <= backoffMs <= maximumBackoffMs
      ensures |selections| > 0 && lastError.None? ==>
                selections[|selections| - 1].Some? && lastResult.Some?
                && InStep(store, selections[|selections| - 1].value, clock, lastResult.value)
      ensures lastError.Some? ==> store.state.status == Failed && store.state.lastError == lastError
    {
      hide Anchored, ValidConfig, PublishedAs;
      lastResult, lastError, backoffMs := None, None, initialBackoffMs;
      for k := 0 to |selections|
        invariant Sound() && AllValid(selections)
        invariant initialBackoffMs <= backoffMs <= maximumBackoffMs
        invariant k > 0 && lastError.None? ==>
                    selections[k - 1].Some? && lastResult.Some?
                    && InStep(store, selections[k - 1].value, clock, lastResult.value)
        invariant lastError.Some? ==> store.state.status == Failed && store.state.lastError == lastError
      {
        OneOfMany(selections, k);
        var r := RunAttempt(selections[k]);
        if r.Ok? {
          lastResult, lastError, backoffMs := Some(r.value), None, initialBackoffMs;
        } else {
          lastError := Some(r.error);
          backoffMs := if backoffMs * 2 <= maximumBackoffMs then backoffMs * 2 else maximumBackoffMs;
        }
      }
    }
  }

  lemma OneOfMany(selections: seq<Selection>, k: nat)
    requires k < |selections|
    ensures Objects([selections[k]]) <= Objects(selections)
    ensures selections[k].Some? ==> selections[k].value in Objects(selections)
  {
  }

  lemma SourceIsEarly(db: Db, cfg: Config, digest: Tree -> nat, chain: seq<Body>, head: nat, p: Published)
    requires Anchored(db, cfg) && PublishedAs(db, cfg, digest, chain, head, p.0, p.1)
    ensures p.0.facts.sourceFrom.timestamp <= db.state.source.value.required
  {
  }

  // ----- whole histories of the database

  /**
   A process that opens the database under some model version and runs attempts until it stops. What it finds need
   not be what the last finished attempt left: another attempt may have been stopped after any of its transactions.
   */
  datatype Session = Session(found: Db -> Db, model: ModelVersion, selections: seq<Selection>)

  /** Whatever was left, what is found comes from it by moves of the indexer. */
  ghost predicate StoppedAnywhere(found: Db -> Db, cfg: Config) {
    forall left :: BelowSource.Reaches(left, found(left), cfg, false)
  }

  ghost function AllObjects(sessions: seq<Session>): set<PublicRpc> {
    set i, rpc | 0 <= i < |sessions| && rpc in Objects(sessions[i].selections) :: rpc
  }

  ghost predicate SessionsValid(sessions: seq<Session>)
    reads AllObjects(sessions)
  {
    forall rpc :: rpc in AllObjects(sessions) ==> rpc.Valid()
  }

  /** Opens what is found of the tables that an earlier store object left. */
  method Open(found: Db, left: CanonicalStore, model: ModelVersion) returns (store: CanonicalStore)
    requires ValidConfig(left.cfg) && Anchored(left.Tables(), left.cfg)
    requires BelowSource.Reaches(left.Tables(), found, left.cfg, false)
    ensures fresh(store) && store.cfg == left.cfg && store.digest == left.digest
    ensures Anchored(store.Tables(), store.cfg)
  {
    hide Anchored, ValidConfig, BelowSource.Reaches;
    BelowSource.ReachesAnchored(left.Tables(), found, left.cfg);
    ResetAnchored(found, left.cfg, model);
    store := new CanonicalStore(left.cfg, left.digest, Some(found), model);
  }

  /**
   Starting from an empty database, after any sessions under any models against any chains, with attempts stopped
   after any transaction in between: the tables are anchored, and if the very last attempt succeeded, what is served
   is in step with its chain.
   */
  method RunSessions(cfg: Config, digest: Tree -> nat, clock: Clock, sessions: seq<Session>,
                     range: nat, buffer: nat)
    returns (store: CanonicalStore, last: Option<Published>)
    requires ValidConfig(cfg) && SessionsValid(sessions) && range > 0 && buffer > 0
    requires forall i :: 0 <= i < |sessions| ==> StoppedAnywhere(sessions[i].found, cfg)
    modifies clock, AllObjects(sessions)
    ensures store.cfg == cfg && store.digest == digest && Anchored(store.Tables(), cfg)
    ensures |sessions| > 0 && |sessions[|sessions| - 1].selections| > 0 && last.Some? ==>
              var final := sessions[|sessions| - 1].selections;
              final[|final| - 1].Some? && InStep(store, final[|final| - 1].value, clock, last.value)
  {
    hide Anchored, ValidConfig, PublishedAs, InStep, BelowSource.Reaches;
    ResetAnchored(Fresh(V13), cfg, V13);
    store := new CanonicalStore(cfg, digest, None, V13);
    last := None;
    for k := 0 to |sessions|
      invariant SessionsValid(sessions)
      invariant fresh(store) && store.cfg == cfg && store.digest == digest && Anchored(store.Tables(), cfg)
      invariant k > 0 && |sessions[k - 1].selections| > 0 && last.Some? ==>
                  var final := sessions[k - 1].selections;
                  final[|final| - 1].Some? && InStep(store, final[|final| - 1].value, clock, last.value)
    {
      var session := sessions[k];
      assert Objects(session.selections) <= AllObjects(sessions);
      store := Open(session.found(store.Tables()), store, session.model);
      var supervisor := new IndexerSupervisor(store, clock, session.model, range, buffer, 1_000, 30_000);
      var result, error, backoff := supervisor.Run(session.selections);
      last := if error.None? then result else None;
    }
  }

  /**
   Once an attempt has succeeded, the tables are those of one single batch over the live chain, and from then on
   evaluating what the store serves is evaluating the whole history of the pool.
   */
  lemma InStepIsFromScratch(store: CanonicalStore, rpc: PublicRpc, clock: Clock, p: Published)
    requires ValidConfig(store.cfg) && Anchored(store.Tables(), store.cfg) && InStep(store, rpc, clock, p)
    ensures IsFromScratch(store.Tables(), store.cfg, rpc.chain)
  {
    hide Anchored, NoRowBelow, Carries, Refers, IsFromScratch, LoadComplete, Accepted;
    IncrementalEqualsFromScratch(store.Tables(), store.cfg, rpc.chain);
  }

  lemma InStepEvaluatesHistory(store: CanonicalStore, rpc: PublicRpc, clock: Clock, p: Published,
                               intent: Intent, now: int, decimals: int)
    requires ValidConfig(store.cfg) && Anchored(store.Tables(), store.cfg) && rpc.Valid()
    requires InStep(store, rpc, clock, p) && clock.time <= now
    ensures p.0.facts.observed.block < |rpc.chain| && LoadComplete(store.Tables(), store.cfg, store.digest).Ok?
    ensures var served := LoadComplete(store.Tables(), store.cfg, store.digest).value;
            var loaded := SnapshotInput(served, intent, now, decimals);
            var pool := PoolHistory(store.cfg, store.state.model, rpc.chain, p.0.facts.observed.block);
            && EvaluatePreflight(loaded) == EvaluatePreflight(HistoryInput(pool, intent, now, decimals))
            && EvaluatePreflightV14(loaded) == EvaluatePreflightV14(HistoryInput(pool, intent, now, decimals))
  {
    hide PublishedAs, Anchored, LoadComplete, EvaluatePreflight, EvaluatePreflightV14;
    BoundedHistorySuffices(store.Tables(), store.cfg, store.digest, rpc.chain, rpc.head, p.0, p.1, intent, now,
            decimals);
  }
}
