/** Where cached quantities come from: every one was the stock at some moment of the run, or was there at
    the start (src/bin/inventory-worker.rs:123-149). */
module SagaCache {
  import opened Prelude
  import opened Orders
  import opened Outbox
  import opened Consumers
  import opened Store
  import opened SagaState
  import opened SagaInvariant
  import opened SagaSteps

  /** A refresh with nobody in between leaves exactly the stock in the cache, or no entry without a stock row. */
  lemma RefreshLeavesStock(s: Saga, sid: nat)
    requires sid in s.inventoryGroup.sessions && s.inventoryGroup.sessions[sid].phase.Stale?
    ensures var sku := s.inventoryGroup.sessions[sid].phase.sku;
            && Valid(s, [LoadForCache(sid), StoreInCache(sid)])
            && Exec(s, [LoadForCache(sid), StoreInCache(sid)]).cache
               == if sku in s.stocks then s.cache[sku := s.stocks[sku]] else s.cache - {sku}
  {
    var load, store := LoadForCache(sid), StoreInCache(sid);
    Cons(Apply(s, load), store, []);
    Cons(s, load, [store]);
    assert [load] + [store] == [load, store] && [store] + [] == [store];
  }

  // ----- Over whole runs -----

  /** After the first `j` steps of the run the stock of `sku` was `q`. */
  ghost predicate StockAt(s0: Saga, steps: seq<Step>, j: nat, sku: string, q: i32)
  {
    j <= |steps| && Valid(s0, steps[..j])
    && sku in Exec(s0, steps[..j]).stocks && Exec(s0, steps[..j]).stocks[sku] == q
  }

  ghost predicate WasStock(s0: Saga, steps: seq<Step>, sku: string, q: i32)
  {
    exists j: nat :: StockAt(s0, steps, j, sku, q)
  }

  lemma WasStockLater(s0: Saga, front: seq<Step>, last: Step, sku: string, q: i32)
    requires WasStock(s0, front, sku, q)
    ensures WasStock(s0, front + [last], sku, q)
  {
    var j: nat :| StockAt(s0, front, j, sku, q);
    assert (front + [last])[..j] == front[..j];
    assert StockAt(s0, front + [last], j, sku, q);
  }

  lemma IsStockNow(s0: Saga, front: seq<Step>, last: Step, sku: string)
    requires Valid(s0, front) && sku in Exec(s0, front).stocks
    ensures WasStock(s0, front + [last], sku, Exec(s0, front).stocks[sku])
  {
    assert (front + [last])[..|front|] == front;
    assert StockAt(s0, front + [last], |front|, sku, Exec(s0, front).stocks[sku]);
  }

  /** Every cached quantity has a source. */
  ghost predicate CacheSourced(s0: Saga, steps: seq<Step>, cache: map<string, i32>)
  {
    forall sku | sku in cache ::
      (sku in s0.cache && s0.cache[sku] == cache[sku]) || WasStock(s0, steps, sku, cache[sku])
  }

  /** Every quantity on its way to the cache has a source. */
  ghost predicate LoadsSourced(s0: Saga, steps: seq<Step>, g: Group)
  {
    forall sid | sid in g.sessions :: PhaseSourced(s0, steps, g.sessions[sid].phase)
  }

  ghost predicate PhaseSourced(s0: Saga, steps: seq<Step>, phase: SessionPhase)
  {
    phase.Loaded? && phase.quantity.Some? ==> WasStock(s0, steps, phase.sku, phase.quantity.value)
  }

  lemma SourcedLater(s0: Saga, front: seq<Step>, last: Step, cache: map<string, i32>, g: Group)
    requires CacheSourced(s0, front, cache) && LoadsSourced(s0, front, g)
    ensures CacheSourced(s0, front + [last], cache) && LoadsSourced(s0, front + [last], g)
  {
    forall sku: string, q: i32 | WasStock(s0, front, sku, q) ensures WasStock(s0, front + [last], sku, q) {
      WasStockLater(s0, front, last, sku, q);
    }
    forall sid | sid in g.sessions ensures PhaseSourced(s0, front + [last], g.sessions[sid].phase) {
      assert PhaseSourced(s0, front, g.sessions[sid].phase);
    }
  }

  /** Only the refresh loads. */
  ghost predicate NothingLoaded(before: Group, after: Group)
  {
    forall sid | sid in after.sessions && after.sessions[sid].phase.Loaded? ::
      sid in before.sessions && before.sessions[sid].phase == after.sessions[sid].phase
  }

  lemma HandleLoadsNothing(s: Saga, sid: nat, resultId: Uuid, rowId: nat)
    requires Holds(s.inventoryGroup, s.created.topic, sid)
    ensures HandleStep(s, sid, resultId, rowId).cache == s.cache
    ensures NothingLoaded(s.inventoryGroup, HandleStep(s, sid, resultId, rowId).inventoryGroup)
  {
  }

  lemma OthersLoadNothing(s: Saga, step: Step)
    requires Enabled(s, step) && !RefreshStep(step) && !step.Evict?
    ensures Apply(s, step).cache == s.cache && NothingLoaded(s.inventoryGroup, Apply(s, step).inventoryGroup)
  {
    if step.HandleCreated? {
      HandleLoadsNothing(s, step.session, step.resultId, step.rowId);
    }
  }

  lemma StepKeepsSources(s0: Saga, front: seq<Step>, last: Step)
    requires Valid(s0, front) && Enabled(Exec(s0, front), last)
    requires CacheSourced(s0, front, Exec(s0, front).cache) && LoadsSourced(s0, front, Exec(s0, front).inventoryGroup)
    ensures var after := Apply(Exec(s0, front), last);
            CacheSourced(s0, front + [last], after.cache) && LoadsSourced(s0, front + [last], after.inventoryGroup)
  {
    var s, after := Exec(s0, front), Apply(Exec(s0, front), last);
    SourcedLater(s0, front, last, s.cache, s.inventoryGroup);
    if last.LoadForCache? {
      var sku := s.inventoryGroup.sessions[last.session].phase.sku;
      if sku in s.stocks {
        IsStockNow(s0, front, last, sku);
      }
    } else if last.StoreInCache? {
      assert PhaseSourced(s0, front + [last], s.inventoryGroup.sessions[last.session].phase);
    } else if !RefreshStep(last) && !last.Evict? {
      OthersLoadNothing(s, last);
      forall sid | sid in after.inventoryGroup.sessions
        ensures PhaseSourced(s0, front + [last], after.inventoryGroup.sessions[sid].phase)
      {
        if after.inventoryGroup.sessions[sid].phase.Loaded? {
          assert PhaseSourced(s0, front + [last], s.inventoryGroup.sessions[sid].phase);
        }
      }
    }
  }

  lemma {:induction false} ValidFront(s: Saga, steps: seq<Step>)
    requires Valid(s, steps) && steps != []
    ensures var front, last := steps[..|steps| - 1], steps[|steps| - 1];
            && Valid(s, front) && Enabled(Exec(s, front), last)
            && Exec(s, steps) == Apply(Exec(s, front), last)
    decreases |steps|
  {
    if |steps| > 1 {
      ValidFront(Apply(s, steps[0]), steps[1..]);
      var front := steps[1..][..|steps| - 2];
      assert steps[1..][|steps| - 2] == steps[|steps| - 1];
      ConsOf(s, steps[0], front, steps[..|steps| - 1]);
    }
  }

  lemma {:induction false} SourcesHold(s0: Saga, steps: seq<Step>)
    requires Init(s0) && Valid(s0, steps)
    ensures CacheSourced(s0, steps, Exec(s0, steps).cache) && LoadsSourced(s0, steps, Exec(s0, steps).inventoryGroup)
    decreases |steps|
  {
    if steps != [] {
      var front, last := steps[..|steps| - 1], steps[|steps| - 1];
      ValidFront(s0, steps);
      SourcesHold(s0, front);
      StepKeepsSources(s0, front, last);
      assert front + [last] == steps;
    }
  }

  /** In every reachable state a cached quantity was the stock at some moment of the run, or was cached at the start. */
  lemma CachedWasStock(s0: Saga, steps: seq<Step>, sku: string)
    requires Init(s0) && Valid(s0, steps) && sku in Exec(s0, steps).cache
    ensures var q := Exec(s0, steps).cache[sku];
            || (sku in s0.cache && s0.cache[sku] == q)
            || exists j: nat :: j <= |steps| && Valid(s0, steps[..j])
                 && sku in Exec(s0, steps[..j]).stocks && Exec(s0, steps[..j]).stocks[sku] == q
  {
    SourcesHold(s0, steps);
    var q := Exec(s0, steps).cache[sku];
    if WasStock(s0, steps, sku, q) {
      var j: nat :| StockAt(s0, steps, j, sku, q);
    }
  }
}
