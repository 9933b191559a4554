/** TrackingService in its own, step-by-step form, with `flushQueue` cut at its await. */
module TrackingService {
  import opened Common
  import opened Tracking

  /** The two delta maps of one flush. */
  class DeltaMaps {
    var workers: map<string, Worker>
    var categories: map<string, Category>

    constructor ()
      ensures Deltas() == NO_AGGREGATES
    {
      workers, categories := map[], map[];
    }

    function Deltas(): Aggregates
      reads this
    {
      Aggregates(workers, categories)
    }

    method GetOrCreateWorkerDelta(id: string) returns (delta: Worker)
      modifies this`workers
      ensures delta == (if id in old(workers) then old(workers)[id] else NEW_WORKER)
      ensures workers == old(workers)[id := delta]
    {
      if id !in workers {
        workers := workers[id := NEW_WORKER];
      }
      delta := workers[id];
    }

    method GetOrCreateCategoryDelta(slug: string) returns (delta: Category)
      modifies this`categories
      ensures delta == (if slug in old(categories) then old(categories)[slug] else NEW_CATEGORY)
      ensures categories == old(categories)[slug := delta]
    {
      if slug !in categories {
        categories := categories[slug := NEW_CATEGORY];
      }
      delta := categories[slug];
    }

    /** `applyEventToAggregateMaps` */
    method ApplyEventToAggregateMaps(e: Event)
      modifies this
      ensures Deltas() == ApplyEvent(old(Deltas()), e)
    {
      hide KindOf;
      hide WorkerOf;
      hide ValidId;
      var kind := KindOf(e.name);
      if kind == Ignored {
        return;
      }
      if kind == CategorySelect {
        var slug := ValidId(e.categorySlug);
        if slug.None? {
          return;
        }
        var count := GetOrCreateCategoryDelta(slug.value);
        count := count.(interactions := count.interactions + 1);
        count := count.(lastEventAt := Some(e.at));
        categories := categories[slug.value := count];
        return;
      }
      var id := WorkerOf(e);
      if id.None? {
        return;
      }
      var next := GetOrCreateWorkerDelta(id.value);
      next := next.(interactions := next.interactions + 1);
      match kind {
        case Click => next := next.(clicks := next.clicks + 1);
        case CtaClick => next := next.(ctaClicks := next.ctaClicks + 1);
        case Conversion => next := next.(conversions := next.conversions + 1);
      }
      next := next.(lastEventAt := Some(e.at));
      workers := workers[id.value := next];
    }
  }

  class TrackingService {
    var queue: seq<Event>
    var flushScheduled: bool
    var flushInProgress: bool
    var timers: nat
    var inFlight: seq<Event>
    var workers: map<string, Worker>
    var categories: map<string, Category>
    ghost var accepted: seq<Event>
    ghost var history: seq<Settled>

    constructor ()
      ensures State() == IDLE
    {
      queue, flushScheduled, flushInProgress, timers, inFlight := [], false, false, 0, [];
      workers, categories := map[], map[];
      accepted, history := [], [];
    }

    ghost function State(): Machine
      reads this
    {
      Machine(queue, flushScheduled, flushInProgress, timers, inFlight, Aggregates(workers, categories), accepted,
              history)
    }

    method ScheduleFlush()
      modifies this
      ensures State() == Schedule(old(State()))
    {
      if flushScheduled {
        return;
      }
      flushScheduled := true;
      timers := timers + 1;
    }

    /** `ingestEvents`: the first events that fit are queued, the others are counted as dropped. */
    method IngestEvents(events: seq<Event>) returns (taken: nat, dropped: nat)
      requires |queue| <= MAX_IN_MEMORY_QUEUE
      modifies this
      ensures State() == Act(old(State()), Ingest(events))
      ensures taken == Accepts(|old(queue)|, |events|) && taken + dropped == Min(|events|, MAX_INGEST_EVENTS)
    {
      var trimmed := events[..Min(|events|, MAX_INGEST_EVENTS)];
      taken, dropped := 0, 0;
      for n := 0 to |trimmed|
        invariant taken + dropped == n && taken == Min(n, MAX_IN_MEMORY_QUEUE - |old(queue)|)
        invariant State() == old(State()).(queue := old(queue) + events[..taken],
                                           accepted := old(accepted) + events[..taken])
      {
        if |queue| >= MAX_IN_MEMORY_QUEUE {
          dropped := dropped + 1;
        } else {
          queue := queue + [trimmed[n]];
          accepted := accepted + [trimmed[n]];
          taken := taken + 1;
          assert events[..taken] == events[..taken - 1] + [trimmed[n]];
        }
      }
      ScheduleFlush();
    }

    /** `flushQueue`, called back by a timer, up to the transaction it awaits. */
    method FlushQueue() returns (deltas: DeltaMaps)
      requires timers > 0
      modifies this
      ensures State() == Act(old(State()), TimerFires)
      ensures fresh(deltas) && (!old(flushInProgress) && old(queue) != [] ==> deltas.Deltas() == Aggregate(inFlight))
    {
      deltas := new DeltaMaps();
      timers := timers - 1;
      flushScheduled := false;
      if flushInProgress {
        ScheduleFlush();
        return;
      }
      if |queue| == 0 {
        return;
      }
      flushInProgress := true;
      inFlight, queue := queue, [];
      for n := 0 to |inFlight|
        invariant State() == Act(old(State()), TimerFires) && |inFlight| == |old(queue)|
        invariant deltas.Deltas() == Aggregate(inFlight[..n]) && fresh(deltas)
      {
        assert inFlight[..n + 1][..n] == inFlight[..n];
        deltas.ApplyEventToAggregateMaps(inFlight[n]);
      }
      assert inFlight[..|inFlight|] == inFlight;
    }

    /** `persistDeltas`, key by key in any order. */
    method PersistDeltas(d: Aggregates, now: nat)
      modifies this`workers, this`categories
      ensures Aggregates(workers, categories) == Upsert(old(Aggregates(workers, categories)), d, now)
    {
      ghost var was := Aggregates(workers, categories);
      if |d.workers| == 0 && |d.categories| == 0 {
        assert d.workers == map[] && d.categories == map[];
        UpsertNothing(was, now);
        return;
      }
      UpsertWorkers(d.workers, now);
      UpsertCategories(d.categories, now);
    }

    method UpsertWorkers(d: map<string, Worker>, now: nat)
      modifies this`workers
      ensures workers == MergeWorkers(old(workers), d, now)
    {
      ghost var goal := MergeWorkers(workers, d, now);
      var keys := d.Keys;
      while keys != {}
        invariant keys <= d.Keys
        invariant workers.Keys == old(workers).Keys + (d.Keys - keys)
        invariant forall k :: k in workers ==> workers[k] == if k in keys then old(workers)[k] else goal[k]
        decreases keys
      {
        var k :| k in keys;
        var delta := d[k];
        if k in workers {
          workers := workers[k := AddWorker(workers[k], delta, now)];
        } else {
          workers := workers[k := Worker(delta.interactions, delta.clicks, delta.ctaClicks, delta.conversions,
                                         OrNow(delta.lastEventAt, now))];
        }
        keys := keys - {k};
      }
      assert workers.Keys == goal.Keys;
    }

    method UpsertCategories(d: map<string, Category>, now: nat)
      modifies this`categories
      ensures categories == MergeCategories(old(categories), d, now)
    {
      ghost var goal := MergeCategories(categories, d, now);
      var keys := d.Keys;
      while keys != {}
        invariant keys <= d.Keys
        invariant categories.Keys == old(categories).Keys + (d.Keys - keys)
        invariant forall k :: k in categories ==> categories[k] == if k in keys then old(categories)[k] else goal[k]
        decreases keys
      {
        var k :| k in keys;
        var delta := d[k];
        if k in categories {
          categories := categories[k := AddCategory(categories[k], delta, now)];
        } else {
          categories := categories[k := Category(delta.interactions, OrNow(delta.lastEventAt, now))];
        }
        keys := keys - {k};
      }
      assert categories.Keys == goal.Keys;
    }

    /** The rest of `flushQueue`, when the awaited transaction has committed (`ok`) or failed. */
    method FinishFlush(deltas: DeltaMaps, ok: bool, now: nat)
      requires flushInProgress && deltas.Deltas() == Aggregate(inFlight)
      modifies this
      ensures State() == Act(old(State()), PersistDone(ok, now))
    {
      if ok {
        PersistDeltas(deltas.Deltas(), now);
      }
      history := history + [Settled(inFlight, ok)];
      flushInProgress := false;
      inFlight := [];
      if |queue| > 0 {
        ScheduleFlush();
      }
    }
  }
}
