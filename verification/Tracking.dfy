/**
 * The tracking pipeline of tracking.service.ts, as values: events aggregated into delta maps, deltas
 * upserted into the aggregate tables, and the queue machine around them.
 */
module Tracking {
  import opened Common

  const MAX_INGEST_EVENTS: nat := 200
  const MAX_IN_MEMORY_QUEUE: nat := 3000
  const MAX_ID_LENGTH: nat := 64

  /** An event with its time resolved; ids as they arrive, not validated yet. */
  datatype Event = Event(name: string, at: nat, workerProfileId: Option<string>, workerId: Option<string>,
                         categorySlug: Option<string>)

  datatype Kind = Click | CtaClick | Conversion | CategorySelect | Ignored

  function KindOf(name: string): Kind {
    if name == "marketplace.worker.card.click" || name == "dashboard.worker.card.click" then Click
    else if name == "marketplace.cta.click" || name == "dashboard.cta.click" then CtaClick
    else if name == "job.create.submit" then Conversion
    else if name == "marketplace.category.select" then CategorySelect
    else Ignored
  }

  function ValidId(id: Option<string>): Option<string> {
    if id.Some? && 1 <= |id.value| <= MAX_ID_LENGTH then id else None
  }

  /** `readWorkerProfileId` */
  function WorkerOf(e: Event): Option<string> {
    if ValidId(e.workerProfileId).Some? then e.workerProfileId else ValidId(e.workerId)
  }

  /** A row of the worker aggregates, and also a delta to it. */
  datatype Worker = Worker(interactions: nat, clicks: nat, ctaClicks: nat, conversions: nat, lastEventAt: Option<nat>)

  datatype Category = Category(interactions: nat, lastEventAt: Option<nat>)

  datatype Aggregates = Aggregates(workers: map<string, Worker>, categories: map<string, Category>)

  const NEW_WORKER := Worker(0, 0, 0, 0, None)
  const NEW_CATEGORY := Category(0, None)

  const NO_AGGREGATES := Aggregates(map[], map[])

  /** What one event adds to its worker. */
  function Bump(w: Worker, kind: Kind, at: nat): Worker {
    match kind
    case Click => Worker(w.interactions + 1, w.clicks + 1, w.ctaClicks, w.conversions, Some(at))
    case CtaClick => Worker(w.interactions + 1, w.clicks, w.ctaClicks + 1, w.conversions, Some(at))
    case Conversion => Worker(w.interactions + 1, w.clicks, w.ctaClicks, w.conversions + 1, Some(at))
    case _ => w
  }

  /** `applyEventToAggregateMaps` */
  function ApplyEvent(d: Aggregates, e: Event): Aggregates {
    match KindOf(e.name)
    case Ignored => d
    case CategorySelect =>
      var slug := ValidId(e.categorySlug);
      if slug.None? then d
      else
        var c := if slug.value in d.categories then d.categories[slug.value] else NEW_CATEGORY;
        d.(categories := d.categories[slug.value := Category(c.interactions + 1, Some(e.at))])
    case kind =>
      var id := WorkerOf(e);
      if id.None? then d
      else
        var w := if id.value in d.workers then d.workers[id.value] else NEW_WORKER;
        d.(workers := d.workers[id.value := Bump(w, kind, e.at)])
  }

  function Aggregate(batch: seq<Event>): Aggregates {
    if batch == [] then NO_AGGREGATES else ApplyEvent(Aggregate(batch[..|batch| - 1]), batch[|batch| - 1])
  }

  function OrNow(at: Option<nat>, now: nat): Option<nat> {
    if at.Some? then at else Some(now)
  }

  function AddWorker(row: Worker, d: Worker, now: nat): Worker {
    Worker(row.interactions + d.interactions, row.clicks + d.clicks, row.ctaClicks + d.ctaClicks,
           row.conversions + d.conversions, OrNow(d.lastEventAt, now))
  }

  function AddCategory(row: Category, d: Category, now: nat): Category {
    Category(row.interactions + d.interactions, OrNow(d.lastEventAt, now))
  }

  function MergeWorkers(t: map<string, Worker>, d: map<string, Worker>, now: nat): map<string, Worker> {
    map k | k in t.Keys + d.Keys ::
      if k !in d then t[k] else AddWorker(if k in t then t[k] else NEW_WORKER, d[k], now)
  }

  function MergeCategories(t: map<string, Category>, d: map<string, Category>, now: nat): map<string, Category> {
    map k | k in t.Keys + d.Keys ::
      if k !in d then t[k] else AddCategory(if k in t then t[k] else NEW_CATEGORY, d[k], now)
  }

  /** `persistDeltas`: one upsert for each key of the deltas. */
  function Upsert(t: Aggregates, d: Aggregates, now: nat): Aggregates {
    Aggregates(MergeWorkers(t.workers, d.workers, now), MergeCategories(t.categories, d.categories, now))
  }

  /** The reference: each event of the batch applied and persisted on its own, in order. */
  function Sequential(t: Aggregates, batch: seq<Event>, now: nat): Aggregates {
    if batch == [] then t
    else Upsert(Sequential(t, batch[..|batch| - 1], now), ApplyEvent(NO_AGGREGATES, batch[|batch| - 1]), now)
  }

  // ----- batched equals sequential -----

  predicate Dated(d: Aggregates) {
    && (forall k :: k in d.workers ==> d.workers[k].lastEventAt.Some?)
    && (forall k :: k in d.categories ==> d.categories[k].lastEventAt.Some?)
  }

  lemma {:induction false} AggregateIsDated(batch: seq<Event>)
    ensures Dated(Aggregate(batch))
  {
    if batch != [] {
      AggregateIsDated(batch[..|batch| - 1]);
    }
  }

  lemma OneMoreWorker(t: map<string, Worker>, d: map<string, Worker>, id: string, kind: Kind, at: nat, now: nat)
    requires kind.Click? || kind.CtaClick? || kind.Conversion?
    requires forall k :: k in d ==> d[k].lastEventAt.Some?
    ensures MergeWorkers(t, d[id := Bump(if id in d then d[id] else NEW_WORKER, kind, at)], now)
         == MergeWorkers(MergeWorkers(t, d, now), map[id := Bump(NEW_WORKER, kind, at)], now)
  {
  }

  lemma OneMoreCategory(t: map<string, Category>, d: map<string, Category>, slug: string, at: nat, now: nat)
    requires forall k :: k in d ==> d[k].lastEventAt.Some?
    ensures MergeCategories(t, d[slug := Category((if slug in d then d[slug] else NEW_CATEGORY).interactions + 1,
                                                  Some(at))], now)
         == MergeCategories(MergeCategories(t, d, now), map[slug := Category(1, Some(at))], now)
  {
  }

  lemma MergeNothing(w: map<string, Worker>, c: map<string, Category>, now: nat)
    ensures MergeWorkers(w, map[], now) == w && MergeCategories(c, map[], now) == c
  {
  }

  /** Adding an event to the deltas before they are persisted is persisting it after them. */
  lemma OneMore(t: Aggregates, d: Aggregates, e: Event, now: nat)
    requires Dated(d)
    ensures Upsert(t, ApplyEvent(d, e), now) == Upsert(Upsert(t, d, now), ApplyEvent(NO_AGGREGATES, e), now)
  {
    hide KindOf;
    hide WorkerOf;
    hide ValidId;
    hide MergeWorkers;
    hide MergeCategories;
    var slug, id, kind := ValidId(e.categorySlug), WorkerOf(e), KindOf(e.name);
    MergeNothing(MergeWorkers(t.workers, d.workers, now), MergeCategories(t.categories, d.categories, now), now);
    if kind.CategorySelect? && slug.Some? {
      OneMoreCategory(t.categories, d.categories, slug.value, e.at, now);
    } else if !kind.Ignored? && !kind.CategorySelect? && id.Some? {
      OneMoreWorker(t.workers, d.workers, id.value, kind, e.at, now);
    }
  }

  lemma UpsertNothing(t: Aggregates, now: nat)
    ensures Upsert(t, NO_AGGREGATES, now) == t
  {
    MergeNothing(t.workers, t.categories, now);
  }

  /** Batched tracking equals one-by-one tracking, counters and dates alike, for every key. */
  lemma {:induction false} BatchedIsSequential(t: Aggregates, batch: seq<Event>, now: nat)
    ensures Upsert(t, Aggregate(batch), now) == Sequential(t, batch, now)
  {
    if batch == [] {
      UpsertNothing(t, now);
    } else {
      var front := batch[..|batch| - 1];
      BatchedIsSequential(t, front, now);
      AggregateIsDated(front);
      OneMore(t, Aggregate(front), batch[|batch| - 1], now);
    }
  }

  lemma MergeIgnoresNow(t: Aggregates, d: Aggregates, now: nat, later: nat)
    requires Dated(d)
    ensures Upsert(t, d, now) == Upsert(t, d, later)
  {
    assert MergeWorkers(t.workers, d.workers, now) == MergeWorkers(t.workers, d.workers, later);
    assert MergeCategories(t.categories, d.categories, now) == MergeCategories(t.categories, d.categories, later);
  }

  /** The time of persisting never shows: every delta carries the time of its last event. */
  lemma {:induction false} SequentialIgnoresNow(t: Aggregates, batch: seq<Event>, now: nat, later: nat)
    ensures Sequential(t, batch, now) == Sequential(t, batch, later)
  {
    if batch != [] {
      SequentialIgnoresNow(t, batch[..|batch| - 1], now, later);
      var last := ApplyEvent(NO_AGGREGATES, batch[|batch| - 1]);
      MergeIgnoresNow(Sequential(t, batch[..|batch| - 1], now), last, now, later);
    }
  }

  lemma {:induction false} SequentialAppend(t: Aggregates, x: seq<Event>, y: seq<Event>, now: nat)
    ensures Sequential(t, x + y, now) == Sequential(Sequential(t, x, now), y, now)
    decreases |y|
  {
    if y == [] {
      assert x + y == x;
    } else {
      var front := y[..|y| - 1];
      SequentialAppend(t, x, front, now);
      assert (x + y)[..|x + y| - 1] == x + front;
    }
  }

  /** Every interaction of a worker is a click, a call-to-action click or a conversion. */
  predicate Counted(t: Aggregates) {
    forall k :: k in t.workers ==>
      t.workers[k].interactions == t.workers[k].clicks + t.workers[k].ctaClicks + t.workers[k].conversions
  }

  lemma {:induction false} AggregateIsCounted(batch: seq<Event>)
    ensures Counted(Aggregate(batch))
  {
    if batch != [] {
      AggregateIsCounted(batch[..|batch| - 1]);
    }
  }

  lemma UpsertIsCounted(t: Aggregates, d: Aggregates, now: nat)
    requires Counted(t) && Counted(d)
    ensures Counted(Upsert(t, d, now))
  {
  }

  // ----- what the counters mean, without the pipeline -----

  const CLICKS := {"marketplace.worker.card.click", "dashboard.worker.card.click"}
  const CTA_CLICKS := {"marketplace.cta.click", "dashboard.cta.click"}
  const CONVERSIONS := {"job.create.submit"}
  const CATEGORY_SELECTS := {"marketplace.category.select"}

  predicate IsId(id: string) {
    1 <= |id| <= 64
  }

  /** The event names the worker: by its profile id, or without a valid one by its worker id. */
  predicate Concerns(e: Event, id: string) {
    && IsId(id)
    && (e.workerProfileId == Some(id)
        || (e.workerId == Some(id) && (e.workerProfileId == None || !IsId(e.workerProfileId.value))))
  }

  predicate Selects(e: Event, slug: string) {
    IsId(slug) && e.categorySlug == Some(slug) && e.name in CATEGORY_SELECTS
  }

  /** How many of the events have one of the names and concern the worker. */
  function Count(events: seq<Event>, id: string, names: set<string>): nat {
    if events == [] then 0
    else
      var e := events[|events| - 1];
      Count(events[..|events| - 1], id, names) + if Concerns(e, id) && e.name in names then 1 else 0
  }

  function CountSelected(events: seq<Event>, slug: string): nat {
    if events == [] then 0
    else CountSelected(events[..|events| - 1], slug) + if Selects(events[|events| - 1], slug) then 1 else 0
  }

  /** The time of the last event in the list that engages with the worker. */
  function LastAt(events: seq<Event>, id: string): Option<nat> {
    if events == [] then None
    else
      var e := events[|events| - 1];
      if Concerns(e, id) && e.name in CLICKS + CTA_CLICKS + CONVERSIONS then Some(e.at)
      else LastAt(events[..|events| - 1], id)
  }

  function LastSelectedAt(events: seq<Event>, slug: string): Option<nat> {
    if events == [] then None
    else if Selects(events[|events| - 1], slug) then Some(events[|events| - 1].at)
    else LastSelectedAt(events[..|events| - 1], slug)
  }

  lemma NamesMean(name: string)
    ensures name in CLICKS <==> KindOf(name) == Click
    ensures name in CTA_CLICKS <==> KindOf(name) == CtaClick
    ensures name in CONVERSIONS <==> KindOf(name) == Conversion
    ensures name in CATEGORY_SELECTS <==> KindOf(name) == CategorySelect
  {
  }

  lemma IdsMean(e: Event, id: string)
    ensures Concerns(e, id) <==> WorkerOf(e) == Some(id)
    ensures Selects(e, id) <==> ValidId(e.categorySlug) == Some(id) && e.name in CATEGORY_SELECTS
  {
  }

  /** A worker's row exists iff an event engaged with the worker, and counts exactly those events. */
  lemma {:induction false} WorkerRowTallies(events: seq<Event>, id: string, now: nat)
    ensures var rows := Sequential(NO_AGGREGATES, events, now).workers;
            var clicks, ctas, conversions := Count(events, id, CLICKS), Count(events, id, CTA_CLICKS),
                Count(events, id, CONVERSIONS);
            && (id in rows <==> LastAt(events, id).Some?)
            && (id in rows ==> rows[id] == Worker(clicks + ctas + conversions, clicks, ctas, conversions,
                                                  LastAt(events, id)))
            && (id !in rows ==> clicks == ctas == conversions == 0)
  {
    hide KindOf;
    hide WorkerOf;
    hide ValidId;
    hide Concerns;
    if events != [] {
      var e := events[|events| - 1];
      WorkerRowTallies(events[..|events| - 1], id, now);
      NamesMean(e.name);
      IdsMean(e, id);
      hide CLICKS;
      hide CTA_CLICKS;
      hide CONVERSIONS;
    }
  }

  lemma {:induction false} CategoryRowTallies(events: seq<Event>, slug: string, now: nat)
    ensures var rows := Sequential(NO_AGGREGATES, events, now).categories;
            && (slug in rows <==> CountSelected(events, slug) > 0)
            && (slug in rows ==> rows[slug] == Category(CountSelected(events, slug), LastSelectedAt(events, slug)))
  {
    hide KindOf;
    hide WorkerOf;
    hide ValidId;
    hide Selects;
    if events != [] {
      var e := events[|events| - 1];
      CategoryRowTallies(events[..|events| - 1], slug, now);
      NamesMean(e.name);
      IdsMean(e, slug);
    }
  }

  // ----- the queue machine -----

  /** A batch that left the queue, and whether it was persisted or lost. */
  datatype Settled = Settled(batch: seq<Event>, persisted: bool)

  /** `timers` counts the callbacks that setTimeout still owes; `history` and `accepted` only record. */
  datatype Machine = Machine(queue: seq<Event>, flushScheduled: bool, flushInProgress: bool, timers: nat,
                             inFlight: seq<Event>,
                             tables: Aggregates, accepted: seq<Event>, history: seq<Settled>)

  const IDLE := Machine([], false, false, 0, [], NO_AGGREGATES, [], [])

  datatype Action = Ingest(events: seq<Event>) | TimerFires | PersistDone(ok: bool, at: nat)

  /** `scheduleFlush` */
  function Schedule(m: Machine): Machine {
    if m.flushScheduled then m else m.(flushScheduled := true, timers := m.timers + 1)
  }

  /** How many of the offered events a call accepts. */
  function Accepts(queued: nat, offered: nat): nat {
    Max(0, Min(Min(offered, MAX_INGEST_EVENTS), MAX_IN_MEMORY_QUEUE - queued))
  }

  function DoIngest(m: Machine, events: seq<Event>): Machine {
    var taken := events[..Accepts(|m.queue|, |events|)];
    Schedule(m.(queue := m.queue + taken, accepted := m.accepted + taken))
  }

  /** `flushQueue` up to its await. */
  function DoTimer(m: Machine): Machine {
    if m.timers == 0 then m
    else
      var m' := m.(flushScheduled := false, timers := m.timers - 1);
      if m.flushInProgress then Schedule(m')
      else if m.queue == [] then m'
      else m'.(flushInProgress := true, inFlight := m.queue, queue := [])
  }

  /** `flushQueue` after its await, when the transaction committed or failed. */
  function DoDone(m: Machine, ok: bool, at: nat): Machine {
    if !m.flushInProgress then m
    else
      var m' := m.(flushInProgress := false, inFlight := [], history := m.history + [Settled(m.inFlight, ok)],
                   tables := if ok then Upsert(m.tables, Aggregate(m.inFlight), at) else m.tables);
      if m.queue != [] then Schedule(m') else m'
  }

  function Act(m: Machine, a: Action): Machine {
    match a
    case Ingest(events) => DoIngest(m, events)
    case TimerFires => DoTimer(m)
    case PersistDone(ok, at) => DoDone(m, ok, at)
  }

  function Acts(m: Machine, actions: seq<Action>): Machine {
    if actions == [] then m else Act(Acts(m, actions[..|actions| - 1]), actions[|actions| - 1])
  }

  /** The events of the batches that left the queue, in order; of all of them or of the persisted ones. */
  function Gone(history: seq<Settled>, onlyPersisted: bool): seq<Event> {
    if history == [] then []
    else
      var last := history[|history| - 1];
      Gone(history[..|history| - 1], onlyPersisted) + (if last.persisted || !onlyPersisted then last.batch else [])
  }

  predicate MachineOk(m: Machine) {
    && |m.queue| <= MAX_IN_MEMORY_QUEUE && |m.inFlight| <= MAX_IN_MEMORY_QUEUE
    && m.timers == (if m.flushScheduled then 1 else 0)
    && (m.flushInProgress <==> m.inFlight != [])
    && (m.queue != [] ==> m.flushScheduled || m.flushInProgress)
    && m.accepted == Gone(m.history, false) + m.inFlight + m.queue
    && m.tables == Sequential(NO_AGGREGATES, Gone(m.history, true), 0)
    && Counted(m.tables)
  }

  lemma IngestIsOk(m: Machine, events: seq<Event>)
    requires MachineOk(m)
    ensures MachineOk(DoIngest(m, events))
  {
  }

  lemma TimerIsOk(m: Machine)
    requires MachineOk(m)
    ensures MachineOk(DoTimer(m))
  {
    assert Gone(m.history, false) + m.inFlight + m.queue == Gone(m.history, false) + (m.inFlight + m.queue);
  }

  lemma DoneIsOk(m: Machine, ok: bool, at: nat)
    requires MachineOk(m)
    ensures MachineOk(DoDone(m, ok, at))
  {
    if m.flushInProgress {
      var history := m.history + [Settled(m.inFlight, ok)];
      assert history[..|m.history|] == m.history;
      if ok {
        var before := Gone(m.history, true);
        BatchedIsSequential(m.tables, m.inFlight, at);
        SequentialIgnoresNow(m.tables, m.inFlight, at, 0);
        SequentialAppend(NO_AGGREGATES, before, m.inFlight, 0);
        AggregateIsCounted(m.inFlight);
        UpsertIsCounted(m.tables, Aggregate(m.inFlight), at);
      } else {
        assert Gone(history, true) == Gone(m.history, true);
      }
    }
  }

  lemma {:induction false} ActsAreOk(actions: seq<Action>)
    ensures MachineOk(Acts(IDLE, actions))
  {
    hide MachineOk;
    if actions == [] {
      IdleIsOk();
    } else {
      var m := Acts(IDLE, actions[..|actions| - 1]);
      ActsAreOk(actions[..|actions| - 1]);
      match actions[|actions| - 1]
      case Ingest(events) => IngestIsOk(m, events);
      case TimerFires => TimerIsOk(m);
      case PersistDone(ok, at) => DoneIsOk(m, ok, at);
    }
  }

  lemma IdleIsOk()
    ensures MachineOk(IDLE)
  {
  }

  /**
   * In any interleaving of ingests, timer callbacks and settled transactions: the queue is bounded, a
   * flush is due or running whenever events wait, no accepted event is lost track of, reordered or
   * duplicated, and the tables are what applying the persisted events one by one would have made them.
   */
  lemma QueueIsSafe(actions: seq<Action>)
    ensures var m := Acts(IDLE, actions);
            && |m.queue| <= MAX_IN_MEMORY_QUEUE
            && (m.queue != [] ==> m.timers == 1 || m.inFlight != [])
            && m.accepted == Gone(m.history, false) + m.inFlight + m.queue
            && m.tables == Sequential(NO_AGGREGATES, Gone(m.history, true), 0)
            && Counted(m.tables)
  {
    ActsAreOk(actions);
  }

  /**
   * An ingest takes the events from the front of the call, in order: all of them, or 200, or as many as fill the
   * queue to 3000; and a flush is due afterwards.
   */
  lemma IngestRule(m: Machine, events: seq<Event>) returns (n: nat)
    requires MachineOk(m)
    ensures n <= |events| && n <= 200 && |m.queue| + n <= 3000
    ensures n == |events| || n == 200 || |m.queue| + n == 3000
    ensures var m' := Act(m, Ingest(events));
            && m'.queue == m.queue + events[..n] && m'.accepted == m.accepted + events[..n]
            && m'.timers == 1 && m'.inFlight == m.inFlight && m'.tables == m.tables && m'.history == m.history
  {
    n := Accepts(|m.queue|, |events|);
  }

  /** A callback during a flush waits for another one; otherwise it sends off the whole queue, if there is one. */
  lemma TimerRule(m: Machine)
    requires MachineOk(m) && m.timers == 1
    ensures var m' := Act(m, TimerFires);
            && m'.tables == m.tables && m'.history == m.history && m'.accepted == m.accepted
            && if m.inFlight != [] then m'.timers == 1 && m'.inFlight == m.inFlight && m'.queue == m.queue
               else m'.timers == 0 && m'.inFlight == m.queue && m'.queue == []
  {
  }

  /** A batch that is persisted counts event by event, one that fails leaves the tables; either way it is gone. */
  lemma SettleRule(m: Machine, ok: bool, at: nat)
    requires MachineOk(m) && m.inFlight != []
    ensures var m' := Act(m, PersistDone(ok, at));
            && m'.tables == (if ok then Sequential(m.tables, m.inFlight, at) else m.tables)
            && m'.history == m.history + [Settled(m.inFlight, ok)]
            && m'.inFlight == [] && m'.queue == m.queue && m'.accepted == m.accepted
            && (m.queue != [] ==> m'.timers == 1)
  {
    BatchedIsSequential(m.tables, m.inFlight, at);
  }

  /** Once a transaction has settled, the next timer callback takes the whole queue into one batch. */
  lemma TimerDrains(actions: seq<Action>)
    ensures var m := Acts(IDLE, actions);
            m.queue != [] && !m.flushInProgress ==> DoTimer(m).inFlight == m.queue && DoTimer(m).queue == []
  {
    ActsAreOk(actions);
  }
}
