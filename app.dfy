/** The application shell (App.tsx): the generate handler, which runs the two
    generation steps behind a single-flight flag and the usage gate and then
    commits the result to history and usage, and the choice of what the page
    shows. */
module Orchestrator {
  import opened Common
  import opened Types
  import opened Storage
  import opened Usage
  import opened History

  /** The one error text the handler shows (App.tsx:31). */
  const ERROR_MESSAGE: string := "Something went wrong while generating the plan. Please try again."

  /** The outcome of one generation call: the service either answers with a
      value or throws. */
  datatype Gen<+T> = Ok(value: T) | Fail

  /** What the handler does that reaches outside the component, in order,
      with the `isLoading` and `error` values in force at that moment. */
  datatype Event =
    | PlanRequested(idea: string, loading: bool, error: Option<string>)
    | PageRequested(idea: string, plan: MVPPlan, loading: bool, error: Option<string>)
    | HistoryAdded(plan: MVPPlan, content: LandingPageContent)
    | UsageIncremented

  /** The component's state: its two flags, the usage hook's count, the
      history hook's list, and the storage both hooks share. */
  datatype AppState = AppState(
    isLoading: bool,
    error: Option<string>,
    usageCount: int,
    history: seq<HistoryEntry>,
    store: StoreModel)

  /** What one run of the handler takes from the world: the fresh id and
      timestamp of the entry, the date text, and whether each storage write
      fits the quota. */
  datatype Env = Env(id: string, createdAt: string, today: string, historyFits: bool, usageFits: bool)

  /** The handler returns at once (App.tsx:19). */
  predicate Guarded(a: AppState)
  {
    a.isLoading || IsLimitReached(UsageState(a.usageCount, a.store))
  }

  /** Both generation steps answer, the second given the first's plan. */
  predicate BothSucceed(idea: string, planService: string -> Gen<MVPPlan>,
                        pageService: (string, MVPPlan) -> Gen<LandingPageContent>)
  {
    planService(idea).Ok? && pageService(idea, planService(idea).value).Ok?
  }

  /** The number of history commits in a trace. */
  function Adds(events: seq<Event>): (n: nat)
    ensures n <= |events|
  {
    if events == [] then 0 else (if events[0].HistoryAdded? then 1 else 0) + Adds(events[1..])
  }

  lemma {:induction false} AddsAppend(e: seq<Event>, f: seq<Event>)
    ensures Adds(e + f) == Adds(e) + Adds(f)
  {
    if e == [] {
      assert e + f == f;
    } else {
      assert (e + f)[1..] == e[1..] + f;
      AddsAppend(e[1..], f);
    }
  }

  /** `handleGenerate` (App.tsx:18-36), with the two services as functions
      and the clock, id and quota as `env`. */
  function Generate(a: AppState, idea: string, planService: string -> Gen<MVPPlan>,
                    pageService: (string, MVPPlan) -> Gen<LandingPageContent>, env: Env): (r: (AppState, seq<Event>))
    // single flight and the gate: nothing changes and nothing is called
    ensures Guarded(a) ==> r == (a, [])
    // otherwise the flags are set before the first call, and cleared on every exit
    ensures !Guarded(a) ==> |r.1| >= 1 && r.1[0] == PlanRequested(idea, true, None) && !r.0.isLoading
    // the page is asked for only after the plan, with that plan and the same idea
    ensures forall k :: 0 <= k < |r.1| && r.1[k].PageRequested? ==>
      k == 1 && planService(idea).Ok? && r.1[k] == PageRequested(idea, planService(idea).value, true, None)
    // a failed step: the fixed error, and history, usage and storage untouched
    ensures !Guarded(a) && !BothSucceed(idea, planService, pageService) ==>
      r.0 == a.(error := Some(ERROR_MESSAGE)) && Adds(r.1) == 0 && UsageIncremented !in r.1
    // the exact trace of each failed step
    ensures !Guarded(a) && planService(idea).Fail? ==> r.1 == [PlanRequested(idea, true, None)]
    ensures !Guarded(a) && planService(idea).Ok? && pageService(idea, planService(idea).value).Fail? ==>
      r.1 == [PlanRequested(idea, true, None), PageRequested(idea, planService(idea).value, true, None)]
    // both succeed: one history commit, then one usage increment
    ensures !Guarded(a) && BothSucceed(idea, planService, pageService) ==>
      var plan := planService(idea).value; var content := pageService(idea, plan).value;
      && r.1 == [PlanRequested(idea, true, None), PageRequested(idea, plan, true, None),
                 HistoryAdded(plan, content), UsageIncremented]
      && r.0.history == [HistoryEntry(env.id, plan, content, env.createdAt)] + a.history
      && (r.0.error.None? <==> a.store.available)
      && (r.0.error.Some? ==> r.0.error == Some(ERROR_MESSAGE))
      && (a.store.available && env.usageFits ==> r.0.usageCount == TodaysCount(a.store, env.today) + 1)
      && (!env.usageFits ==> r.0.usageCount == a.usageCount)
      && (!a.store.available ==> r.0.usageCount == a.usageCount)
      && (a.store.available && env.historyFits ==>
            HISTORY_KEY in r.0.store.items && r.0.store.items[HISTORY_KEY] == HistoryList(r.0.history))
      && (a.store.available && env.usageFits ==>
            USAGE_KEY in r.0.store.items && r.0.store.items[USAGE_KEY] == UsageRecord(r.0.usageCount, env.today))
      // a failed history write keeps the stored list as it was
      && (a.store.available && !env.historyFits ==>
            && (HISTORY_KEY in r.0.store.items <==> HISTORY_KEY in a.store.items)
            && (HISTORY_KEY in a.store.items ==> r.0.store.items[HISTORY_KEY] == a.store.items[HISTORY_KEY]))
      // a failed usage write leaves the key settled, with today's count unchanged
      && (a.store.available && !env.usageFits ==>
            Settled(r.0.store, env.today) && TodaysCount(r.0.store, env.today) == TodaysCount(a.store, env.today))
    // an unavailable store is not changed
    ensures !a.store.available ==> r.0.store == a.store
    // storage changes at the two keys only
    ensures r.0.store.available == a.store.available
    ensures r.0.store.items - {HISTORY_KEY, USAGE_KEY} == a.store.items - {HISTORY_KEY, USAGE_KEY}
  {
    if Guarded(a) then (a, [])
    else
      var asked := [PlanRequested(idea, true, None)];
      var failed := a.(error := Some(ERROR_MESSAGE));
      match planService(idea)
      case Fail => (failed, asked)
      case Ok(plan) =>
        var asked2 := asked + [PageRequested(idea, plan, true, None)];
        match pageService(idea, plan)
        case Fail => (failed, asked2)
        case Ok(content) =>
          var h := AddEntry(HistoryState(a.history, a.store), plan, content, env.id, env.createdAt, env.historyFits);
          TodaysCountIgnoresHistory(a.store, h.store, env.today);
          var (inc, u) := Increment(UsageState(a.usageCount, h.store), env.today, env.usageFits);
          var error := if inc.Throw? then Some(ERROR_MESSAGE) else None;
          (AppState(false, error, u.usageCount, h.history, u.store),
           asked2 + [HistoryAdded(plan, content), UsageIncremented])
  }

  /** Writing the history key does not move today's usage count. */
  lemma TodaysCountIgnoresHistory(s: StoreModel, t: StoreModel, today: string)
    requires SameExcept(s, t, HISTORY_KEY)
    ensures TodaysCount(s, today) == TodaysCount(t, today)
  {
    assert USAGE_KEY != HISTORY_KEY;
    assert USAGE_KEY in s.items <==> USAGE_KEY in s.items - {HISTORY_KEY};
    assert USAGE_KEY in t.items <==> USAGE_KEY in t.items - {HISTORY_KEY};
    if USAGE_KEY in s.items {
      assert s.items[USAGE_KEY] == (s.items - {HISTORY_KEY})[USAGE_KEY];
      assert t.items[USAGE_KEY] == (t.items - {HISTORY_KEY})[USAGE_KEY];
    }
  }

  /** `latestResult` (App.tsx:38). */
  function LatestResult(history: seq<HistoryEntry>): (r: Option<HistoryEntry>)
    ensures r.Some? <==> |history| > 0
    ensures r.Some? ==> r.value == history[0]
  {
    if |history| > 0 then Some(history[0]) else None
  }

  /** The top panel: the paywall with the limit, or the idea form. */
  datatype Panel = Paywall(limit: int) | HeroForm(isLoading: bool)

  /** What the page shows (App.tsx:54-78): the panel, the error banner, the
      loader, the latest result and the history list. */
  datatype View = View(
    panel: Panel,
    errorBanner: Option<string>,
    loader: bool,
    result: Option<HistoryEntry>,
    historyList: Option<seq<HistoryEntry>>)

  function ViewOf(a: AppState): (v: View)
    ensures v.panel.Paywall? <==> IsLimitReached(UsageState(a.usageCount, a.store))
    ensures v.panel == Paywall(USAGE_LIMIT) || v.panel == HeroForm(a.isLoading)
    ensures v.errorBanner.Some? <==> a.error.Some? && a.error.value != ""
    ensures v.errorBanner.Some? ==> v.errorBanner == a.error
    ensures v.loader <==> a.isLoading
    ensures v.result.Some? <==> !a.isLoading && |a.history| > 0
    ensures v.result.Some? ==> v.result == LatestResult(a.history)
    ensures v.historyList.Some? <==> !a.isLoading && |a.history| > 0
    ensures v.historyList.Some? ==> v.historyList.value == a.history
  {
    var limited := IsLimitReached(UsageState(a.usageCount, a.store));
    View(
      if limited then Paywall(USAGE_LIMIT) else HeroForm(a.isLoading),
      // `{error && ...}`: the empty text is falsy
      if a.error.Some? && a.error.value != "" then a.error else None,
      a.isLoading,
      if !a.isLoading then LatestResult(a.history) else None,
      if !a.isLoading && |a.history| > 0 then Some(a.history) else None)
  }

  /** After both steps succeed on a working store the page shows the new
      entry as the result and at the head of the list, with no error and no
      loader. */
  lemma SuccessShowsNewEntry(a: AppState, idea: string, planService: string -> Gen<MVPPlan>,
                             pageService: (string, MVPPlan) -> Gen<LandingPageContent>, env: Env)
    requires !Guarded(a) && BothSucceed(idea, planService, pageService) && a.store.available
    ensures var v := ViewOf(Generate(a, idea, planService, pageService, env).0);
      var plan := planService(idea).value;
      var entry := HistoryEntry(env.id, plan, pageService(idea, plan).value, env.createdAt);
      && v.result == Some(entry)
      && v.historyList.Some? && v.historyList.value[0] == entry
      && v.errorBanner.None? && !v.loader
  {
  }

  /** A failed step shows the fixed error and leaves the result as it was. */
  lemma FailureShowsError(a: AppState, idea: string, planService: string -> Gen<MVPPlan>,
                          pageService: (string, MVPPlan) -> Gen<LandingPageContent>, env: Env)
    requires !Guarded(a) && !BothSucceed(idea, planService, pageService)
    ensures var v := ViewOf(Generate(a, idea, planService, pageService, env).0);
      && v.errorBanner == Some(ERROR_MESSAGE)
      && v.result == LatestResult(a.history)
      && v.panel == ViewOf(a).panel
  {
  }

  /** The usage of the component as a usage-gate state. */
  function UsageOf(a: AppState): UsageState
  {
    UsageState(a.usageCount, a.store)
  }

  /** One run from a state whose count agrees with the store, on a working
      store whose writes fit: agreement is kept, the flag is down, and the
      count grows by the number of commits, zero or one. */
  lemma GenerateKeepsSync(a: AppState, idea: string, planService: string -> Gen<MVPPlan>,
                          pageService: (string, MVPPlan) -> Gen<LandingPageContent>, env: Env)
    requires !a.isLoading && InSync(UsageOf(a), env.today) && env.usageFits
    ensures var r := Generate(a, idea, planService, pageService, env);
      && !r.0.isLoading && InSync(UsageOf(r.0), env.today)
      && Adds(r.1) <= 1
      && r.0.usageCount == a.usageCount + Adds(r.1)
      && (Guarded(a) ==> Adds(r.1) == 0)
  {
    var r := Generate(a, idea, planService, pageService, env);
    if !Guarded(a) && BothSucceed(idea, planService, pageService) {
      var plan := planService(idea).value;
      var content := pageService(idea, plan).value;
      var h := AddEntry(HistoryState(a.history, a.store), plan, content, env.id, env.createdAt, env.historyFits);
      TodaysCountIgnoresHistory(a.store, h.store, env.today);
      IncrementKeepsSync(UsageState(a.usageCount, h.store), env.today);
      var t := r.1;
      assert t[1..][1..][1..][1..] == [];
      assert Adds(t[1..][1..][1..]) == 0;
      assert Adds(t[1..][1..]) == 1;
      assert Adds(t) == 1;
    } else if !Guarded(a) {
      assert Adds(r.1) == 0;
    }
  }

  /** After the page loads on a working store, the usage effect succeeds and,
      once the history effect has run too, memory agrees with the store: a
      session starting from a loaded page meets `SessionRespectsLimit`'s
      precondition. */
  lemma MountedPageInSync(u: UsageState, history: seq<HistoryEntry>, today: string)
    requires u.store.available
    ensures var (uc, m) := MountEffect(u, today);
      var (_, h) := LoadEffect(HistoryState(history, m.store));
      uc.Normal? && InSync(UsageState(m.usageCount, h.store), today)
  {
    var (uc, m) := MountEffect(u, today);
    MountSyncs(u, today);
    var (_, h) := LoadEffect(HistoryState(history, m.store));
    TodaysCountIgnoresHistory(m.store, h.store, today);
  }

  /** One request: the idea typed, what the world supplies for it, and how
      the two services answer this time (a retried idea may get a different
      answer). */
  datatype Request = Request(idea: string, env: Env, planService: string -> Gen<MVPPlan>,
                             pageService: (string, MVPPlan) -> Gen<LandingPageContent>)

  /** A session: the handler run once per request, in order, each run
      finishing before the next starts. */
  function Session(a: AppState, requests: seq<Request>): (AppState, seq<Event>)
    decreases |requests|
  {
    if requests == [] then (a, [])
    else
      var q := requests[0];
      var (b, e) := Generate(a, q.idea, q.planService, q.pageService, q.env);
      var (c, f) := Session(b, requests[1..]);
      (c, e + f)
  }

  /** How many more generations the gate lets through from a count. */
  function Allowance(count: int): nat
  {
    if count >= USAGE_LIMIT then 0 else USAGE_LIMIT - count
  }

  /** The daily limit holds over a whole session on one day: starting from
      an idle state whose count agrees with the store, with every write
      fitting, no more than `USAGE_LIMIT - count` generations are committed,
      whatever the services answer. */
  lemma {:induction false} SessionRespectsLimit(a: AppState, requests: seq<Request>, today: string)
    requires !a.isLoading && InSync(UsageOf(a), today)
    requires forall k :: 0 <= k < |requests| ==> requests[k].env.today == today && requests[k].env.usageFits
    ensures Adds(Session(a, requests).1) <= Allowance(a.usageCount)
    decreases |requests|
  {
    if requests != [] {
      var q := requests[0];
      var (b, e) := Generate(a, q.idea, q.planService, q.pageService, q.env);
      GenerateKeepsSync(a, q.idea, q.planService, q.pageService, q.env);
      var (c, f) := Session(b, requests[1..]);
      SessionRespectsLimit(b, requests[1..], today);
      AddsAppend(e, f);
    }
  }

  /** When the usage write never fits the quota, the count never moves, so
      every run with both steps succeeding commits: the gate never closes. */
  lemma QuotaFullNeverCloses(a: AppState, idea: string, planService: string -> Gen<MVPPlan>,
                             pageService: (string, MVPPlan) -> Gen<LandingPageContent>, env: Env)
    requires !Guarded(a) && BothSucceed(idea, planService, pageService) && !env.usageFits
    ensures var r := Generate(a, idea, planService, pageService, env).0;
      !Guarded(r) && r.usageCount == a.usageCount && |r.history| == |a.history| + 1
  {
  }

  /** The page: holds the two hooks and the store they share. */
  class App {
    var isLoading: bool
    var error: Option<string>
    const usage: UsageTracker
    const hist: HistoryStore
    const store: Store

    /** The initial render (App.tsx:13-16). */
    constructor (store: Store)
      ensures !isLoading && error.None? && usage.usageCount == 0 && hist.history == []
      ensures this.store == store && fresh(usage) && fresh(hist)
    {
      isLoading := false;
      error := None;
      usage := new UsageTracker();
      hist := new HistoryStore();
      this.store := store;
    }

    function State(): AppState
      reads this, usage, hist, store
    {
      AppState(isLoading, error, usage.usageCount, hist.history, store.Model())
    }

    /** The effects after the first render, in hook order: the usage count
        is read, then the history is loaded. An effect that throws ends the
        page; the history effect then does not run. */
    method Mount(today: string) returns (c: Completion<()>)
      modifies usage, hist, store
      ensures var (uc, u) := MountEffect(UsageOf(old(State())), today);
        var (hc, h) := LoadEffect(HistoryState(old(hist.history), u.store));
        && (uc.Throw? ==> c.Throw? && State() == old(State()))
        && (uc.Normal? ==> c == hc && State() == old(State()).(usageCount := u.usageCount,
              history := h.history, store := h.store))
    {
      c := usage.Mount(store, today);
      if c.Throw? {
        return;
      }
      c := hist.Load(store);
    }

    /** `handleGenerate`, as the code runs it. */
    method HandleGenerate(idea: string, planService: string -> Gen<MVPPlan>,
                          pageService: (string, MVPPlan) -> Gen<LandingPageContent>, env: Env)
      returns (events: seq<Event>)
      modifies this, usage, hist, store
      ensures (State(), events) == Generate(old(State()), idea, planService, pageService, env)
    {
      if isLoading || usage.usageCount >= USAGE_LIMIT {
        return [];
      }
      isLoading := true;
      error := None;
      events := [PlanRequested(idea, isLoading, error)];
      var failed := false;
      var plan := planService(idea);
      if plan.Fail? {
        failed := true;
      } else {
        events := events + [PageRequested(idea, plan.value, isLoading, error)];
        var content := pageService(idea, plan.value);
        if content.Fail? {
          failed := true;
        } else {
          hist.AddHistoryEntry(store, plan.value, content.value, env.id, env.createdAt, env.historyFits);
          var inc := usage.IncrementUsage(store, env.today, env.usageFits);
          events := events + [HistoryAdded(plan.value, content.value), UsageIncremented];
          if inc.Throw? {
            failed := true;
          }
        }
      }
      if failed {
        // catch
        error := Some(ERROR_MESSAGE);
      }
      // finally
      isLoading := false;
    }
  }
}
