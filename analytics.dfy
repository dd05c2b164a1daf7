/** The analytics service: a registry of providers keyed by name, a gate on
    `track`, and the browser-storage provider's event log that keeps the last
    100 events. The clock, the outcome of each provider call, and the
    storage slot are parameters; console output is not modelled. */
module Analytics {
  import opened Wrappers

  /** What a provider object is: the two built-in ones, or another with its
      own identity and optional capabilities. */
  datatype ProviderKind =
    | ConsoleKind
    | StorageKind
    | CustomKind(tag: nat, canIdentify: bool, canFlush: bool)

  datatype Provider = Provider(name: string, kind: ProviderKind) {
    predicate CanIdentify() {
      kind.ConsoleKind? || (kind.CustomKind? && kind.canIdentify)
    }
    predicate CanFlush() {
      kind.StorageKind? || (kind.CustomKind? && kind.canFlush)
    }
  }

  /** `consoleProvider` */
  const Console := Provider("console", ConsoleKind)

  /** `localStorageProvider` */
  const LocalStorage := Provider("localStorage", StorageKind)

  /** A stored event; its properties are not modelled. */
  datatype StoredEvent = StoredEvent(name: string, timestamp: int)

  /** The storage slot `interactive-avatar-analytics`: `None` when the key is
      absent. */
  class EventStorage {
    var log: Option<seq<StoredEvent>>

    constructor()
      ensures log == None
    {
      log := None;
    }
  }

  /** How many events the log keeps. */
  const Retained: nat := 100

  /** `events.slice(-99)`: the last 99 events, or all of them when fewer. */
  function LastNinetyNine(events: seq<StoredEvent>): (r: seq<StoredEvent>)
    ensures |r| == if |events| < 99 then |events| else 99
    ensures r == events[|events| - |r|..]
  {
    if |events| <= 99 then events else events[|events| - 99..]
  }

  /** `timestamp: event.timestamp || Date.now()`: a missing or zero timestamp
      becomes the clock reading. */
  function Stamp(timestamp: Option<int>, now: int): (r: int)
    ensures timestamp.Some? && timestamp.value != 0 ==> r == timestamp.value
    ensures timestamp == None || timestamp == Some(0) ==> r == now
  {
    if timestamp.Some? && timestamp.value != 0 then timestamp.value else now
  }

  /** One write of the storage provider: the existing log (empty when the key
      is absent) loses all but its last 99 events and gains the new one. */
  function Append(log: Option<seq<StoredEvent>>, e: StoredEvent): (r: seq<StoredEvent>)
    ensures |r| <= Retained
    ensures 0 < |r| && r[|r| - 1] == e
    ensures r[..|r| - 1] == LastNinetyNine(log.GetOr([]))
  {
    LastNinetyNine(log.GetOr([])) + [e]
  }

  /** The last `Retained` elements of a sequence. */
  function Window(s: seq<StoredEvent>): (r: seq<StoredEvent>)
    ensures |r| <= Retained && |r| <= |s|
    ensures r == s[|s| - |r|..]
    ensures |s| <= Retained ==> r == s
  {
    if |s| <= Retained then s else s[|s| - Retained..]
  }

  /** A write keeps exactly the last 100 of the old events and the new one:
      the newest is last, the rest are the most recent older ones in order. */
  lemma AppendIsWindow(events: seq<StoredEvent>, e: StoredEvent)
    ensures Append(Some(events), e) == Window(events + [e])
    ensures |Append(Some(events), e)| <= Retained
    ensures Append(Some(events), e)[|Append(Some(events), e)| - 1] == e
  {
    var s := events + [e];
    if |events| > 99 {
      assert events[|events| - 99..] + [e] == s[|s| - Retained..];
    }
  }

  /** The window after a write depends only on the window before it, so the
      log is always the last 100 events written since the slot was empty. */
  lemma WindowOfWindow(s: seq<StoredEvent>, e: StoredEvent)
    ensures Window(Window(s) + [e]) == Window(s + [e])
  {
    var w := Window(s);
    var t := s + [e];
    if |s| > Retained {
      assert w + [e] == t[|t| - Retained - 1..];
    }
  }

  /** `providers.findIndex(p => p.name === name)` */
  function FindIndex(ps: seq<Provider>, name: string): (r: Option<nat>)
    ensures r.Some? ==> r.value < |ps| && ps[r.value].name == name
    ensures r.Some? ==> forall j :: 0 <= j < r.value ==> ps[j].name != name
    ensures r.None? <==> forall j :: 0 <= j < |ps| ==> ps[j].name != name
  {
    if ps == [] then None
    else if ps[0].name == name then Some(0)
    else match FindIndex(ps[1..], name)
      case None => None
      case Some(i) => Some(i + 1)
  }

  /** What `addProvider` leaves: the first provider with that name replaced
      in place, or the provider appended. */
  function WithProvider(ps: seq<Provider>, p: Provider): (r: seq<Provider>)
    ensures FindIndex(ps, p.name).Some? ==> r == ps[FindIndex(ps, p.name).value := p]
    ensures FindIndex(ps, p.name).None? ==> r == ps + [p]
  {
    match FindIndex(ps, p.name)
    case Some(i) => ps[i := p]
    case None => ps + [p]
  }

  predicate DistinctNames(ps: seq<Provider>) {
    forall i, j :: 0 <= i < j < |ps| ==> ps[i].name != ps[j].name
  }

  function Names(ps: seq<Provider>): (r: seq<string>)
    ensures |r| == |ps| && forall i :: 0 <= i < |ps| ==> r[i] == ps[i].name
  {
    seq(|ps|, i requires 0 <= i < |ps| => ps[i].name)
  }

  /** Adding a provider makes its name present, keeps the length when the
      name was present, and keeps names pairwise distinct. */
  lemma AddProviderFacts(ps: seq<Provider>, p: Provider)
    ensures p in WithProvider(ps, p)
    ensures FindIndex(ps, p.name).Some? ==> |WithProvider(ps, p)| == |ps|
    ensures FindIndex(ps, p.name).None? ==> |WithProvider(ps, p)| == |ps| + 1
    ensures DistinctNames(ps) ==> DistinctNames(WithProvider(ps, p))
    ensures forall q :: q in ps && q.name != p.name ==> q in WithProvider(ps, p)
  {
    var r := WithProvider(ps, p);
    match FindIndex(ps, p.name)
    case Some(k) =>
      assert r[k] == p;
      forall q | q in ps && q.name != p.name ensures q in r {
        var j :| 0 <= j < |ps| && ps[j] == q;
        assert r[j] == q;
      }
    case None =>
      assert r[|ps|] == p;
      forall q | q in ps && q.name != p.name ensures q in r {
        var j :| 0 <= j < |ps| && ps[j] == q;
        assert r[j] == q;
      }
  }

  /** `providers.filter(p => p.name !== name)` */
  function WithoutName(ps: seq<Provider>, name: string): (r: seq<Provider>)
    ensures |r| <= |ps|
  {
    if ps == [] then []
    else if ps[0].name == name then WithoutName(ps[1..], name)
    else [ps[0]] + WithoutName(ps[1..], name)
  }

  /** Removing drops every provider with the name and keeps the others. */
  lemma {:induction false} RemoveProviderFacts(ps: seq<Provider>, name: string)
    ensures forall q :: q in WithoutName(ps, name) <==> q in ps && q.name != name
    ensures FindIndex(WithoutName(ps, name), name).None?
    ensures FindIndex(ps, name).None? ==> WithoutName(ps, name) == ps
  {
    if ps != [] {
      RemoveProviderFacts(ps[1..], name);
      assert ps == [ps[0]] + ps[1..];
    }
  }

  /** Removal works provider by provider: one provider is dropped exactly when
      it carries the name, and removing from a concatenation concatenates the
      parts, so the providers kept stay in their order. */
  lemma {:induction false} WithoutNameConcat(a: seq<Provider>, b: seq<Provider>, name: string)
    ensures WithoutName(a + b, name) == WithoutName(a, name) + WithoutName(b, name)
    ensures forall p :: WithoutName([p], name) == if p.name == name then [] else [p]
    decreases |a|
  {
    forall p ensures WithoutName([p], name) == if p.name == name then [] else [p] {
      assert [p][1..] == [];
    }
    if a != [] {
      assert (a + b)[0] == a[0];
      assert (a + b)[1..] == a[1..] + b;
      WithoutNameConcat(a[1..], b, name);
    } else {
      assert a + b == b;
    }
  }

  /** The providers after `init`, from the providers it starts with. */
  function InitProviders(start: seq<Provider>, debugMode: bool): seq<Provider> {
    WithProvider(if debugMode then WithProvider(start, Console) else start, LocalStorage)
  }

  /** Some provider carries the name. */
  predicate HasName(ps: seq<Provider>, n: string) {
    exists i :: 0 <= i < |ps| && ps[i].name == n
  }

  /** The names present after `addProvider` are the old ones and the new one. */
  lemma AddKeepsNames(ps: seq<Provider>, p: Provider, n: string)
    ensures HasName(WithProvider(ps, p), n) <==> n == p.name || HasName(ps, n)
  {
    var r := WithProvider(ps, p);
    match FindIndex(ps, p.name)
    case Some(k) =>
      if HasName(r, n) {
        var i :| 0 <= i < |r| && r[i].name == n;
        if i != k {
          assert ps[i].name == n;
        }
      }
      if n == p.name {
        assert r[k].name == n;
      } else if HasName(ps, n) {
        var i :| 0 <= i < |ps| && ps[i].name == n;
        assert r[i].name == n;
      }
    case None =>
      if HasName(r, n) {
        var i :| 0 <= i < |r| && r[i].name == n;
        if i < |ps| {
          assert ps[i].name == n;
        }
      }
      if n == p.name {
        assert r[|ps|].name == n;
      } else if HasName(ps, n) {
        var i :| 0 <= i < |ps| && ps[i].name == n;
        assert r[i].name == n;
      }
  }

  /** After `init` the storage provider is registered, and a provider named
      "console" is there exactly when debug mode is on or one was given. */
  lemma InitRegisters(start: seq<Provider>, debugMode: bool)
    ensures LocalStorage in InitProviders(start, debugMode)
    ensures HasName(InitProviders(start, debugMode), "console") <==>
      debugMode || HasName(start, "console")
  {
    var mid := if debugMode then WithProvider(start, Console) else start;
    AddProviderFacts(mid, LocalStorage);
    AddKeepsNames(mid, LocalStorage, "console");
    AddKeepsNames(start, Console, "console");
  }

  /** From no providers, `init` registers the console provider (in debug mode
      only) and then the storage provider. */
  lemma InitFromNothing(debugMode: bool)
    ensures InitProviders([], debugMode) == if debugMode then [Console, LocalStorage] else [LocalStorage]
  {
    assert FindIndex([Console], "localStorage") == None;
  }

  /** The shared instance, built with no overrides: in development the
      console and storage providers, in any other environment the storage
      provider alone; tracking is on only in production. */
  lemma SharedInstance(nodeEnv: Option<string>)
    ensures InitProviders([], DefaultState(nodeEnv).debugMode) ==
      if nodeEnv == Some("development") then [Console, LocalStorage] else [LocalStorage]
    ensures DefaultState(nodeEnv).enabled ==> nodeEnv != Some("development")
  {
    InitFromNothing(DefaultState(nodeEnv).debugMode);
  }

  /** The storage slot after the providers from index 0 up to `n` were asked
      to track `e`; the providers at indices in `failing` throw (for the
      storage provider: its write fails and is swallowed). */
  function TrackedLog(ps: seq<Provider>, failing: set<nat>, log: Option<seq<StoredEvent>>,
                      e: StoredEvent, n: nat): Option<seq<StoredEvent>>
    requires n <= |ps|
  {
    if n == 0 then log
    else
      var before := TrackedLog(ps, failing, log, e, n - 1);
      if ps[n - 1].kind.StorageKind? && n - 1 !in failing then Some(Append(before, e)) else before
  }

  /** With one storage provider that does not fail, tracking writes exactly
      once. */
  lemma SingleStorageWritesOnce(ps: seq<Provider>, failing: set<nat>,
                                log: Option<seq<StoredEvent>>, e: StoredEvent, n: nat, k: nat)
    requires k < n <= |ps| && ps[k].kind.StorageKind? && k !in failing
    requires forall i :: 0 <= i < |ps| && i != k ==> !ps[i].kind.StorageKind?
    ensures TrackedLog(ps, failing, log, e, n) == Some(Append(log, e))
  {
    NoStorageNoWrite(ps, failing, log, e, k);
    StorageWrites(ps, failing, log, e, k);
    forall i | k + 1 <= i < n ensures !ps[i].kind.StorageKind? {
      assert i != k;
    }
    NoStorageBetween(ps, failing, log, e, k + 1, n);
  }

  /** One provider's step: a storage provider that does not fail appends the
      event, any other provider leaves the slot alone. */
  lemma TrackStep(ps: seq<Provider>, failing: set<nat>, log: Option<seq<StoredEvent>>, e: StoredEvent, i: nat)
    requires i < |ps|
    ensures TrackedLog(ps, failing, log, e, i + 1) ==
      if ps[i].kind.StorageKind? && i !in failing then Some(Append(TrackedLog(ps, failing, log, e, i), e))
      else TrackedLog(ps, failing, log, e, i)
  {
  }

  /** A storage provider that does not fail appends the event to what the
      providers before it left. */
  lemma StorageWrites(ps: seq<Provider>, failing: set<nat>,
                      log: Option<seq<StoredEvent>>, e: StoredEvent, k: nat)
    requires k < |ps| && ps[k].kind.StorageKind? && k !in failing
    ensures TrackedLog(ps, failing, log, e, k + 1) == Some(Append(TrackedLog(ps, failing, log, e, k), e))
  {
  }

  /** Without a storage provider, tracking stores nothing. */
  lemma NoStorageNoWrite(ps: seq<Provider>, failing: set<nat>,
                         log: Option<seq<StoredEvent>>, e: StoredEvent, n: nat)
    requires n <= |ps|
    requires forall i :: 0 <= i < n ==> !ps[i].kind.StorageKind?
    ensures TrackedLog(ps, failing, log, e, n) == log
  {
    NoStorageBetween(ps, failing, log, e, 0, n);
  }

  /** A provider other than storage leaves the slot as it was. */
  lemma SkipStep(ps: seq<Provider>, failing: set<nat>, log: Option<seq<StoredEvent>>, e: StoredEvent, i: nat)
    requires i < |ps| && !ps[i].kind.StorageKind?
    ensures TrackedLog(ps, failing, log, e, i + 1) == TrackedLog(ps, failing, log, e, i)
  {
  }

  /** Providers other than storage leave the slot as it was. */
  lemma {:induction false} NoStorageBetween(ps: seq<Provider>, failing: set<nat>,
                                            log: Option<seq<StoredEvent>>, e: StoredEvent, m: nat, n: nat)
    requires m <= n <= |ps|
    requires forall i :: m <= i < n ==> !ps[i].kind.StorageKind?
    ensures TrackedLog(ps, failing, log, e, n) == TrackedLog(ps, failing, log, e, m)
  {
    if m < n {
      NoStorageBetween(ps, failing, log, e, m, n - 1);
      SkipStep(ps, failing, log, e, n - 1);
    }
  }

  /** The storage slot after `flush` over the first `n` providers. */
  function FlushedLog(ps: seq<Provider>, failing: set<nat>, log: Option<seq<StoredEvent>>, n: nat): Option<seq<StoredEvent>>
    requires n <= |ps|
  {
    if n == 0 then log
    else if ps[n - 1].kind.StorageKind? && n - 1 !in failing then None
    else FlushedLog(ps, failing, log, n - 1)
  }

  /** The common event names. */
  const PromptCreated := "prompt_created"
  const PromptUpdated := "prompt_updated"
  const PromptDeleted := "prompt_deleted"
  const PromptListViewed := "prompt_list_viewed"
  const PromptFormOpened := "prompt_form_opened"
  const PromptFormSubmitted := "prompt_form_submitted"
  const PromptFormCancelled := "prompt_form_cancelled"
  const PromptManagerOpened := "prompt_manager_opened"
  const PromptManagerClosed := "prompt_manager_closed"
  const ErrorOccurred := "error_occurred"
  const ApiRequestFailed := "api_request_failed"
  const NetworkError := "network_error"
  const FeatureUsed := "feature_used"
  const PageLoadTime := "page_load_time"
  const ApiResponseTime := "api_response_time"

  /** A snapshot of the service. */
  datatype AnalyticsState = AnalyticsState(
    enabled: bool, environment: string, debugMode: bool, providers: seq<Provider>, isInitialized: bool)

  /** The fields a caller may give to the constructor. */
  datatype ConfigOverrides = ConfigOverrides(
    enabled: Option<bool>, environment: Option<string>, debugMode: Option<bool>, providers: Option<seq<Provider>>)

  /** `defaultConfig` under the node environment `nodeEnv` (`None` when unset):
      enabled only in production, debug only in development. */
  function DefaultState(nodeEnv: Option<string>): (r: AnalyticsState)
    ensures r.enabled <==> nodeEnv == Some("production")
    ensures r.debugMode <==> nodeEnv == Some("development")
    ensures r.providers == [] && !r.isInitialized
  {
    AnalyticsState(
      nodeEnv == Some("production"),
      if nodeEnv.Some? && nodeEnv.value != "" then nodeEnv.value else "development",
      nodeEnv == Some("development"),
      [],
      false)
  }

  class Service {
    var enabled: bool
    var environment: string
    var debugMode: bool
    var providers: seq<Provider>
    var isInitialized: bool

    function State(): AnalyticsState
      reads this
    {
      AnalyticsState(enabled, environment, debugMode, providers, isInitialized)
    }

    /** `new Analytics(config)`: the defaults overridden by what is given, then
        `init`. */
    constructor(nodeEnv: Option<string>, given: ConfigOverrides)
      ensures enabled == given.enabled.GetOr(DefaultState(nodeEnv).enabled)
      ensures debugMode == given.debugMode.GetOr(DefaultState(nodeEnv).debugMode)
      ensures environment == given.environment.GetOr(DefaultState(nodeEnv).environment)
      ensures providers == InitProviders(given.providers.GetOr([]), debugMode)
      ensures isInitialized
    {
      var d := DefaultState(nodeEnv);
      enabled := given.enabled.GetOr(d.enabled);
      environment := given.environment.GetOr(d.environment);
      debugMode := given.debugMode.GetOr(d.debugMode);
      providers := given.providers.GetOr([]);
      isInitialized := false;
      new;
      Init();
    }

    /** `init`: registers the console provider in debug mode and the storage
        provider always, once. */
    method Init()
      modifies this
      ensures old(isInitialized) ==> State() == old(State())
      ensures !old(isInitialized) ==>
        State() == old(State()).(providers := InitProviders(old(providers), debugMode), isInitialized := true)
    {
      if isInitialized {
        return;
      }
      if debugMode {
        AddProvider(Console);
      }
      AddProvider(LocalStorage);
      isInitialized := true;
    }

    /** `addProvider`: a search for the name, then an assignment at that index
        or a push. */
    method AddProvider(p: Provider)
      modifies this
      ensures State() == old(State()).(providers := WithProvider(old(providers), p))
    {
      var i := 0;
      while i < |providers| && providers[i].name != p.name
        invariant 0 <= i <= |providers|
        invariant forall j :: 0 <= j < i ==> providers[j].name != p.name
      {
        i := i + 1;
      }
      if i < |providers| {
        assert FindIndex(providers, p.name) == Some(i);
        providers := providers[i := p];
      } else {
        providers := providers + [p];
      }
    }

    /** `removeProvider` */
    method RemoveProvider(name: string)
      modifies this
      ensures State() == old(State()).(providers := WithoutName(old(providers), name))
    {
      providers := WithoutName(providers, name);
    }

    /** `setEnabled` */
    method SetEnabled(on: bool)
      modifies this
      ensures State() == old(State()).(enabled := on)
    {
      enabled := on;
    }

    /** Whether `track` and `identify` reach the providers. */
    predicate Open()
      reads this
    {
      enabled && isInitialized
    }

    /** `track(eventName)` at clock reading `now`: when the gate is shut,
        nothing happens; otherwise every provider is asked in turn, whatever
        the earlier ones did. Returns the names of the providers asked. */
    method Track(eventName: string, now: int, failing: set<nat>, storage: EventStorage)
      returns (asked: seq<string>)
      modifies storage
      ensures !Open() ==> asked == [] && storage.log == old(storage.log)
      ensures Open() ==> asked == Names(providers)
      ensures Open() ==> (storage.log ==
        TrackedLog(providers, failing, old(storage.log), StoredEvent(eventName, Stamp(Some(now), now)), |providers|))
    {
      asked := [];
      if !enabled || !isInitialized {
        return;
      }
      var e := StoredEvent(eventName, Stamp(Some(now), now));
      var names := Names(providers);
      var i := 0;
      while i < |providers|
        invariant 0 <= i <= |providers|
        invariant asked == names[..i]
        invariant storage.log == TrackedLog(providers, failing, old(storage.log), e, i)
      {
        var p := providers[i];
        TrackStep(providers, failing, old(storage.log), e, i);
        assert names[..i + 1] == names[..i] + [p.name];
        asked := asked + [p.name];
        if p.kind.StorageKind? && i !in failing {
          storage.log := Some(Append(storage.log, e));
        }
        i := i + 1;
      }
      assert names[..i] == names;
    }

    /** `identify`: the providers that have an `identify`, when the gate is
        open. */
    function IdentifyTargets(): (r: seq<string>)
      reads this
      ensures !Open() ==> r == []
      ensures Open() ==> forall n :: n in r <==> exists q :: q in providers && q.CanIdentify() && q.name == n
    {
      if Open() then IdentifyNames(providers) else []
    }

    /** `flush`: every provider with a `flush` is asked, gate or no gate; the
        storage provider's flush removes the slot. */
    method Flush(failing: set<nat>, storage: EventStorage) returns (asked: seq<string>)
      modifies storage
      ensures forall n :: n in asked <==> exists q :: q in providers && q.CanFlush() && q.name == n
      ensures storage.log == FlushedLog(providers, failing, old(storage.log), |providers|)
    {
      asked := [];
      var i := 0;
      while i < |providers|
        invariant 0 <= i <= |providers|
        invariant forall n :: n in asked <==> exists q :: q in providers[..i] && q.CanFlush() && q.name == n
        invariant storage.log == FlushedLog(providers, failing, old(storage.log), i)
      {
        var p := providers[i];
        if p.CanFlush() {
          asked := asked + [p.name];
          if p.kind.StorageKind? && i !in failing {
            storage.log := None;
          }
        }
        assert providers[..i + 1] == providers[..i] + [p];
        i := i + 1;
      }
      assert providers[..i] == providers;
    }

    /** `getStoredEvents` */
    function StoredEvents(storage: EventStorage): (r: seq<StoredEvent>)
      reads storage
      ensures storage.log.None? ==> r == []
      ensures storage.log.Some? ==> r == storage.log.value
    {
      storage.log.GetOr([])
    }
  }

  function IdentifyNames(ps: seq<Provider>): (r: seq<string>)
    ensures forall n :: n in r <==> exists q :: q in ps && q.CanIdentify() && q.name == n
  {
    if ps == [] then []
    else
      assert forall q :: q in ps <==> q == ps[0] || q in ps[1..];
      (if ps[0].CanIdentify() then [ps[0].name] else []) + IdentifyNames(ps[1..])
  }
}
