/**
 * The driver dashboard's profile load (`loadProfile` in `src/pages/Dashboard.tsx`):
 * up to `MaxRetries` retries while the profile comes back empty, a `mounted`
 * flag cleared by the effect's cleanup, and the loading flag.
 *
 * The page can unmount while an await is pending. The model numbers the
 * awaits that resume (each attempt's fetch, then its retry delay) and says
 * the page unmounts after the first `alive` of them have resumed.
 */
module Dashboard {
  import opened Wrappers
  import opened Types

  const MaxRetries: nat := 3

  /** What `loadProfile` does, in order: state writes, the error toast and the backend fetches. */
  datatype Effect = SetLoading(on: bool) | SetProfile(profile: Option<DriverProfile>) | ErrorToast | Fetch(userId: string)

  /** An effect and whether the page was still mounted when it happened. */
  datatype Step = Step(effect: Effect, mounted: bool)

  /** The effects of one `loadProfile` call, and whether the page is mounted when it returns. */
  datatype Run = Run(steps: seq<Step>, mountedAtEnd: bool)

  /**
   * `loadProfile` entered after `retry` retries. Its fetch is await number
   * `2 * retry + 1` and its delay await number `2 * retry + 2`; `fetched[k]`
   * is what the k-th fetch returns (`getDriverProfile` never throws).
   */
  function Load(user: Option<User>, fetched: seq<Option<DriverProfile>>, alive: nat, retry: nat): Run
    requires retry <= MaxRetries && |fetched| == MaxRetries + 1
    decreases MaxRetries - retry, 1
  {
    var entry := 2 * retry <= alive;
    if user.None? then Run([Step(SetLoading(false), entry)], entry)
    else if alive < 2 * retry + 1 then
      // unmounted while fetching: `if (!mounted) return`, and the finally writes nothing
      Run(StartSteps(user.value.id, entry), false)
    else
      var rest := Fetched(user.value, fetched, alive, retry);
      Run(StartSteps(user.value.id, entry) + rest.steps, rest.mountedAtEnd)
  }

  /**
   * The rest of the attempt after `retry` retries, once its fetch returned
   * on a mounted page: another attempt while the result is empty and retries
   * remain, else the toast (if empty), the profile and loading off.
   */
  function Fetched(u: User, fetched: seq<Option<DriverProfile>>, alive: nat, retry: nat): Run
    requires retry <= MaxRetries && |fetched| == MaxRetries + 1
    decreases MaxRetries - retry, 0
  {
    var found := fetched[retry];
    if found.None? && retry < MaxRetries then
      var inner := Load(Some(u), fetched, alive, retry + 1);
      Run(Retried(inner), inner.mountedAtEnd)
    else
      Run(SettleSteps(found), true)
  }

  /** The loading-off of an outer call's `finally`, which happens only while mounted. */
  function FinallySteps(mounted: bool): seq<Step>
  {
    if mounted then [Step(SetLoading(false), true)] else []
  }

  /** A retry's effects, then the retrying call's finally. */
  function Retried(inner: Run): seq<Step>
  {
    inner.steps + FinallySteps(inner.mountedAtEnd)
  }

  /** An attempt's start: loading on, then the fetch. */
  function StartSteps(userId: string, mounted: bool): seq<Step>
  {
    [Step(SetLoading(true), mounted), Step(Fetch(userId), mounted)]
  }

  /** The last attempt's end on a mounted page: the toast when no profile came back, the profile, loading off. */
  function SettleSteps(found: Option<DriverProfile>): seq<Step>
  {
    (if found.None? then [Step(ErrorToast, true)] else []) +
    [Step(SetProfile(found), true), Step(SetLoading(false), true)]
  }

  /** The effect: nothing while the authentication state is loading, else a fresh `loadProfile`. */
  function EffectSteps(auth: AuthData, fetched: seq<Option<DriverProfile>>, alive: nat): seq<Step>
    requires |fetched| == MaxRetries + 1
  {
    if auth.isLoading then [] else Load(auth.user, fetched, alive, 0).steps
  }

  function CountFetches(steps: seq<Step>): (n: nat)
    ensures n <= |steps|
  {
    if steps == [] then 0 else (if steps[0].effect.Fetch? then 1 else 0) + CountFetches(steps[1..])
  }

  lemma {:induction false} CountFetchesAppend(a: seq<Step>, b: seq<Step>)
    ensures CountFetches(a + b) == CountFetches(a) + CountFetches(b)
    decreases |a|
  {
    if a == [] {
      assert a + b == b;
    } else {
      assert (a + b)[0] == a[0];
      assert (a + b)[1..] == a[1..] + b;
      CountFetchesAppend(a[1..], b);
    }
  }

  lemma StartFetchesOnce(userId: string, mounted: bool)
    ensures CountFetches(StartSteps(userId, mounted)) == 1
  {
    var start := StartSteps(userId, mounted);
    assert start[1..][1..] == [];
  }

  lemma SettleFetchesNothing(found: Option<DriverProfile>)
    ensures CountFetches(SettleSteps(found)) == 0
  {
    var toast := if found.None? then [Step(ErrorToast, true)] else [];
    var rest := [Step(SetProfile(found), true), Step(SetLoading(false), true)];
    assert rest[1..][1..] == [];
    assert CountFetches(rest) == 0;
    CountFetchesAppend(toast, rest);
  }

  /** Entered after `retry` retries, a load fetches at most once per remaining attempt. */
  lemma {:induction false} FetchesBounded(user: Option<User>, fetched: seq<Option<DriverProfile>>, alive: nat, retry: nat)
    requires retry <= MaxRetries && |fetched| == MaxRetries + 1
    ensures CountFetches(Load(user, fetched, alive, retry).steps) <= MaxRetries + 1 - retry
    decreases MaxRetries - retry
  {
    if user.Some? {
      var start := StartSteps(user.value.id, 2 * retry <= alive);
      StartFetchesOnce(user.value.id, 2 * retry <= alive);
      if alive < 2 * retry + 1 {
      } else if fetched[retry].None? && retry < MaxRetries {
        var inner := Load(user, fetched, alive, retry + 1);
        var tail := if inner.mountedAtEnd then [Step(SetLoading(false), true)] else [];
        FetchesBounded(user, fetched, alive, retry + 1);
        CountFetchesAppend(start, Retried(inner));
        CountFetchesAppend(inner.steps, tail);
        assert CountFetches(tail) == 0;
      } else {
        SettleFetchesNothing(fetched[retry]);
        CountFetchesAppend(start, SettleSteps(fetched[retry]));
      }
    }
  }

  /** At most `MaxRetries + 1` = 4 profile fetches per effect run. */
  lemma AtMostFourFetches(auth: AuthData, fetched: seq<Option<DriverProfile>>, alive: nat)
    requires |fetched| == MaxRetries + 1
    ensures CountFetches(EffectSteps(auth, fetched, alive)) <= 4
  {
    if !auth.isLoading {
      FetchesBounded(auth.user, fetched, alive, 0);
    }
  }

  /** The effect starts nothing while the authentication state is loading. */
  lemma NothingWhileAuthLoading(auth: AuthData, fetched: seq<Option<DriverProfile>>, alive: nat)
    requires |fetched| == MaxRetries + 1 && auth.isLoading
    ensures EffectSteps(auth, fetched, alive) == []
  {
  }

  /** Without a user, the load only turns loading off, and fetches nothing. */
  lemma NoUserNoFetch(fetched: seq<Option<DriverProfile>>, alive: nat)
    requires |fetched| == MaxRetries + 1
    ensures Load(None, fetched, alive, 0).steps == [Step(SetLoading(false), true)]
  {
  }

  /** The writes that must not happen on an unmounted page. */
  predicate SettlingEffect(e: Effect) {
    e.SetProfile? || e.ErrorToast? || e == SetLoading(false)
  }

  /** Every settling write in `steps` happened on a mounted page. */
  predicate SettlesOnlyMounted(steps: seq<Step>) {
    forall k | 0 <= k < |steps| :: SettlingEffect(steps[k].effect) ==> steps[k].mounted
  }

  /**
   * Once the page has unmounted, no completed fetch writes the profile,
   * shows the toast or turns loading off.
   */
  lemma {:induction false} NoSettlingAfterUnmount(user: Option<User>, fetched: seq<Option<DriverProfile>>, alive: nat, retry: nat)
    requires retry <= MaxRetries && |fetched| == MaxRetries + 1
    requires retry == 0 || user.Some?
    ensures SettlesOnlyMounted(Load(user, fetched, alive, retry).steps)
    decreases MaxRetries - retry
  {
    if user.Some? && alive >= 2 * retry + 1 {
      var start := StartSteps(user.value.id, 2 * retry <= alive);
      var rest := Fetched(user.value, fetched, alive, retry);
      if fetched[retry].None? && retry < MaxRetries {
        var inner := Load(user, fetched, alive, retry + 1);
        NoSettlingAfterUnmount(user, fetched, alive, retry + 1);
        assert SettlesOnlyMounted(Retried(inner));
      }
      assert SettlesOnlyMounted(rest.steps);
      assert Load(user, fetched, alive, retry).steps == start + rest.steps;
    }
  }

  /**
   * But a retry does not look at `mounted` after its delay: when the page
   * unmounts during the delay, the retry still turns loading on and fetches
   * again on the unmounted page.
   */
  lemma RetryRunsAfterUnmount(u: User, fetched: seq<Option<DriverProfile>>)
    requires |fetched| == MaxRetries + 1 && fetched[0].None?
    ensures var steps := Load(Some(u), fetched, 1, 0).steps;
      |steps| >= 4 && steps[2] == Step(SetLoading(true), false) && steps[3] == Step(Fetch(u.id), false)
  {
  }

  /** While the page stays mounted, the load ends with loading off. */
  lemma MountedLoadEndsNotLoading(user: Option<User>, fetched: seq<Option<DriverProfile>>, alive: nat, retry: nat)
    requires retry <= MaxRetries && |fetched| == MaxRetries + 1
    ensures var run := Load(user, fetched, alive, retry);
      run.mountedAtEnd ==> |run.steps| > 0 && run.steps[|run.steps| - 1] == Step(SetLoading(false), true)
  {
  }

  /** The index of the first attempt, from `retry` on, that found a profile; the last attempt if none did. */
  function FirstFound(fetched: seq<Option<DriverProfile>>, retry: nat): (k: nat)
    requires retry <= MaxRetries && |fetched| == MaxRetries + 1
    ensures retry <= k <= MaxRetries
    ensures forall j | retry <= j < k :: fetched[j].None?
    ensures k < MaxRetries ==> fetched[k].Some?
    decreases MaxRetries - retry
  {
    if fetched[retry].Some? || retry == MaxRetries then retry else FirstFound(fetched, retry + 1)
  }

  /** A page that outlives every await is still mounted when the load returns. */
  lemma {:induction false} NeverUnmountedStaysMounted(u: User, fetched: seq<Option<DriverProfile>>, alive: nat, retry: nat)
    requires retry <= MaxRetries && |fetched| == MaxRetries + 1
    requires alive >= 2 * MaxRetries + 2
    ensures Load(Some(u), fetched, alive, retry).mountedAtEnd
    decreases MaxRetries - retry
  {
    if fetched[retry].None? && retry < MaxRetries {
      NeverUnmountedStaysMounted(u, fetched, alive, retry + 1);
    }
  }

  /**
   * On a page that never unmounts, retrying stops at the first profile
   * found: one fetch per attempt up to and including it.
   */
  lemma {:induction false} FetchesUntilFound(u: User, fetched: seq<Option<DriverProfile>>, alive: nat, retry: nat)
    requires retry <= MaxRetries && |fetched| == MaxRetries + 1
    requires alive >= 2 * MaxRetries + 2
    ensures CountFetches(Load(Some(u), fetched, alive, retry).steps) == FirstFound(fetched, retry) - retry + 1
    decreases MaxRetries - retry
  {
    var start := StartSteps(u.id, true);
    StartFetchesOnce(u.id, true);
    if fetched[retry].None? && retry < MaxRetries {
      var inner := Load(Some(u), fetched, alive, retry + 1);
      FetchesUntilFound(u, fetched, alive, retry + 1);
      var tail := if inner.mountedAtEnd then [Step(SetLoading(false), true)] else [];
      CountFetchesAppend(start, Retried(inner));
      CountFetchesAppend(inner.steps, tail);
      assert CountFetches(tail) == 0;
    } else {
      SettleFetchesNothing(fetched[retry]);
      CountFetchesAppend(start, SettleSteps(fetched[retry]));
    }
  }

  /**
   * On a page that never unmounts, the load stores the first profile found
   * (or the last empty result) and shows the error toast exactly when even
   * the last attempt found no profile.
   */
  lemma {:induction false} StoresFirstFound(u: User, fetched: seq<Option<DriverProfile>>, alive: nat, retry: nat)
    requires retry <= MaxRetries && |fetched| == MaxRetries + 1
    requires alive >= 2 * MaxRetries + 2
    ensures var steps := Load(Some(u), fetched, alive, retry).steps;
      var k := FirstFound(fetched, retry);
      Step(SetProfile(fetched[k]), true) in steps && (Step(ErrorToast, true) in steps <==> fetched[k].None?)
    decreases MaxRetries - retry
  {
    var start := StartSteps(u.id, true);
    if fetched[retry].None? && retry < MaxRetries {
      var inner := Load(Some(u), fetched, alive, retry + 1);
      StoresFirstFound(u, fetched, alive, retry + 1);
      NeverUnmountedStaysMounted(u, fetched, alive, retry + 1);
      var tail := [Step(SetLoading(false), true)];
      assert Retried(inner) == inner.steps + tail;
      assert Step(ErrorToast, true) !in start + tail;
    }
  }

  lemma AppendAssoc<T>(a: seq<T>, b: seq<T>, c: seq<T>)
    ensures a + b + c == a + (b + c)
  {
  }

  /** The page state `loadProfile` writes. */
  datatype PageState = PageState(profile: Option<DriverProfile>, isLoading: bool)

  function ApplyEffect(s: PageState, e: Effect): PageState
  {
    match e
    case SetLoading(on) => s.(isLoading := on)
    case SetProfile(p) => s.(profile := p)
    case ErrorToast => s
    case Fetch(_) => s
  }

  /** The page state after a sequence of steps, applied in order. */
  function Replay(s: PageState, steps: seq<Step>): PageState
    decreases |steps|
  {
    if steps == [] then s else ApplyEffect(Replay(s, steps[..|steps| - 1]), steps[|steps| - 1].effect)
  }

  lemma {:induction false} ReplayAppend(s: PageState, a: seq<Step>, b: seq<Step>)
    ensures Replay(s, a + b) == Replay(Replay(s, a), b)
    decreases |b|
  {
    if b == [] {
      assert a + b == a;
    } else {
      var n := |b| - 1;
      assert (a + b)[..|a + b| - 1] == a + b[..n];
      ReplayAppend(s, a, b[..n]);
    }
  }

  /** Replaying two more steps applies them in order. */
  lemma ReplayTwoMore(s: PageState, xs: seq<Step>, a: Step, b: Step)
    ensures Replay(s, xs + [a, b]) == ApplyEffect(ApplyEffect(Replay(s, xs), a.effect), b.effect)
  {
    assert (xs + [a, b])[..|xs + [a, b]| - 1] == xs + [a];
    assert (xs + [a])[..|xs + [a]| - 1] == xs;
  }

  /**
   * On a page that never unmounts, whatever the page showed before, the
   * load leaves it showing the first profile found (or the last empty
   * result) with loading off: no later step overwrites that profile.
   */
  lemma {:induction false} EndsShowingFirstFound(s: PageState, u: User, fetched: seq<Option<DriverProfile>>,
                                                 alive: nat, retry: nat)
    requires retry <= MaxRetries && |fetched| == MaxRetries + 1
    requires alive >= 2 * MaxRetries + 2
    ensures Replay(s, Load(Some(u), fetched, alive, retry).steps)
         == PageState(fetched[FirstFound(fetched, retry)], false)
    decreases MaxRetries - retry
  {
    var start := StartSteps(u.id, true);
    var found := fetched[retry];
    var rest := Fetched(u, fetched, alive, retry);
    assert Load(Some(u), fetched, alive, retry).steps == start + rest.steps;
    ReplayAppend(s, start, rest.steps);
    var t := Replay(s, start);
    if found.None? && retry < MaxRetries {
      var inner := Load(Some(u), fetched, alive, retry + 1);
      NeverUnmountedStaysMounted(u, fetched, alive, retry + 1);
      EndsShowingFirstFound(t, u, fetched, alive, retry + 1);
      assert rest.steps == inner.steps + [Step(SetLoading(false), true)];
      ReplayAppend(t, inner.steps, [Step(SetLoading(false), true)]);
      assert [Step(SetLoading(false), true)][..0] == [];
    } else {
      var toast: seq<Step> := if found.None? then [Step(ErrorToast, true)] else [];
      assert rest.steps == toast + [Step(SetProfile(found), true), Step(SetLoading(false), true)];
      ReplayTwoMore(t, toast, Step(SetProfile(found), true), Step(SetLoading(false), true));
    }
  }

  /**
   * One run of the dashboard's effect: the page state, the closure's
   * `mounted` flag and `retryCount`, and the log of effects so far.
   */
  class ProfileLoader {
    var profile: Option<DriverProfile>
    var isLoading: bool
    var mounted: bool
    var retryCount: nat
    /** How many of the awaits have resumed. */
    var resumed: nat
    /** The effects performed so far. */
    var log: seq<Step>
    /** `authData.user`, as the effect captured it. */
    const user: Option<User>
    /** The backend's answers to the attempts, and how many awaits resume before the page unmounts. */
    const fetched: seq<Option<DriverProfile>>
    const alive: nat

    ghost predicate Valid()
      reads this
    {
      |fetched| == MaxRetries + 1 && retryCount <= MaxRetries && mounted == (resumed <= alive)
    }

    function State(): PageState
      reads this
    {
      PageState(profile, isLoading)
    }

    /** The page as it mounts: no profile, loading; the effect sets `mounted` and `retryCount = 0`. */
    constructor (user: Option<User>, fetched: seq<Option<DriverProfile>>, alive: nat)
      requires |fetched| == MaxRetries + 1
      ensures Valid() && this.user == user && this.fetched == fetched && this.alive == alive
      ensures State() == PageState(None, true) && retryCount == 0 && resumed == 0 && log == []
    {
      this.user, this.fetched, this.alive := user, fetched, alive;
      profile, isLoading := None, true;
      mounted, retryCount, resumed, log := true, 0, 0, [];
    }

    /** Perform one effect while the page is (or is not) mounted. */
    method Emit(e: Effect)
      requires Valid()
      modifies this`profile, this`isLoading, this`log
      ensures Valid()
      ensures log == old(log) + [Step(e, mounted)]
      ensures State() == Replay(old(State()), [Step(e, mounted)])
    {
      ghost var before := State();
      match e {
        case SetLoading(on) => isLoading := on;
        case SetProfile(p) => profile := p;
        case ErrorToast =>
        case Fetch(_) =>
      }
      log := log + [Step(e, mounted)];
      assert [Step(e, mounted)][..0] == [];
    }

    /** An await resumes; the page may have unmounted meanwhile. */
    method Resume()
      requires Valid()
      modifies this`resumed, this`mounted
      ensures Valid() && resumed == old(resumed) + 1
    {
      resumed := resumed + 1;
      mounted := resumed <= alive;
    }

    /** An attempt's start: `setIsLoading(true)` and the call to `getDriverProfile`. */
    method Begin(userId: string)
      requires Valid()
      modifies this`profile, this`isLoading, this`log
      ensures Valid()
      ensures log == old(log) + StartSteps(userId, mounted)
      ensures State() == Replay(old(State()), StartSteps(userId, mounted))
    {
      ghost var before := State();
      Emit(SetLoading(true));
      ghost var middle := State();
      Emit(Fetch(userId));
      ReplayAppend(before, [Step(SetLoading(true), mounted)], [Step(Fetch(userId), mounted)]);
    }

    /** The last attempt's end: the toast when no profile came back, `setProfile`, then the finally. */
    method Settle(found: Option<DriverProfile>)
      requires Valid() && mounted
      modifies this`profile, this`isLoading, this`log
      ensures Valid()
      ensures log == old(log) + SettleSteps(found)
      ensures State() == Replay(old(State()), SettleSteps(found))
    {
      ghost var before := State();
      ghost var toast: seq<Step> := [];
      if found.None? {
        Emit(ErrorToast);
        toast := [Step(ErrorToast, true)];
      } else {
        assert Replay(before, toast) == before;
      }
      ghost var middle := State();
      Emit(SetProfile(found));
      ghost var third := State();
      Emit(SetLoading(false));
      ReplayAppend(middle, [Step(SetProfile(found), true)], [Step(SetLoading(false), true)]);
      ReplayAppend(before, toast, [Step(SetProfile(found), true), Step(SetLoading(false), true)]);
    }

    /** `loadProfile()`. */
    method LoadProfile()
      requires Valid() && resumed == 2 * retryCount
      requires retryCount == 0 || user.Some?
      modifies this`profile, this`isLoading, this`log, this`resumed, this`mounted, this`retryCount
      ensures Valid()
      ensures log == old(log) + Load(user, fetched, alive, old(retryCount)).steps
      ensures mounted == Load(user, fetched, alive, old(retryCount)).mountedAtEnd
      ensures State() == Replay(old(State()), Load(user, fetched, alive, old(retryCount)).steps)
      decreases MaxRetries - retryCount, 3
    {
      if user.None? {
        Emit(SetLoading(false));
      } else {
        Attempt(user.value);
      }
    }

    /** `loadProfile()` with a signed-in user: loading on, the fetch, and what follows it. */
    method Attempt(u: User)
      requires Valid() && resumed == 2 * retryCount && user == Some(u)
      modifies this`profile, this`isLoading, this`log, this`resumed, this`mounted, this`retryCount
      ensures Valid()
      ensures log == old(log) + Load(user, fetched, alive, old(retryCount)).steps
      ensures mounted == Load(user, fetched, alive, old(retryCount)).mountedAtEnd
      ensures State() == Replay(old(State()), Load(user, fetched, alive, old(retryCount)).steps)
      decreases MaxRetries - retryCount, 2
    {
      ghost var before, log0 := State(), log;
      ghost var run := Load(user, fetched, alive, retryCount);
      ghost var start := StartSteps(u.id, mounted);
      Begin(u.id);
      var driverProfile := fetched[retryCount];
      Resume();
      if mounted {
        ghost var rest := Fetched(u, fetched, alive, retryCount);
        assert run.steps == start + rest.steps;
        ghost var log1 := log;
        AfterFetch(driverProfile);
        assert log == log1 + rest.steps;
        AppendAssoc(log0, start, rest.steps);
        ReplayAppend(before, start, rest.steps);
      }
    }

    /** The rest of `loadProfile()` once a fetch returned on a mounted page. */
    method AfterFetch(driverProfile: Option<DriverProfile>)
      requires Valid() && mounted && user.Some? && resumed == 2 * retryCount + 1
      requires driverProfile == fetched[retryCount]
      modifies this`profile, this`isLoading, this`log, this`resumed, this`mounted, this`retryCount
      ensures Valid()
      ensures log == old(log) + Fetched(user.value, fetched, alive, old(retryCount)).steps
      ensures mounted == Fetched(user.value, fetched, alive, old(retryCount)).mountedAtEnd
      ensures State() == Replay(old(State()), Fetched(user.value, fetched, alive, old(retryCount)).steps)
      decreases MaxRetries - retryCount, 1
    {
      if driverProfile.None? && retryCount < MaxRetries {
        Retry();
      } else {
        Settle(driverProfile);
      }
    }

    /** The outer call's `finally` after a retry: loading off, if still mounted. */
    method Finally()
      requires Valid()
      modifies this`profile, this`isLoading, this`log
      ensures Valid()
      ensures log == old(log) + FinallySteps(mounted)
      ensures State() == Replay(old(State()), FinallySteps(mounted))
    {
      if mounted {
        Emit(SetLoading(false));
      } else {
        assert Replay(State(), []) == State();
        assert log + [] == log;
      }
    }

    /** The retry after an empty result: the delay, `retryCount++`, the nested `loadProfile()`, then the finally. */
    method Retry()
      requires Valid() && user.Some? && resumed == 2 * retryCount + 1 && retryCount < MaxRetries
      modifies this`profile, this`isLoading, this`log, this`resumed, this`mounted, this`retryCount
      ensures Valid()
      ensures log == old(log) + Retried(Load(user, fetched, alive, old(retryCount) + 1))
      ensures mounted == Load(user, fetched, alive, old(retryCount) + 1).mountedAtEnd
      ensures State() == Replay(old(State()), Retried(Load(user, fetched, alive, old(retryCount) + 1)))
      decreases MaxRetries - retryCount, 0
    {
      ghost var before, log0 := State(), log;
      ghost var inner := Load(user, fetched, alive, retryCount + 1);
      Resume();
      retryCount := retryCount + 1;
      LoadProfile();
      ghost var middle, log1 := State(), log;
      assert log1 == log0 + inner.steps && middle == Replay(before, inner.steps);
      assert mounted == inner.mountedAtEnd;
      Finally();
      assert Retried(inner) == inner.steps + FinallySteps(inner.mountedAtEnd);
      AppendAssoc(log0, inner.steps, FinallySteps(inner.mountedAtEnd));
      ReplayAppend(before, inner.steps, FinallySteps(inner.mountedAtEnd));
    }
  }
}
