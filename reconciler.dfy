/** The payment-return effect of the results page (App.tsx:213-241) as a
    function of the browser state and the `isGenerationStarted` flag it
    closed over, and the page-load lifecycle React runs it in. */
module Reconciler {
  import opened Common
  import opened Dom
  import UrlSearch
  import AppRouter

  /** One run of the effect: the new browser state, the new flag, and the
      photo `startGeneration` was called with, if it was called. */
  datatype EffectResult = EffectResult(env: Env, started: bool, generation: Option<string>)

  /** `urlParams.get('payment')` */
  function Marker(env: Env): Option<string>
  {
    UrlSearch.Get(env.location.search, "payment")
  }

  /** The condition of the success branch (App.tsx:217). */
  predicate SuccessBranch(env: Env, started: bool)
  {
    Marker(env) == Some("success") && !started
  }

  /** The condition of the fallback branch, `!paymentStatus` (App.tsx:228):
      a missing marker and an empty one alike. */
  predicate FallbackBranch(env: Env, started: bool)
  {
    !SuccessBranch(env, started) && !Truthy(Marker(env))
  }

  /** One run of the effect exactly as App.tsx writes it. */
  function EffectAsWritten(env: Env, started: bool): (r: EffectResult)
    ensures r.generation.Some? <==>
      StoredImage(env.session).Some? && (SuccessBranch(env, started) || FallbackBranch(env, started))
    ensures r.generation.Some? ==>
      && r.generation == StoredImage(env.session) && r.started
      && r.env.session == env.session - {UploadedImageKey}
      && StoredImage(r.env.session).None? && r.env.navigation == env.navigation
    ensures r.generation.Some? && SuccessBranch(env, started) ==>
      r.env.location == Resolve(env.location.pathname + AppRouter.ResultsQuery)
    ensures r.generation.Some? && FallbackBranch(env, started) ==> r.env.location == env.location
    ensures r.generation.None? ==>
      && r.started == started && r.env.session == env.session && r.env.location == env.location
      && r.env.navigation ==
           if SuccessBranch(env, started) || FallbackBranch(env, started) then Some("/") else env.navigation
  {
    var stored := StoredImage(env.session);
    if SuccessBranch(env, started) then
      if stored.Some? then
        var env' := env.(session := env.session - {UploadedImageKey},
                         location := Resolve(env.location.pathname + AppRouter.ResultsQuery));
        EffectResult(env', true, stored)
      else
        EffectResult(env.(navigation := Some("/")), started, None)
    else if !Truthy(Marker(env)) then
      if stored.None? then
        EffectResult(env.(navigation := Some("/")), started, None)
      else
        EffectResult(env.(session := env.session - {UploadedImageKey}), true, stored)
    else
      EffectResult(env, started, None)
  }

  /** The effect with the guard the re-run needs: once generation has
      started, a re-run of the effect changes nothing. */
  function Effect(env: Env, started: bool): (r: EffectResult)
    ensures started ==> r == EffectResult(env, started, None)
    ensures !started ==> r == EffectAsWritten(env, started)
  {
    if started then EffectResult(env, started, None) else EffectAsWritten(env, started)
  }

  function Run(guarded: bool, env: Env, started: bool): EffectResult
  {
    if guarded then Effect(env, started) else EffectAsWritten(env, started)
  }

  /** What `k` consecutive runs of the effect leave behind, with every photo
      `startGeneration` was called with, in call order. */
  datatype Lifecycle = Lifecycle(env: Env, started: bool, generations: seq<string>)

  function Runs(guarded: bool, env: Env, started: bool, k: nat): Lifecycle
    decreases k
  {
    if k == 0 then Lifecycle(env, started, [])
    else
      var r := Run(guarded, env, started);
      var rest := Runs(guarded, r.env, r.started, k - 1);
      Lifecycle(rest.env, rest.started, OptionToSeq(r.generation) + rest.generations)
  }

  /** React's schedule for the effect's dependency list `[isGenerationStarted]`
      (App.tsx:241): it runs on mount with the flag false and once more if
      that run set the flag, which can only go from false to true. */
  function Mount(guarded: bool, env: Env): (l: Lifecycle)
    ensures l.generations == OptionToSeq(Run(guarded, env, false).generation)
    ensures l.started == Run(guarded, env, false).started
  {
    var first := Run(guarded, env, false);
    if first.started then
      TwoRuns(guarded, env);
      assert StoredImage(first.env.session).None?;
      assert Run(guarded, first.env, true).generation.None?;
      Runs(guarded, env, false, 2)
    else
      OneRun(guarded, env, false);
      Runs(guarded, env, false, 1)
  }

  /** Without a stored photo no run ever starts generation, and none stores one. */
  lemma {:induction false} NoPhotoNoStart(guarded: bool, env: Env, started: bool, k: nat)
    requires StoredImage(env.session).None?
    ensures Runs(guarded, env, started, k).generations == []
    decreases k
  {
    if k > 0 {
      var r := Run(guarded, env, started);
      NoPhotoNoStart(guarded, r.env, r.started, k - 1);
    }
  }

  /** A run that does not start generation changes neither the flag, the
      address nor the storage, so every later run makes the same decision. */
  lemma {:induction false} IdleStaysIdle(guarded: bool, env: Env, started: bool, k: nat)
    requires Run(guarded, env, started).generation.None?
    ensures Runs(guarded, env, started, k).generations == []
    decreases k
  {
    if k > 0 {
      var r := Run(guarded, env, started);
      assert Marker(r.env) == Marker(env) && StoredImage(r.env.session) == StoredImage(env.session);
      IdleStaysIdle(guarded, r.env, r.started, k - 1);
    }
  }

  /** However often the effect runs, `startGeneration` is called at most once:
      the flag guards the success branch and the photo is gone after a start. */
  lemma AtMostOneStart(guarded: bool, env: Env, started: bool, k: nat)
    ensures |Runs(guarded, env, started, k).generations| <= 1
  {
    if k > 0 {
      var r := Run(guarded, env, started);
      if r.generation.Some? {
        NoPhotoNoStart(guarded, r.env, r.started, k - 1);
      } else {
        IdleStaysIdle(guarded, env, started, k);
      }
    }
  }

  /** With the guard, runs after a start change nothing. */
  lemma {:induction false} StartedIsQuiet(env: Env, k: nat)
    ensures Runs(true, env, true, k) == Lifecycle(env, true, [])
    decreases k
  {
    if k > 0 {
      StartedIsQuiet(env, k - 1);
    }
  }

  /** The mount run starts generation with the stored photo when the address
      carries `payment=success` or no marker. */
  predicate StartsOnMount(env: Env)
  {
    Truthy(StoredImage(env.session)) && (Marker(env) == Some("success") || !Truthy(Marker(env)))
  }

  /** As written, a page load that starts generation also leaves the results
      page for `/`: the re-run after `setIsGenerationStarted(true)` finds no
      marker in the rewritten address and no photo in the storage, and takes
      the unguarded fallback branch. */
  lemma MountAsWrittenLeavesPage(env: Env)
    requires '?' !in env.location.pathname
    requires StartsOnMount(env)
    ensures Mount(false, env).generations == [StoredImage(env.session).value]
    ensures Mount(false, env).env.navigation == Some("/")
  {
    var first := EffectAsWritten(env, false);
    assert first.started;
    RerunAsWritten(env, first);
    var second := EffectAsWritten(first.env, true);
    TwoRuns(false, env);
  }

  /** The re-run after an as-written start takes the fallback branch and finds
      no photo. */
  lemma RerunAsWritten(env: Env, first: EffectResult)
    requires '?' !in env.location.pathname
    requires StartsOnMount(env)
    requires first == EffectAsWritten(env, false)
    ensures first.generation == StoredImage(env.session) && first.started
    ensures EffectAsWritten(first.env, true).env.navigation == Some("/")
    ensures EffectAsWritten(first.env, true).generation.None?
  {
    if SuccessBranch(env, false) {
      ResolvePathAndQuery(env.location.pathname, AppRouter.ResultsQuery);
      AppRouter.ResultsQueryParams();
      assert Marker(first.env) == None;
    } else {
      assert Marker(first.env) == Marker(env);
    }
    assert FallbackBranch(first.env, true);
  }

  /** One run, spelled out. */
  lemma OneRun(guarded: bool, env: Env, started: bool)
    ensures var r := Run(guarded, env, started);
      Runs(guarded, env, started, 1) == Lifecycle(r.env, r.started, OptionToSeq(r.generation))
  {
    var r := Run(guarded, env, started);
    assert Runs(guarded, r.env, r.started, 0).generations == [];
    assert OptionToSeq(r.generation) + [] == OptionToSeq(r.generation);
  }

  /** Two runs, spelled out. */
  lemma TwoRuns(guarded: bool, env: Env)
    ensures var first := Run(guarded, env, false);
      var second := Run(guarded, first.env, first.started);
      Runs(guarded, env, false, 2)
        == Lifecycle(second.env, second.started, OptionToSeq(first.generation) + OptionToSeq(second.generation))
  {
    var first := Run(guarded, env, false);
    var second := Run(guarded, first.env, first.started);
    assert Runs(guarded, second.env, second.started, 0).generations == [];
    assert OptionToSeq(second.generation) + [] == OptionToSeq(second.generation);
  }

  /** With the guard, the same page load starts generation once, stays on
      the results page and keeps `?page=results` after a paid return. */
  lemma MountKeepsPage(env: Env)
    requires '?' !in env.location.pathname
    requires StartsOnMount(env)
    ensures Mount(true, env).generations == [StoredImage(env.session).value]
    ensures Mount(true, env).env.navigation == env.navigation
    ensures Mount(true, env).started
    ensures StoredImage(Mount(true, env).env.session).None?
    ensures Marker(env) == Some("success") ==>
      Mount(true, env).env.location == Location(env.location.pathname, AppRouter.ResultsQuery)
  {
    var first := Effect(env, false);
    assert first.generation.Some? && first.started;
    StartedIsQuiet(first.env, 1);
    if Marker(env) == Some("success") {
      ResolvePathAndQuery(env.location.pathname, AppRouter.ResultsQuery);
    }
  }

  /** With the guard, a page load that starts generation never leaves the
      page, however many further runs of the effect follow. */
  lemma GuardedNeverLeavesAfterStart(env: Env, k: nat)
    requires Effect(env, false).generation.Some?
    requires k >= 1
    ensures Runs(true, env, false, k).env.navigation == env.navigation
    ensures Runs(true, env, false, k).started
  {
    StartedIsQuiet(Effect(env, false).env, k - 1);
  }
}
