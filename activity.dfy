/** The Activity base class with view-state support (MvpViewStateActivity): onCreate restores
    the saved view state or creates a fresh one, onSaveInstanceState saves it, and the show*
    methods record the mode the screen is in. */
module Activity {
  import opened ViewStates
  import opened Screens

  /** The Activity's showError sets the error text but never calls animateErrorViewIn. */
  const AnimatesErrorView := false

  /** restoreViewState will replay a mode: retaining is on and the bundle holds a view state
      that was showing loading, content or an error. */
  predicate Restores<M, E>(retaining: bool, saved: Option<Bundle<M, E>>)
  {
    retaining && RestoreInstanceState(saved).Some? && RestoreInstanceState(saved).value.Replayable()
  }

  /** restoreViewState: when retaining, the view state is taken from the bundle and, if it is
      non-null, its mode is replayed. */
  function RestoreStep<M, E>(retaining: bool, s: Screen<M, E>, saved: Option<Bundle<M, E>>): (r: Restoration<M, E>)
    ensures !retaining ==> r == Restoration(Step(s, []), false)
    ensures r.restored <==> Restores(retaining, saved)
    ensures !r.restored ==> r.step.events == []
    ensures retaining ==> r.step.screen.viewState == RestoreInstanceState(saved)
    ensures r.step.screen.presenter == s.presenter
  {
    if !retaining then
      Restoration(Step(s, []), false)
    else
      var s1 := s.(viewState := RestoreInstanceState(saved));
      if s1.viewState.None? then
        Restoration(Step(s1, []), false)
      else
        ReplayKeepsViewState(AnimatesErrorView, s1);
        Replay(AnimatesErrorView, s1)
  }

  /** onCreate from the presenter's creation on: createPresenter, setView, init, then
      restoreViewState; when nothing was restored, a fresh view state (when retaining, and
      IllegalStateException if createViewState returns null) and a first loadData(false).
      p is what createPresenter returns (None for null, on which setView throws
      NullPointerException) and created what createViewState returns. */
  function CreateStep<M, E>(retaining: bool, s: Screen<M, E>, saved: Option<Bundle<M, E>>,
                            p: Option<PresenterId>, created: Option<ViewState<M, E>>): (r: Outcome<M, E>)
    ensures r.thrown ==
              if p.None? then Some(NullPointerException)
              else if retaining && !Restores(retaining, saved) && created.None? then Some(IllegalStateException)
              else None
    ensures r.step.screen.presenter == p
    ensures |r.step.events| > 0 && r.step.events[0] == CreatePresenter(p)
    ensures p.None? ==> |r.step.events| == 1 && r.step.screen.viewState == s.viewState
    ensures r.thrown == Some(IllegalStateException) ==>
              p.Some? && r.step.events == [CreatePresenter(p), SetView(p.value), Init, CreateViewState] &&
              r.step.screen.viewState.None?
    ensures r.thrown.None? ==>
              r.step.screen.viewState ==
                if !retaining then s.viewState
                else if Restores(retaining, saved) then RestoreInstanceState(saved)
                else created
  {
    if p.None? then
      Outcome(Step(s.(presenter := p), [CreatePresenter(p)]), Some(NullPointerException))
    else
      var attached := Step(s.(presenter := p), [CreatePresenter(p), SetView(p.value), Init]);
      var restore := RestoreStep(retaining, attached.screen, saved);
      var afterRestore := attached.Then(restore.step);
      if restore.restored then
        Outcome(afterRestore, None)
      else if !retaining then
        Outcome(afterRestore.Then(LoadDataStep(afterRestore.screen, false)), None)
      else
        var withState := afterRestore.Then(Step(afterRestore.screen.(viewState := created), [CreateViewState]));
        if created.None? then
          Outcome(withState, Some(IllegalStateException))
        else
          Outcome(withState.Then(LoadDataStep(withState.screen, false)), None)
  }

  /** onSaveInstanceState: the view state goes into the bundle only when retaining is on and
      there is one. */
  function SavedBundle<M, E>(retaining: bool, viewState: Option<ViewState<M, E>>, out: Bundle<M, E>): (r: Bundle<M, E>)
    ensures retaining && viewState.Some? ==> RestoreInstanceState(Some(r)) == viewState
    ensures !(retaining && viewState.Some?) ==> r == out
  {
    if retaining && viewState.Some? then SaveInstanceState(viewState.value, out) else out
  }

  class MvpViewStateActivity<M, E> {
    /** isRetainingViewState(): true unless a subclass switches the feature off. */
    const retaining: bool
    var viewState: Option<ViewState<M, E>>
    /** The data the subclass last received through setData; getData returns it. */
    var data: Option<M>
    var presenter: Option<PresenterId>
    /** The events this activity has issued. */
    ghost var trace: seq<Event<M, E>>

    ghost function Current(): Screen<M, E>
      reads this
    {
      Screen(viewState, data, presenter)
    }

    /** The activity took step st from a trace that was before. */
    ghost predicate Took(st: Step<M, E>, before: seq<Event<M, E>>)
      reads this
    {
      Current() == st.screen && trace == before + st.events
    }

    constructor (retaining: bool)
      ensures this.retaining == retaining
      ensures Current() == Screen(None, None, None) && trace == []
    {
      this.retaining := retaining;
      viewState := None;
      data := None;
      presenter := None;
      trace := [];
    }

    method SetData(d: Option<M>)
      modifies this`data, this`trace
      ensures Took(SetDataStep(old(Current()), d), old(trace))
    {
      data := d;
      trace := trace + [Event.SetData(d)];
    }

    method LoadData(ptr: bool)
      modifies this`trace
      ensures Took(LoadDataStep(old(Current()), ptr), old(trace))
    {
      trace := trace + [Event.LoadData(ptr)];
    }

    method SetLoadingViewState(ptr: bool) returns (thrown: Option<JavaException>)
      modifies this`viewState
      ensures thrown == NullViewState(retaining, old(Current()))
      ensures thrown.None? ==> Current() == RecordLoading(retaining, old(Current()), ptr)
      ensures thrown.Some? ==> Current() == old(Current())
    {
      if !retaining {
        return None;
      }
      if viewState.None? {
        return Some(NullPointerException);
      }
      viewState := Some(viewState.value.SetStateShowLoading(ptr));
      thrown := None;
    }

    method SetContentViewState() returns (thrown: Option<JavaException>)
      modifies this`viewState
      ensures thrown == NullViewState(retaining, old(Current()))
      ensures thrown.None? ==> Current() == RecordContent(retaining, old(Current()))
      ensures thrown.Some? ==> Current() == old(Current())
    {
      if !retaining {
        return None;
      }
      if viewState.None? {
        return Some(NullPointerException);
      }
      viewState := Some(viewState.value.SetStateShowContent(data));
      thrown := None;
    }

    method SetErrorViewState(e: Option<E>, ptr: bool) returns (thrown: Option<JavaException>)
      modifies this`viewState
      ensures thrown == NullViewState(retaining, old(Current()))
      ensures thrown.None? ==> Current() == RecordError(retaining, old(Current()), e, ptr)
      ensures thrown.Some? ==> Current() == old(Current())
    {
      if !retaining {
        return None;
      }
      if viewState.None? {
        return Some(NullPointerException);
      }
      viewState := Some(viewState.value.SetStateShowError(e, ptr));
      thrown := None;
    }

    method ShowLoading(ptr: bool) returns (thrown: Option<JavaException>)
      modifies this`viewState, this`trace
      ensures thrown == NullViewState(retaining, old(Current()))
      ensures thrown.None? ==> Took(ShowLoadingStep(retaining, old(Current()), ptr), old(trace))
      ensures thrown.Some? ==> Took(Step(old(Current()), [Event.ShowLoading(ptr)]), old(trace))
    {
      trace := trace + [Event.ShowLoading(ptr)];
      thrown := SetLoadingViewState(ptr);
      if thrown.Some? {
        return;
      }
      if !ptr {
        trace := trace + [AnimateLoadingViewIn];
      }
    }

    method ShowContent() returns (thrown: Option<JavaException>)
      modifies this`viewState, this`trace
      ensures thrown == NullViewState(retaining, old(Current()))
      ensures thrown.None? ==> Took(ShowContentStep(retaining, old(Current())), old(trace))
      ensures thrown.Some? ==> Took(Step(old(Current()), [Event.ShowContent]), old(trace))
    {
      trace := trace + [Event.ShowContent];
      thrown := SetContentViewState();
      if thrown.Some? {
        return;
      }
      trace := trace + [AnimateContentViewIn];
    }

    method ShowError(e: Option<E>, ptr: bool) returns (thrown: Option<JavaException>)
      modifies this`viewState, this`trace
      ensures thrown == NullViewState(retaining, old(Current()))
      ensures thrown.None? ==> Took(ShowErrorStep(AnimatesErrorView, retaining, old(Current()), e, ptr), old(trace))
      ensures thrown.Some? ==> Took(Step(old(Current()), [Event.ShowError(e, ptr)]), old(trace))
    {
      trace := trace + [Event.ShowError(e, ptr)];
      thrown := SetErrorViewState(e, ptr);
      if thrown.Some? {
        return;
      }
      if ptr {
        trace := trace + [ShowLightError(e, ptr)];
      } else {
        trace := trace + [SetErrorText(e, ptr)];
      }
    }

    /** The error and the loading branch of restoreViewState first put the loaded data back on
        screen, when the held view state has any. */
    method RestorePreviousData()
      requires retaining && viewState.Some?
      modifies this`viewState, this`data, this`trace
      ensures Took(Screens.RestorePreviousData(old(Current())), old(trace))
    {
      if viewState.value.loadedData.Some? {
        ghost var s0, t0 := Current(), trace;
        SetData(viewState.value.loadedData);
        ghost var a := SetDataStep(s0, s0.viewState.value.loadedData);
        var thrown := ShowContent();
        ThenAfter(t0, a, ShowContentStep(true, a.screen));
        assert Took(a.Then(ShowContentStep(true, a.screen)), t0);
      }
    }

    method RestoreViewState(saved: Option<Bundle<M, E>>) returns (restored: bool)
      modifies this`viewState, this`data, this`trace
      ensures restored == RestoreStep(retaining, old(Current()), saved).restored
      ensures Took(RestoreStep(retaining, old(Current()), saved).step, old(trace))
    {
      if !retaining {
        return false;
      }
      viewState := RestoreInstanceState(saved);
      ghost var s1, t1 := Current(), trace;
      if viewState.Some? {
        if viewState.value.WasShowingContent() {
          var loaded := viewState.value.loadedData;
          SetData(loaded);
          ghost var a := SetDataStep(s1, loaded);
          var thrown := ShowContent();
          ThenAfter(t1, a, ShowContentStep(true, a.screen));
          assert Took(a.Then(ShowContentStep(true, a.screen)), t1);
          return true;
        }
        if viewState.value.WasShowingError() {
          var exception := viewState.value.exception;
          RestorePreviousData();
          ghost var a := Screens.RestorePreviousData(s1);
          var thrown := ShowError(exception, viewState.value.pullToRefresh);
          ghost var b := ShowErrorStep(AnimatesErrorView, true, a.screen, exception, a.screen.viewState.value.pullToRefresh);
          ThenAfter(t1, a, b);
          assert Took(a.Then(b), t1);
          return true;
        }
        if viewState.value.WasShowingLoading() {
          RestorePreviousData();
          ghost var a := Screens.RestorePreviousData(s1);
          var thrown := ShowLoading(viewState.value.pullToRefresh);
          ghost var b := ShowLoadingStep(true, a.screen, a.screen.viewState.value.pullToRefresh);
          ThenAfter(t1, a, b);
          assert Took(a.Then(b), t1);
          LoadData(viewState.value.pullToRefresh);
          ghost var c := LoadDataStep(b.screen, b.screen.viewState.value.pullToRefresh);
          ThenAfter(t1, a.Then(b), c);
          assert Took(a.Then(b).Then(c), t1);
          return true;
        }
      }
      return false;
    }

    /** p is what createPresenter returns (None for null), created the view state
        createViewState returns. */
    method OnCreate(saved: Option<Bundle<M, E>>, p: Option<PresenterId>, created: Option<ViewState<M, E>>)
      returns (thrown: Option<JavaException>)
      modifies this`viewState, this`data, this`presenter, this`trace
      ensures thrown == CreateStep(retaining, old(Current()), saved, p, created).thrown
      ensures Took(CreateStep(retaining, old(Current()), saved, p, created).step, old(trace))
    {
      ghost var s0, t0 := Current(), trace;
      presenter := p;
      trace := trace + [CreatePresenter(p)];
      if presenter.None? {
        return Some(NullPointerException);
      }
      trace := trace + [SetView(presenter.value), Init];
      ghost var attached := Step(s0.(presenter := p), [CreatePresenter(p), SetView(p.value), Init]);
      assert trace == t0 + attached.events;
      assert Took(attached, t0);
      var restored := RestoreViewState(saved);
      ghost var restore := RestoreStep(retaining, attached.screen, saved);
      ghost var afterRestore := attached.Then(restore.step);
      ThenAfter(t0, attached, restore.step);
      assert Took(afterRestore, t0);
      if !restored {
        if retaining {
          viewState := created;
          trace := trace + [CreateViewState];
          ghost var withState := afterRestore.Then(Step(afterRestore.screen.(viewState := created), [CreateViewState]));
          ThenAfter(t0, afterRestore, Step(afterRestore.screen.(viewState := created), [CreateViewState]));
          assert Took(withState, t0);
          if viewState.None? {
            return Some(IllegalStateException);
          }
          LoadData(false);
          ThenAfter(t0, withState, LoadDataStep(withState.screen, false));
          assert Took(withState.Then(LoadDataStep(withState.screen, false)), t0);
          return None;
        }
        LoadData(false);
        ThenAfter(t0, afterRestore, LoadDataStep(afterRestore.screen, false));
        assert Took(afterRestore.Then(LoadDataStep(afterRestore.screen, false)), t0);
      }
      thrown := None;
    }

    method OnSaveInstanceState(out: Bundle<M, E>) returns (r: Bundle<M, E>)
      ensures retaining && viewState.Some? ==> RestoreInstanceState(Some(r)) == viewState
      ensures !(retaining && viewState.Some?) ==> r == out
      ensures r == SavedBundle(retaining, viewState, out)
    {
      r := out;
      if retaining && viewState.Some? {
        r := SaveInstanceState(viewState.value, out);
      }
    }

    /** The presenter, if any, is destroyed without retaining its instance. */
    method OnDestroy()
      modifies this`trace
      ensures trace == old(trace) + if presenter.Some? then [DestroyPresenter(presenter.value, false)] else []
    {
      if presenter.Some? {
        trace := trace + [DestroyPresenter(presenter.value, false)];
      }
    }

    method OnErrorViewClicked()
      modifies this`trace
      ensures Took(LoadDataStep(old(Current()), false), old(trace))
    {
      LoadData(false);
    }
  }

  /** Once createPresenter has returned a presenter, onCreate issues createPresenter, setView
      and init, then the restoration, followed, when nothing was restored, by the creation of
      a view state (when retaining) and a first loadData(false). */
  lemma CreateEvents<M, E>(retaining: bool, s: Screen<M, E>, saved: Option<Bundle<M, E>>,
                           p: Option<PresenterId>, created: Option<ViewState<M, E>>)
    requires CreateStep(retaining, s, saved, p, created).thrown.None?
    ensures p.Some?
    ensures var restore := RestoreStep(retaining, s.(presenter := p), saved);
            CreateStep(retaining, s, saved, p, created).step.events ==
              [CreatePresenter(p), SetView(p.value), Init] + restore.step.events +
              if restore.restored then [] else if retaining then [CreateViewState, LoadData(false)] else [LoadData(false)]
  {
    var restore := RestoreStep(retaining, s.(presenter := p), saved);
    var afterRestore := [CreatePresenter(p), SetView(p.value), Init] + restore.step.events;
    if !restore.restored && retaining {
      AppendAssociates(afterRestore, [CreateViewState], [LoadData(false)]);
    }
  }

  /** onCreate issues exactly the replayed callbacks when a view state is restored, and
      otherwise exactly one loadData(false) (unless it threw). */
  lemma CreateCallbacks<M, E>(retaining: bool, s: Screen<M, E>, saved: Option<Bundle<M, E>>,
                              p: Option<PresenterId>, created: Option<ViewState<M, E>>)
    requires CreateStep(retaining, s, saved, p, created).thrown.None?
    ensures var events := CreateStep(retaining, s, saved, p, created).step.events;
            Callbacks(events) ==
              if Restores(retaining, saved) then DocumentedReplay(RestoreInstanceState(saved).value)
              else [LoadData(false)]
  {
    CreateEvents(retaining, s, saved, p, created);
    var s0 := s.(presenter := p);
    var restore := RestoreStep(retaining, s0, saved);
    var prefix: seq<Event<M, E>> := [CreatePresenter(p), SetView(p.value), Init];
    var tail: seq<Event<M, E>> := if restore.restored then [] else if retaining then [CreateViewState, LoadData(false)] else [LoadData(false)];
    CallbacksOfNonCallbacks(prefix);
    CallbacksAppend(prefix, restore.step.events);
    CallbacksAppend(prefix + restore.step.events, tail);
    if restore.restored {
      var s1 := s0.(viewState := RestoreInstanceState(saved));
      assert restore == Replay(AnimatesErrorView, s1);
      ReplayIssuesDocumentedCallbacks(AnimatesErrorView, s1);
    } else {
      assert Callbacks(tail) == [LoadData(false)];
    }
  }

  /** An onCreate that throws never reaches loadData. */
  lemma CreateThrowsBeforeLoading<M, E>(retaining: bool, s: Screen<M, E>, saved: Option<Bundle<M, E>>,
                                        p: Option<PresenterId>, created: Option<ViewState<M, E>>)
    requires CreateStep(retaining, s, saved, p, created).thrown.Some?
    ensures LoadDataCalls(CreateStep(retaining, s, saved, p, created).step.events) == 0
  {
    var events := CreateStep(retaining, s, saved, p, created).step.events;
    NoLoadDataCalls(events);
  }

  /** onCreate calls loadData exactly once when nothing was restored; when a view state was
      restored it is called only by the replay of a loading screen. */
  lemma CreateLoadsDataOnce<M, E>(retaining: bool, s: Screen<M, E>, saved: Option<Bundle<M, E>>,
                                  p: Option<PresenterId>, created: Option<ViewState<M, E>>)
    requires CreateStep(retaining, s, saved, p, created).thrown.None?
    ensures LoadDataCalls(CreateStep(retaining, s, saved, p, created).step.events) ==
              if !Restores(retaining, saved) then 1
              else if RestoreInstanceState(saved).value.WasShowingLoading() then 1
              else 0
  {
    var events := CreateStep(retaining, s, saved, p, created).step.events;
    CreateCallbacks(retaining, s, saved, p, created);
    LoadDataCallsOfCallbacks(events);
    if Restores(retaining, saved) {
      var s1 := s.(presenter := p).(viewState := RestoreInstanceState(saved));
      ReplayIssuesDocumentedCallbacks(AnimatesErrorView, s1);
      ReplayLoadsOnlyWhenLoading(AnimatesErrorView, s1);
      LoadDataCallsOfCallbacks(Replay(AnimatesErrorView, s1).step.events);
    }
  }

  /** A screen rotation while retaining: the view state saved on teardown comes back in the
      recreated activity and, when it has a mode and createPresenter returns a presenter,
      onCreate consists of creating and attaching the presenter followed by the replay of
      that mode, whose callbacks are the documented ones; no fresh view state is created and
      no further loadData is issued. A view state with no mode to replay is replaced by the
      created one instead. */
  lemma RotationRestoresViewState<M, E>(shown: Screen<M, E>, out: Bundle<M, E>, recreated: Screen<M, E>,
                                        p: Option<PresenterId>, created: Option<ViewState<M, E>>)
    requires shown.viewState.Some?
    ensures var vs := shown.viewState.value;
            var o := CreateStep(true, recreated, Some(SavedBundle(true, shown.viewState, out)), p, created);
            var replay := Replay(AnimatesErrorView, recreated.(presenter := p, viewState := Some(vs)));
            vs.Replayable() && p.Some? ==>
              o.thrown.None? && o.step.screen.viewState == Some(vs) &&
              o.step.events == [CreatePresenter(p), SetView(p.value), Init] + replay.step.events &&
              Callbacks(o.step.events) == DocumentedReplay(vs)
    ensures var o := CreateStep(true, recreated, Some(SavedBundle(true, shown.viewState, out)), p, created);
            !shown.viewState.value.Replayable() && o.thrown.None? ==> o.step.screen.viewState == created
  {
    var saved := Some(SavedBundle(true, shown.viewState, out));
    if shown.viewState.value.Replayable() && p.Some? {
      assert Restores(true, saved);
      CreateCallbacks(true, recreated, saved, p, created);
    }
  }
}
