/** The Fragment base class with view-state support (MvpViewStateFragment). It differs from
    the Activity variant in five ways: a fragment whose instance is retained keeps its view
    state in memory instead of reading the bundle, and does not write it into the bundle;
    an existing presenter is reused when the view is recreated; showError animates the error
    view in unless the error is a pull-to-refresh one; and the presenter's onDestroy is told
    whether the instance is retained. */
module Fragment {
  import opened ViewStates
  import opened Screens
  import Activity

  /** The Fragment's showError animates the error view in unless it is a pull-to-refresh error. */
  const AnimatesErrorView := true

  /** The view state restoreViewState replays: the one held in memory when the instance is
      retained, otherwise the one in the bundle. */
  function HeldViewState<M, E>(retainInstance: bool, s: Screen<M, E>, saved: Option<Bundle<M, E>>): (r: Option<ViewState<M, E>>)
    ensures retainInstance ==> r == s.viewState
    ensures !retainInstance ==> r == RestoreInstanceState(saved)
  {
    if retainInstance then s.viewState else RestoreInstanceState(saved)
  }

  /** restoreViewState will replay a mode. */
  predicate Restores<M, E>(retaining: bool, retainInstance: bool, s: Screen<M, E>, saved: Option<Bundle<M, E>>)
  {
    retaining && HeldViewState(retainInstance, s, saved).Some? && HeldViewState(retainInstance, s, saved).value.Replayable()
  }

  /** restoreViewState: when retaining, the view state is taken from the bundle unless the
      instance is retained, and, if it is non-null, its mode is replayed. */
  function RestoreStep<M, E>(retaining: bool, retainInstance: bool, s: Screen<M, E>, saved: Option<Bundle<M, E>>): (r: Restoration<M, E>)
    ensures !retaining ==> r == Restoration(Step(s, []), false)
    ensures r.restored <==> Restores(retaining, retainInstance, s, saved)
    ensures !r.restored ==> r.step.events == []
    ensures retaining ==> r.step.screen.viewState == HeldViewState(retainInstance, s, saved)
    ensures r.step.screen.presenter == s.presenter
  {
    if !retaining then
      Restoration(Step(s, []), false)
    else
      var s1 := if retainInstance then s else s.(viewState := RestoreInstanceState(saved));
      if s1.viewState.None? then
        Restoration(Step(s1, []), false)
      else
        ReplayKeepsViewState(AnimatesErrorView, s1);
        Replay(AnimatesErrorView, s1)
  }

  /** The presenter onCreateView attaches the view to: the existing one, or p, what
      createPresenter returns (None for null). */
  function AttachedPresenter<M, E>(s: Screen<M, E>, p: Option<PresenterId>): (q: Option<PresenterId>)
    ensures s.presenter.Some? ==> q == s.presenter
    ensures s.presenter.None? ==> q == p
  {
    if s.presenter.Some? then s.presenter else p
  }

  /** onCreateView from the presenter on: createPresenter only when there is no presenter,
      setView (NullPointerException when there is still none), init, then restoreViewState;
      when nothing was restored, a fresh view state (when retaining, and IllegalStateException
      if createViewState returns null) and a first loadData(false). */
  function CreateViewStep<M, E>(retaining: bool, retainInstance: bool, s: Screen<M, E>, saved: Option<Bundle<M, E>>,
                                p: Option<PresenterId>, created: Option<ViewState<M, E>>): (r: Outcome<M, E>)
    ensures r.thrown ==
              if AttachedPresenter(s, p).None? then Some(NullPointerException)
              else if retaining && !Restores(retaining, retainInstance, s, saved) && created.None? then Some(IllegalStateException)
              else None
    ensures r.step.screen.presenter == AttachedPresenter(s, p)
    ensures s.presenter.None? ==> |r.step.events| > 0 && r.step.events[0] == CreatePresenter(p)
    ensures s.presenter.None? && p.None? ==> |r.step.events| == 1 && r.step.screen.viewState == s.viewState
    ensures r.thrown == Some(IllegalStateException) ==>
              AttachedPresenter(s, p).Some? && r.step.events == AttachEvents(s, p) + [CreateViewState] &&
              r.step.screen.viewState.None?
    ensures s.presenter.None? && p.Some? ==> |r.step.events| > 1 && r.step.events[1] == SetView(p.value)
    ensures s.presenter.Some? ==> |r.step.events| > 0 && r.step.events[0] == SetView(s.presenter.value)
    ensures r.thrown.None? ==>
              r.step.screen.viewState ==
                if !retaining then s.viewState
                else if Restores(retaining, retainInstance, s, saved) then HeldViewState(retainInstance, s, saved)
                else created
  {
    var q := AttachedPresenter(s, p);
    var creation: seq<Event<M, E>> := if s.presenter.None? then [CreatePresenter(p)] else [];
    if q.None? then
      Outcome(Step(s.(presenter := q), creation), Some(NullPointerException))
    else
      var attached := Step(s.(presenter := q), creation + [SetView(q.value), Init]);
      var restore := RestoreStep(retaining, retainInstance, attached.screen, saved);
      var afterRestore := attached.Then(restore.step);
      if restore.restored then
        Outcome(afterRestore, None)
      else if !retaining then
        Outcome(afterRestore.Then(LoadDataStep(afterRestore.screen, false)), None)
      else
        var withState := afterRestore.Then(Step(afterRestore.screen.(viewState := created), [CreateViewState]));
        if created.None? then
          Outcome(withState, Some(IllegalStateException))
        else
          Outcome(withState.Then(LoadDataStep(withState.screen, false)), None)
  }

  /** onSaveInstanceState: the view state goes into the bundle only when retaining is on, there
      is one, and the instance is not retained (a retained fragment keeps it in memory). */
  function SavedBundle<M, E>(retaining: bool, retainInstance: bool, viewState: Option<ViewState<M, E>>, out: Bundle<M, E>): (r: Bundle<M, E>)
    ensures retaining && viewState.Some? && !retainInstance ==> RestoreInstanceState(Some(r)) == viewState
    ensures !(retaining && viewState.Some? && !retainInstance) ==> r == out
  {
    if retaining && viewState.Some? && !retainInstance then SaveInstanceState(viewState.value, out) else out
  }

  class MvpViewStateFragment<M, E> {
    /** isRetainingViewState(): true unless a subclass switches the feature off. */
    const retaining: bool
    /** getRetainInstance(): whether the fragment instance survives its activity's recreation. */
    const retainInstance: bool
    var viewState: Option<ViewState<M, E>>
    /** The data the subclass last received through setData; getData returns it. */
    var data: Option<M>
    var presenter: Option<PresenterId>
    /** The events this fragment has issued. */
    ghost var trace: seq<Event<M, E>>

    ghost function Current(): Screen<M, E>
      reads this
    {
      Screen(viewState, data, presenter)
    }

    /** The fragment took step st from a trace that was before. */
    ghost predicate Took(st: Step<M, E>, before: seq<Event<M, E>>)
      reads this
    {
      Current() == st.screen && trace == before + st.events
    }

    constructor (retaining: bool, retainInstance: bool)
      ensures this.retaining == retaining && this.retainInstance == retainInstance
      ensures Current() == Screen(None, None, None) && trace == []
    {
      this.retaining := retaining;
      this.retainInstance := retainInstance;
      viewState := None;
      data := None;
      presenter := None;
      trace := [];
    }

    method SetData(d: Option<M>)
      modifies this`data, this`trace
      ensures Took(SetDataStep(old(Current()), d), old(trace))
    {
      data := d;
      trace := trace + [Event.SetData(d)];
    }

    method LoadData(ptr: bool)
      modifies this`trace
      ensures Took(LoadDataStep(old(Current()), ptr), old(trace))
    {
      trace := trace + [Event.LoadData(ptr)];
    }

    method SetLoadingViewState(ptr: bool) returns (thrown: Option<JavaException>)
      modifies this`viewState
      ensures thrown == NullViewState(retaining, old(Current()))
      ensures thrown.None? ==> Current() == RecordLoading(retaining, old(Current()), ptr)
      ensures thrown.Some? ==> Current() == old(Current())
    {
      if !retaining {
        return None;
      }
      if viewState.None? {
        return Some(NullPointerException);
      }
      viewState := Some(viewState.value.SetStateShowLoading(ptr));
      thrown := None;
    }

    method SetContentViewState() returns (thrown: Option<JavaException>)
      modifies this`viewState
      ensures thrown == NullViewState(retaining, old(Current()))
      ensures thrown.None? ==> Current() == RecordContent(retaining, old(Current()))
      ensures thrown.Some? ==> Current() == old(Current())
    {
      if !retaining {
        return None;
      }
      if viewState.None? {
        return Some(NullPointerException);
      }
      viewState := Some(viewState.value.SetStateShowContent(data));
      thrown := None;
    }

    method SetErrorViewState(e: Option<E>, ptr: bool) returns (thrown: Option<JavaException>)
      modifies this`viewState
      ensures thrown == NullViewState(retaining, old(Current()))
      ensures thrown.None? ==> Current() == RecordError(retaining, old(Current()), e, ptr)
      ensures thrown.Some? ==> Current() == old(Current())
    {
      if !retaining {
        return None;
      }
      if viewState.None? {
        return Some(NullPointerException);
      }
      viewState := Some(viewState.value.SetStateShowError(e, ptr));
      thrown := None;
    }

    method ShowLoading(ptr: bool) returns (thrown: Option<JavaException>)
      modifies this`viewState, this`trace
      ensures thrown == NullViewState(retaining, old(Current()))
      ensures thrown.None? ==> Took(ShowLoadingStep(retaining, old(Current()), ptr), old(trace))
      ensures thrown.Some? ==> Took(Step(old(Current()), [Event.ShowLoading(ptr)]), old(trace))
    {
      trace := trace + [Event.ShowLoading(ptr)];
      thrown := SetLoadingViewState(ptr);
      if thrown.Some? {
        return;
      }
      if !ptr {
        trace := trace + [AnimateLoadingViewIn];
      }
    }

    method ShowContent() returns (thrown: Option<JavaException>)
      modifies this`viewState, this`trace
      ensures thrown == NullViewState(retaining, old(Current()))
      ensures thrown.None? ==> Took(ShowContentStep(retaining, old(Current())), old(trace))
      ensures thrown.Some? ==> Took(Step(old(Current()), [Event.ShowContent]), old(trace))
    {
      trace := trace + [Event.ShowContent];
      thrown := SetContentViewState();
      if thrown.Some? {
        return;
      }
      trace := trace + [AnimateContentViewIn];
    }

    method ShowError(e: Option<E>, ptr: bool) returns (thrown: Option<JavaException>)
      modifies this`viewState, this`trace
      ensures thrown == NullViewState(retaining, old(Current()))
      ensures thrown.None? ==> Took(ShowErrorStep(AnimatesErrorView, retaining, old(Current()), e, ptr), old(trace))
      ensures thrown.Some? ==> Took(Step(old(Current()), [Event.ShowError(e, ptr)]), old(trace))
    {
      trace := trace + [Event.ShowError(e, ptr)];
      thrown := SetErrorViewState(e, ptr);
      if thrown.Some? {
        return;
      }
      if ptr {
        trace := trace + [ShowLightError(e, ptr)];
      } else {
        trace := trace + [SetErrorText(e, ptr), AnimateErrorViewIn];
      }
    }

    /** The error and the loading branch of restoreViewState first put the loaded data back on
        screen, when the held view state has any. */
    method RestorePreviousData()
      requires retaining && viewState.Some?
      modifies this`viewState, this`data, this`trace
      ensures Took(Screens.RestorePreviousData(old(Current())), old(trace))
    {
      if viewState.value.loadedData.Some? {
        ghost var s0, t0 := Current(), trace;
        SetData(viewState.value.loadedData);
        ghost var a := SetDataStep(s0, s0.viewState.value.loadedData);
        var thrown := ShowContent();
        ThenAfter(t0, a, ShowContentStep(true, a.screen));
        assert Took(a.Then(ShowContentStep(true, a.screen)), t0);
      }
    }

    method RestoreViewState(saved: Option<Bundle<M, E>>) returns (restored: bool)
      modifies this`viewState, this`data, this`trace
      ensures restored == RestoreStep(retaining, retainInstance, old(Current()), saved).restored
      ensures Took(RestoreStep(retaining, retainInstance, old(Current()), saved).step, old(trace))
    {
      ghost var s0 := Current();
      if !retaining {
        return false;
      }
      if !retainInstance {
        // the instance was not kept across recreation, so the view state comes from the bundle
        viewState := RestoreInstanceState(saved);
      }
      ghost var s1, t1 := Current(), trace;
      if viewState.Some? {
        if viewState.value.WasShowingContent() {
          var loaded := viewState.value.loadedData;
          SetData(loaded);
          ghost var a := SetDataStep(s1, loaded);
          var thrown := ShowContent();
          ThenAfter(t1, a, ShowContentStep(true, a.screen));
          assert Took(a.Then(ShowContentStep(true, a.screen)), t1);
          return true;
        }
        if viewState.value.WasShowingError() {
          var exception := viewState.value.exception;
          RestorePreviousData();
          ghost var a := Screens.RestorePreviousData(s1);
          var thrown := ShowError(exception, viewState.value.pullToRefresh);
          ghost var b := ShowErrorStep(AnimatesErrorView, true, a.screen, exception, a.screen.viewState.value.pullToRefresh);
          ThenAfter(t1, a, b);
          assert Took(a.Then(b), t1);
          return true;
        }
        if viewState.value.WasShowingLoading() {
          RestorePreviousData();
          ghost var a := Screens.RestorePreviousData(s1);
          var thrown := ShowLoading(viewState.value.pullToRefresh);
          ghost var b := ShowLoadingStep(true, a.screen, a.screen.viewState.value.pullToRefresh);
          ThenAfter(t1, a, b);
          assert Took(a.Then(b), t1);
          LoadData(viewState.value.pullToRefresh);
          ghost var c := LoadDataStep(b.screen, b.screen.viewState.value.pullToRefresh);
          ThenAfter(t1, a.Then(b), c);
          assert Took(a.Then(b).Then(c), t1);
          return true;
        }
      }
      return false;
    }

    /** p is what createPresenter would return (None for null), created the view state
        createViewState returns. */
    method OnCreateView(saved: Option<Bundle<M, E>>, p: Option<PresenterId>, created: Option<ViewState<M, E>>)
      returns (thrown: Option<JavaException>)
      modifies this`viewState, this`data, this`presenter, this`trace
      ensures thrown == CreateViewStep(retaining, retainInstance, old(Current()), saved, p, created).thrown
      ensures Took(CreateViewStep(retaining, retainInstance, old(Current()), saved, p, created).step, old(trace))
    {
      ghost var s0, t0 := Current(), trace;
      if presenter.None? {
        presenter := p;
        trace := trace + [CreatePresenter(p)];
      }
      if presenter.None? {
        return Some(NullPointerException);
      }
      ghost var t1 := trace;
      trace := trace + [SetView(presenter.value), Init];
      ghost var q := AttachedPresenter(s0, p);
      ghost var creation: seq<Event<M, E>> := if s0.presenter.None? then [CreatePresenter(p)] else [];
      ghost var attached := Step(s0.(presenter := q), creation + [SetView(q.value), Init]);
      AppendAssociates(t0, creation, [SetView(q.value), Init]);
      assert Took(attached, t0);
      var restored := RestoreViewState(saved);
      ghost var restore := RestoreStep(retaining, retainInstance, attached.screen, saved);
      ghost var afterRestore := attached.Then(restore.step);
      ThenAfter(t0, attached, restore.step);
      assert Took(afterRestore, t0);
      if !restored {
        if retaining {
          viewState := created;
          trace := trace + [CreateViewState];
          ghost var withState := afterRestore.Then(Step(afterRestore.screen.(viewState := created), [CreateViewState]));
          ThenAfter(t0, afterRestore, Step(afterRestore.screen.(viewState := created), [CreateViewState]));
          assert Took(withState, t0);
          if viewState.None? {
            return Some(IllegalStateException);
          }
          LoadData(false);
          ThenAfter(t0, withState, LoadDataStep(withState.screen, false));
          assert Took(withState.Then(LoadDataStep(withState.screen, false)), t0);
          return None;
        }
        LoadData(false);
        ThenAfter(t0, afterRestore, LoadDataStep(afterRestore.screen, false));
        assert Took(afterRestore.Then(LoadDataStep(afterRestore.screen, false)), t0);
      }
      thrown := None;
    }

    method OnSaveInstanceState(out: Bundle<M, E>) returns (r: Bundle<M, E>)
      ensures retaining && viewState.Some? && !retainInstance ==> RestoreInstanceState(Some(r)) == viewState
      ensures !(retaining && viewState.Some? && !retainInstance) ==> r == out
      ensures r == SavedBundle(retaining, retainInstance, viewState, out)
    {
      r := out;
      if retaining && viewState.Some? {
        if !retainInstance {
          r := SaveInstanceState(viewState.value, out);
        }
      }
    }

    /** The presenter, if any, is destroyed, told whether the fragment instance is retained. */
    method OnDestroyView()
      modifies this`trace
      ensures trace == old(trace) + if presenter.Some? then [DestroyPresenter(presenter.value, retainInstance)] else []
    {
      if presenter.Some? {
        trace := trace + [DestroyPresenter(presenter.value, retainInstance)];
      }
    }

    method OnErrorViewClicked()
      modifies this`trace
      ensures Took(LoadDataStep(old(Current()), false), old(trace))
    {
      LoadData(false);
    }
  }

  /** The events onCreateView issues before restoreViewState: createPresenter when there is no
      presenter yet, then setView and init. */
  function AttachEvents<M, E>(s: Screen<M, E>, p: Option<PresenterId>): (r: seq<Event<M, E>>)
    requires AttachedPresenter(s, p).Some?
    ensures Callbacks(r) == []
  {
    var creation: seq<Event<M, E>> := if s.presenter.None? then [CreatePresenter(p)] else [];
    var r := creation + [SetView(AttachedPresenter(s, p).value), Init];
    CallbacksOfNonCallbacks(r);
    r
  }

  /** onCreateView issues the attach events and the restoration, followed, when nothing was
      restored, by the creation of a view state (when retaining) and a first loadData(false). */
  lemma CreateViewEvents<M, E>(retaining: bool, retainInstance: bool, s: Screen<M, E>, saved: Option<Bundle<M, E>>,
                               p: Option<PresenterId>, created: Option<ViewState<M, E>>)
    requires CreateViewStep(retaining, retainInstance, s, saved, p, created).thrown.None?
    ensures var restore := RestoreStep(retaining, retainInstance, s.(presenter := AttachedPresenter(s, p)), saved);
            CreateViewStep(retaining, retainInstance, s, saved, p, created).step.events ==
              AttachEvents(s, p) + restore.step.events +
              if restore.restored then [] else if retaining then [CreateViewState, LoadData(false)] else [LoadData(false)]
  {
    var restore := RestoreStep(retaining, retainInstance, s.(presenter := AttachedPresenter(s, p)), saved);
    var afterRestore := AttachEvents(s, p) + restore.step.events;
    if !restore.restored && retaining {
      AppendAssociates(afterRestore, [CreateViewState], [LoadData(false)]);
    }
  }

  /** onCreateView issues exactly the replayed callbacks when a view state is restored, and
      otherwise exactly one loadData(false) (unless createViewState returned null). */
  lemma CreateViewCallbacks<M, E>(retaining: bool, retainInstance: bool, s: Screen<M, E>, saved: Option<Bundle<M, E>>,
                                  p: Option<PresenterId>, created: Option<ViewState<M, E>>)
    requires CreateViewStep(retaining, retainInstance, s, saved, p, created).thrown.None?
    ensures var events := CreateViewStep(retaining, retainInstance, s, saved, p, created).step.events;
            Callbacks(events) ==
              if Restores(retaining, retainInstance, s, saved) then DocumentedReplay(HeldViewState(retainInstance, s, saved).value)
              else [LoadData(false)]
  {
    var s0 := s.(presenter := AttachedPresenter(s, p));
    var restore := RestoreStep(retaining, retainInstance, s0, saved);
    var prefix := AttachEvents(s, p);
    var tail: seq<Event<M, E>> := if restore.restored then [] else if retaining then [CreateViewState, LoadData(false)] else [LoadData(false)];
    CreateViewEvents(retaining, retainInstance, s, saved, p, created);
    CallbacksAppend(prefix, restore.step.events);
    CallbacksAppend(prefix + restore.step.events, tail);
    if restore.restored {
      var s1 := if retainInstance then s0 else s0.(viewState := RestoreInstanceState(saved));
      assert restore == Replay(AnimatesErrorView, s1);
      ReplayIssuesDocumentedCallbacks(AnimatesErrorView, s1);
    } else {
      assert Callbacks(tail) == [LoadData(false)];
    }
  }

  /** An onCreateView that throws never reaches loadData. */
  lemma CreateViewThrowsBeforeLoading<M, E>(retaining: bool, retainInstance: bool, s: Screen<M, E>, saved: Option<Bundle<M, E>>,
                                            p: Option<PresenterId>, created: Option<ViewState<M, E>>)
    requires CreateViewStep(retaining, retainInstance, s, saved, p, created).thrown.Some?
    ensures LoadDataCalls(CreateViewStep(retaining, retainInstance, s, saved, p, created).step.events) == 0
  {
    var events := CreateViewStep(retaining, retainInstance, s, saved, p, created).step.events;
    NoLoadDataCalls(events);
  }

  /** onCreateView calls loadData exactly once when nothing was restored; when a view state
      was restored it is called only by the replay of a loading screen. */
  lemma CreateViewLoadsDataOnce<M, E>(retaining: bool, retainInstance: bool, s: Screen<M, E>, saved: Option<Bundle<M, E>>,
                                      p: Option<PresenterId>, created: Option<ViewState<M, E>>)
    requires CreateViewStep(retaining, retainInstance, s, saved, p, created).thrown.None?
    ensures LoadDataCalls(CreateViewStep(retaining, retainInstance, s, saved, p, created).step.events) ==
              if !Restores(retaining, retainInstance, s, saved) then 1
              else if HeldViewState(retainInstance, s, saved).value.WasShowingLoading() then 1
              else 0
  {
    var events := CreateViewStep(retaining, retainInstance, s, saved, p, created).step.events;
    CreateViewCallbacks(retaining, retainInstance, s, saved, p, created);
    LoadDataCallsOfCallbacks(events);
    if Restores(retaining, retainInstance, s, saved) {
      var s1 := s.(presenter := AttachedPresenter(s, p)).(viewState := HeldViewState(retainInstance, s, saved));
      ReplayIssuesDocumentedCallbacks(AnimatesErrorView, s1);
      ReplayLoadsOnlyWhenLoading(AnimatesErrorView, s1);
      LoadDataCallsOfCallbacks(Replay(AnimatesErrorView, s1).step.events);
    }
  }

  /** A retained fragment never reads the bundle: restoreViewState replays what it holds. */
  lemma RetainedInstanceIgnoresBundle<M, E>(retaining: bool, s: Screen<M, E>, saved: Option<Bundle<M, E>>, other: Option<Bundle<M, E>>)
    ensures RestoreStep(retaining, true, s, saved) == RestoreStep(retaining, true, s, other)
  {
  }

  /** A rotation of a retained fragment: nothing is written to the bundle, the same fragment
      instance keeps its view state and presenter through onDestroyView and onCreateView, the
      held presenter is reused without calling createPresenter, and the held mode is replayed
      with the documented callbacks. */
  lemma RetainedRotationReplaysHeldState<M, E>(s: Screen<M, E>, out: Bundle<M, E>, saved: Option<Bundle<M, E>>,
                                               p: Option<PresenterId>, created: Option<ViewState<M, E>>)
    requires s.viewState.Some? && s.viewState.value.Replayable()
    ensures SavedBundle(true, true, s.viewState, out) == out
    ensures var o := CreateViewStep(true, true, s, saved, p, created);
            s.presenter.Some? ==> o.step.screen.presenter == s.presenter && o.step.events[0] == SetView(s.presenter.value)
    ensures var o := CreateViewStep(true, true, s, saved, p, created);
            AttachedPresenter(s, p).Some? ==>
              o.thrown.None? && o.step.screen.viewState == s.viewState &&
              Callbacks(o.step.events) == DocumentedReplay(s.viewState.value)
  {
    if AttachedPresenter(s, p).Some? {
      assert Restores(true, true, s, saved);
      CreateViewCallbacks(true, true, s, saved, p, created);
    }
  }

  /** A rotation of a fragment that is not retained: the view state saved on teardown comes
      back in the new fragment and, once a presenter is attached, its mode is replayed with
      the documented callbacks. */
  lemma RotationRestoresViewState<M, E>(shown: Screen<M, E>, out: Bundle<M, E>, recreated: Screen<M, E>,
                                        p: Option<PresenterId>, created: Option<ViewState<M, E>>)
    requires shown.viewState.Some? && shown.viewState.value.Replayable()
    ensures var o := CreateViewStep(true, false, recreated, Some(SavedBundle(true, false, shown.viewState, out)), p, created);
            AttachedPresenter(recreated, p).Some? ==>
              o.thrown.None? && o.step.screen.viewState == shown.viewState &&
              Callbacks(o.step.events) == DocumentedReplay(shown.viewState.value)
  {
    var saved := Some(SavedBundle(true, false, shown.viewState, out));
    if AttachedPresenter(recreated, p).Some? {
      assert Restores(true, false, recreated, saved);
      CreateViewCallbacks(true, false, recreated, saved, p, created);
    }
  }

  /** The two variants restore alike from a bundle: a fragment that is not retained takes the
      same view state, returns the same answer and replays the same callbacks as the
      activity. */
  lemma RestoresLikeActivity<M, E>(retaining: bool, s: Screen<M, E>, saved: Option<Bundle<M, E>>)
    ensures var f := RestoreStep(retaining, false, s, saved);
            var a := Activity.RestoreStep(retaining, s, saved);
            f.restored == a.restored && f.step.screen == a.step.screen &&
            Callbacks(f.step.events) == Callbacks(a.step.events)
  {
    if retaining && RestoreInstanceState(saved).Some? {
      var s1 := s.(viewState := RestoreInstanceState(saved));
      ReplayIssuesDocumentedCallbacks(AnimatesErrorView, s1);
      ReplayIssuesDocumentedCallbacks(Activity.AnimatesErrorView, s1);
      ReplayScreenIgnoresAnimation(s1);
    }
  }
}
