/** What the two screen base classes (Activity and Fragment variants) have in common: the
    events a screen issues, the set*ViewState helpers, the show* methods and the replay of a
    restored view state, each written as a pure step over a screen's state. The classes in
    modules Activity and Fragment are proved to take exactly these steps. */
module Screens {
  import opened ViewStates

  /** Identity of a presenter returned by the createPresenter hook. */
  type PresenterId = nat

  datatype JavaException = NullPointerException | IllegalStateException

  /** Everything a screen does that is visible outside its own fields, in issue order.
      The first five are the callbacks restoreViewState replays; the others stand for the
      UI helpers, the subclass hooks and the presenter calls, which are not modelled. */
  datatype Event<M, E> =
    | SetData(data: Option<M>)
    | ShowContent
    | ShowError(exception: Option<E>, pullToRefresh: bool)
    | ShowLoading(pullToRefresh: bool)
    | LoadData(pullToRefresh: bool)
    | AnimateLoadingViewIn
    | AnimateContentViewIn
    | AnimateErrorViewIn
      // the error view's text is set to the subclass's message for the exception
    | SetErrorText(exception: Option<E>, pullToRefresh: bool)
      // the subclass's message for the exception is shown as a light error (a toast)
    | ShowLightError(exception: Option<E>, pullToRefresh: bool)
    | CreatePresenter(returned: Option<PresenterId>)
    | SetView(presenter: PresenterId)
    | Init
    | CreateViewState
    | DestroyPresenter(presenter: PresenterId, retainInstance: bool)
  {
    predicate IsCallback() { SetData? || ShowContent? || ShowError? || ShowLoading? || LoadData? }
  }

  /** The callbacks among the events, in order. */
  function Callbacks<M, E>(t: seq<Event<M, E>>): (r: seq<Event<M, E>>)
    ensures |r| <= |t|
  {
    if t == [] then [] else (if t[0].IsCallback() then [t[0]] else []) + Callbacks(t[1..])
  }

  lemma AppendAssociates<T>(a: seq<T>, b: seq<T>, c: seq<T>)
    ensures (a + b) + c == a + (b + c)
  {
  }

  lemma {:induction false} CallbacksAppend<M, E>(a: seq<Event<M, E>>, b: seq<Event<M, E>>)
    ensures Callbacks(a + b) == Callbacks(a) + Callbacks(b)
  {
    if a == [] {
      assert a + b == b;
    } else {
      var head := if a[0].IsCallback() then [a[0]] else [];
      assert (a + b)[0] == a[0];
      assert (a + b)[1..] == a[1..] + b;
      assert Callbacks(a + b) == head + Callbacks(a[1..] + b);
      CallbacksAppend(a[1..], b);
      AppendAssociates(head, Callbacks(a[1..]), Callbacks(b));
    }
  }

  /** Events that are all UI effects, hooks or presenter calls contain no callback. */
  lemma {:induction false} CallbacksOfNonCallbacks<M, E>(t: seq<Event<M, E>>)
    requires forall i :: 0 <= i < |t| ==> !t[i].IsCallback()
    ensures Callbacks(t) == []
  {
    if t != [] {
      CallbacksOfNonCallbacks(t[1..]);
    }
  }

  /** How many times loadData is called. */
  function LoadDataCalls<M, E>(t: seq<Event<M, E>>): (n: nat)
    ensures n <= |t|
  {
    if t == [] then 0 else (if t[0].LoadData? then 1 else 0) + LoadDataCalls(t[1..])
  }

  lemma {:induction false} LoadDataCallsAppend<M, E>(a: seq<Event<M, E>>, b: seq<Event<M, E>>)
    ensures LoadDataCalls(a + b) == LoadDataCalls(a) + LoadDataCalls(b)
  {
    if a == [] {
      assert a + b == b;
    } else {
      assert (a + b)[0] == a[0];
      assert (a + b)[1..] == a[1..] + b;
      LoadDataCallsAppend(a[1..], b);
    }
  }

  /** Events that contain no loadData call count none. */
  lemma {:induction false} NoLoadDataCalls<M, E>(t: seq<Event<M, E>>)
    requires forall i :: 0 <= i < |t| ==> !t[i].LoadData?
    ensures LoadDataCalls(t) == 0
  {
    if t != [] {
      NoLoadDataCalls(t[1..]);
    }
  }

  /** loadData is a callback, so counting it among the callbacks gives the same number. */
  lemma {:induction false} LoadDataCallsOfCallbacks<M, E>(t: seq<Event<M, E>>)
    ensures LoadDataCalls(Callbacks(t)) == LoadDataCalls(t)
  {
    if t != [] {
      var head := if t[0].IsCallback() then [t[0]] else [];
      LoadDataCallsAppend(head, Callbacks(t[1..]));
      LoadDataCallsOfCallbacks(t[1..]);
    }
  }

  /** The fields of a screen that the model tracks: the held view state, the data the
      subclass shows (setData stores it and getData returns it) and the presenter. */
  datatype Screen<M, E> = Screen(viewState: Option<ViewState<M, E>>, data: Option<M>, presenter: Option<PresenterId>)

  /** A screen after a call, with the events the call issued. */
  datatype Step<M, E> = Step(screen: Screen<M, E>, events: seq<Event<M, E>>)
  {
    /** This step followed by one that starts from this step's screen. */
    function Then(next: Step<M, E>): (r: Step<M, E>)
      ensures r.screen == next.screen && |r.events| == |events| + |next.events|
    {
      Step(next.screen, events + next.events)
    }
  }

  /** A step taken after a trace t and followed by another. */
  lemma ThenAfter<M, E>(t: seq<Event<M, E>>, a: Step<M, E>, b: Step<M, E>)
    ensures (t + a.events) + b.events == t + a.Then(b).events
  {
    AppendAssociates(t, a.events, b.events);
  }

  /** A lifecycle call that may end by throwing. */
  datatype Outcome<M, E> = Outcome(step: Step<M, E>, thrown: Option<JavaException>)

  /** A call of restoreViewState: the step it took and its return value. */
  datatype Restoration<M, E> = Restoration(step: Step<M, E>, restored: bool)

  /** The set*ViewState helpers dereference the held view state when retaining is on. */
  predicate ViewStateMissing<M, E>(retaining: bool, s: Screen<M, E>)
  {
    retaining && s.viewState.None?
  }

  function NullViewState<M, E>(retaining: bool, s: Screen<M, E>): (r: Option<JavaException>)
    ensures r.Some? <==> ViewStateMissing(retaining, s)
    ensures r.Some? ==> r.value == NullPointerException
  {
    if ViewStateMissing(retaining, s) then Some(NullPointerException) else None
  }

  /** setLoadingViewState: a no-op unless retaining, then the held view state records Loading. */
  function RecordLoading<M, E>(retaining: bool, s: Screen<M, E>, ptr: bool): (r: Screen<M, E>)
    requires !ViewStateMissing(retaining, s)
    ensures !retaining ==> r == s
    ensures retaining ==> r.viewState.Some? && r.viewState.value.WasShowingLoading() && r.viewState.value.pullToRefresh == ptr
    ensures r.data == s.data && r.presenter == s.presenter
  {
    if retaining then s.(viewState := Some(s.viewState.value.SetStateShowLoading(ptr))) else s
  }

  /** setContentViewState: the held view state records Content with getData(). */
  function RecordContent<M, E>(retaining: bool, s: Screen<M, E>): (r: Screen<M, E>)
    requires !ViewStateMissing(retaining, s)
    ensures !retaining ==> r == s
    ensures retaining ==> r.viewState.Some? && r.viewState.value.WasShowingContent() && r.viewState.value.loadedData == s.data
    ensures r.data == s.data && r.presenter == s.presenter
  {
    if retaining then s.(viewState := Some(s.viewState.value.SetStateShowContent(s.data))) else s
  }

  /** setErrorViewState: the held view state records Error with the exception. */
  function RecordError<M, E>(retaining: bool, s: Screen<M, E>, e: Option<E>, ptr: bool): (r: Screen<M, E>)
    requires !ViewStateMissing(retaining, s)
    ensures !retaining ==> r == s
    ensures retaining ==> r.viewState.Some? && r.viewState.value.WasShowingError()
    ensures retaining ==> r.viewState.value.exception == e && r.viewState.value.pullToRefresh == ptr
    ensures r.data == s.data && r.presenter == s.presenter
  {
    if retaining then s.(viewState := Some(s.viewState.value.SetStateShowError(e, ptr))) else s
  }

  /** The subclass's setData: the screen now shows d. */
  function SetDataStep<M, E>(s: Screen<M, E>, d: Option<M>): (r: Step<M, E>)
    ensures r.screen == s.(data := d) && r.events == [SetData(d)]
  {
    Step(s.(data := d), [SetData(d)])
  }

  /** The subclass's loadData: only the call is recorded. */
  function LoadDataStep<M, E>(s: Screen<M, E>, ptr: bool): (r: Step<M, E>)
    ensures r.screen == s && r.events == [LoadData(ptr)]
  {
    Step(s, [LoadData(ptr)])
  }

  /** showLoading: records Loading, and animates the loading view in unless the refresh came
      from a pull-to-refresh gesture (whose indicator is already visible). */
  function ShowLoadingStep<M, E>(retaining: bool, s: Screen<M, E>, ptr: bool): (r: Step<M, E>)
    requires !ViewStateMissing(retaining, s)
    ensures r.screen == RecordLoading(retaining, s, ptr)
    ensures |r.events| > 0 && r.events[0] == ShowLoading(ptr)
  {
    Step(RecordLoading(retaining, s, ptr), [ShowLoading(ptr)] + if ptr then [] else [AnimateLoadingViewIn])
  }

  /** showContent: records Content and animates the content view in. */
  function ShowContentStep<M, E>(retaining: bool, s: Screen<M, E>): (r: Step<M, E>)
    requires !ViewStateMissing(retaining, s)
    ensures r.screen == RecordContent(retaining, s)
    ensures r.events == [ShowContent, AnimateContentViewIn]
  {
    Step(RecordContent(retaining, s), [ShowContent, AnimateContentViewIn])
  }

  /** showError: records Error; a pull-to-refresh error is shown as a light error, any other
      sets the error view's text and, where the variant does so, animates the error view in. */
  function ShowErrorStep<M, E>(animatesErrorView: bool, retaining: bool, s: Screen<M, E>, e: Option<E>, ptr: bool): (r: Step<M, E>)
    requires !ViewStateMissing(retaining, s)
    ensures r.screen == RecordError(retaining, s, e, ptr)
    ensures |r.events| > 0 && r.events[0] == ShowError(e, ptr)
  {
    Step(RecordError(retaining, s, e, ptr),
         [ShowError(e, ptr)] +
         if ptr then [ShowLightError(e, ptr)]
         else [SetErrorText(e, ptr)] + if animatesErrorView then [AnimateErrorViewIn] else [])
  }

  /** showLoading animates the loading view in exactly when the request is not a
      pull-to-refresh. */
  lemma ShowLoadingAnimation<M, E>(retaining: bool, s: Screen<M, E>, ptr: bool)
    requires !ViewStateMissing(retaining, s)
    ensures AnimateLoadingViewIn in ShowLoadingStep(retaining, s, ptr).events <==> !ptr
  {
  }

  /** showError shows a pull-to-refresh error as a light error and any other in the error
      view, which it animates in only in the variant that does so. */
  lemma ShowErrorDisplay<M, E>(animatesErrorView: bool, retaining: bool, s: Screen<M, E>, e: Option<E>, ptr: bool)
    requires !ViewStateMissing(retaining, s)
    ensures var events := ShowErrorStep(animatesErrorView, retaining, s, e, ptr).events;
            (ShowLightError(e, ptr) in events <==> ptr) &&
            (SetErrorText(e, ptr) in events <==> !ptr) &&
            (AnimateErrorViewIn in events <==> animatesErrorView && !ptr)
  {
  }

  /** Putting the previous data back: setData and showContent when the held view state has
      loaded data. Only called with retaining on. */
  function RestorePreviousData<M, E>(s: Screen<M, E>): (r: Step<M, E>)
    requires s.viewState.Some?
    ensures r.screen.viewState.Some? && r.screen.presenter == s.presenter
  {
    var vs := s.viewState.value;
    if vs.loadedData.Some? then
      var a := SetDataStep(s, vs.loadedData);
      a.Then(ShowContentStep(true, a.screen))
    else
      Step(s, [])
  }

  /** The three replay branches of restoreViewState, after the view state to replay has been
      put in place and found non-null; retaining is on. As in restoreViewState of both
      MvpViewStateActivity and MvpViewStateFragment, the pull-to-refresh flag is read from the
      held view state at the moment of each call. */
  function Replay<M, E>(animatesErrorView: bool, s: Screen<M, E>): (r: Restoration<M, E>)
    requires s.viewState.Some?
    ensures r.restored <==> s.viewState.value.Replayable()
    ensures !r.restored ==> r.step == Step(s, [])
    ensures r.step.screen.viewState.Some? && r.step.screen.presenter == s.presenter
  {
    var vs := s.viewState.value;
    if vs.WasShowingContent() then
      var a := SetDataStep(s, vs.loadedData);
      Restoration(a.Then(ShowContentStep(true, a.screen)), true)
    else if vs.WasShowingError() then
      var exception := vs.exception;
      var a := RestorePreviousData(s);
      Restoration(a.Then(ShowErrorStep(animatesErrorView, true, a.screen, exception, a.screen.viewState.value.pullToRefresh)), true)
    else if vs.WasShowingLoading() then
      var a := RestorePreviousData(s);
      var b := ShowLoadingStep(true, a.screen, a.screen.viewState.value.pullToRefresh);
      var c := LoadDataStep(b.screen, b.screen.viewState.value.pullToRefresh);
      Restoration(a.Then(b).Then(c), true)
    else
      Restoration(Step(s, []), false)
  }

  /** The callbacks restoreViewState is documented to replay for a view state: Content gives
      setData, showContent; Error gives the previous data if any, then showError; Loading
      gives the previous data if any, then showLoading and loadData; anything else nothing. */
  function DocumentedReplay<M, E>(vs: ViewState<M, E>): seq<Event<M, E>>
  {
    var previousData := if vs.loadedData.Some? then [SetData(vs.loadedData), ShowContent] else [];
    match vs.mode
    case Content => [SetData(vs.loadedData), ShowContent]
    case Error => previousData + [ShowError(vs.exception, vs.pullToRefresh)]
    case Loading => previousData + [ShowLoading(vs.pullToRefresh), LoadData(vs.pullToRefresh)]
    case Initial => []
  }

  lemma PreviousDataCallbacks<M, E>(s: Screen<M, E>)
    requires s.viewState.Some?
    ensures var vs := s.viewState.value;
            Callbacks(RestorePreviousData(s).events) == if vs.loadedData.Some? then [SetData(vs.loadedData), ShowContent] else []
    ensures RestorePreviousData(s).screen.viewState.value == s.viewState.value.SetStateShowContent(s.viewState.value.loadedData)
         || s.viewState.value.loadedData.None?
    ensures s.viewState.value.loadedData.None? ==> RestorePreviousData(s) == Step(s, [])
  {
    var vs := s.viewState.value;
    if vs.loadedData.Some? {
      var a := SetDataStep(s, vs.loadedData);
      CallbacksAppend(a.events, ShowContentStep(true, a.screen).events);
    }
  }

  lemma CallbacksOfShowError<M, E>(animatesErrorView: bool, s: Screen<M, E>, e: Option<E>, ptr: bool)
    requires s.viewState.Some?
    ensures Callbacks(ShowErrorStep(animatesErrorView, true, s, e, ptr).events) == [ShowError(e, ptr)]
  {
    var tail: seq<Event<M, E>> := if ptr then [ShowLightError(e, ptr)]
      else [SetErrorText(e, ptr)] + if animatesErrorView then [AnimateErrorViewIn] else [];
    assert Callbacks(tail) == [] by {
      if !ptr && animatesErrorView {
        assert tail[1..] == [AnimateErrorViewIn];
      }
    }
    CallbacksAppend([ShowError(e, ptr)], tail);
  }

  lemma CallbacksOfShowLoading<M, E>(s: Screen<M, E>, ptr: bool)
    requires s.viewState.Some?
    ensures Callbacks(ShowLoadingStep(true, s, ptr).events) == [ShowLoading(ptr)]
  {
    var tail: seq<Event<M, E>> := if ptr then [] else [AnimateLoadingViewIn];
    CallbacksAppend([ShowLoading(ptr)], tail);
  }

  lemma ErrorReplayCallbacks<M, E>(animatesErrorView: bool, s: Screen<M, E>)
    requires s.viewState.Some? && s.viewState.value.WasShowingError()
    ensures Callbacks(Replay(animatesErrorView, s).step.events) == DocumentedReplay(s.viewState.value)
  {
    var vs := s.viewState.value;
    var a := RestorePreviousData(s);
    PreviousDataCallbacks(s);
    assert a.screen.viewState.value.pullToRefresh == vs.pullToRefresh;
    var b := ShowErrorStep(animatesErrorView, true, a.screen, vs.exception, vs.pullToRefresh);
    CallbacksOfShowError(animatesErrorView, a.screen, vs.exception, vs.pullToRefresh);
    CallbacksAppend(a.events, b.events);
  }

  lemma LoadingReplayCallbacks<M, E>(animatesErrorView: bool, s: Screen<M, E>)
    requires s.viewState.Some? && s.viewState.value.WasShowingLoading()
    ensures Callbacks(Replay(animatesErrorView, s).step.events) == DocumentedReplay(s.viewState.value)
  {
    var vs := s.viewState.value;
    var ptr := vs.pullToRefresh;
    var a := RestorePreviousData(s);
    PreviousDataCallbacks(s);
    var b := ShowLoadingStep(true, a.screen, ptr);
    var c := LoadDataStep(b.screen, ptr);
    assert Replay(animatesErrorView, s).step.events == (a.events + b.events) + c.events by {
      assert a.screen.viewState.value.pullToRefresh == ptr;
    }
    assert Callbacks(a.events + b.events) == Callbacks(a.events) + [ShowLoading(ptr)] by {
      CallbacksOfShowLoading(a.screen, ptr);
      CallbacksAppend(a.events, b.events);
    }
    assert Callbacks(c.events) == [LoadData(ptr)] by {
      assert c.events[1..] == [];
    }
    assert Callbacks((a.events + b.events) + c.events) == Callbacks(a.events) + [ShowLoading(ptr), LoadData(ptr)] by {
      CallbacksAppend(a.events + b.events, c.events);
      AppendAssociates(Callbacks(a.events), [ShowLoading(ptr)], [LoadData(ptr)]);
      assert [Event<M, E>.ShowLoading(ptr)] + [Event<M, E>.LoadData(ptr)] == [ShowLoading(ptr), LoadData(ptr)];
    }
  }

  /** Each replay branch issues exactly its documented callbacks, in order. */
  lemma ReplayIssuesDocumentedCallbacks<M, E>(animatesErrorView: bool, s: Screen<M, E>)
    requires s.viewState.Some?
    ensures Callbacks(Replay(animatesErrorView, s).step.events) == DocumentedReplay(s.viewState.value)
  {
    var vs := s.viewState.value;
    if vs.WasShowingContent() {
      var a := SetDataStep(s, vs.loadedData);
      CallbacksAppend(a.events, ShowContentStep(true, a.screen).events);
    } else if vs.WasShowingError() {
      ErrorReplayCallbacks(animatesErrorView, s);
    } else if vs.WasShowingLoading() {
      LoadingReplayCallbacks(animatesErrorView, s);
    }
  }

  /** Replaying a view state leaves it as it was: each callback records the mode and values it
      was replayed from. After a replay that shows data, the screen shows the loaded data. */
  lemma ReplayKeepsViewState<M, E>(animatesErrorView: bool, s: Screen<M, E>)
    requires s.viewState.Some?
    ensures Replay(animatesErrorView, s).step.screen.viewState == s.viewState
    ensures var vs := s.viewState.value;
            vs.WasShowingContent() || (vs.Replayable() && vs.loadedData.Some?) ==>
              Replay(animatesErrorView, s).step.screen.data == vs.loadedData
  {
    PreviousDataCallbacks(s);
  }

  /** Whether showError animates the error view in changes only the events of a replay. */
  lemma ReplayScreenIgnoresAnimation<M, E>(s: Screen<M, E>)
    requires s.viewState.Some?
    ensures Replay(true, s).step.screen == Replay(false, s).step.screen
    ensures Replay(true, s).restored == Replay(false, s).restored
  {
  }

  /** A replay calls loadData once when the screen was loading, and never otherwise. */
  lemma ReplayLoadsOnlyWhenLoading<M, E>(animatesErrorView: bool, s: Screen<M, E>)
    requires s.viewState.Some?
    ensures LoadDataCalls(Replay(animatesErrorView, s).step.events) == if s.viewState.value.WasShowingLoading() then 1 else 0
  {
    var events := Replay(animatesErrorView, s).step.events;
    ReplayIssuesDocumentedCallbacks(animatesErrorView, s);
    LoadDataCallsOfCallbacks(events);
    var vs := s.viewState.value;
    var previousData: seq<Event<M, E>> := if vs.loadedData.Some? then [SetData(vs.loadedData), ShowContent] else [];
    assert LoadDataCalls(previousData) == 0;
    if vs.WasShowingError() {
      LoadDataCallsAppend(previousData, [ShowError(vs.exception, vs.pullToRefresh)]);
    } else if vs.WasShowingLoading() {
      LoadDataCallsAppend(previousData, [ShowLoading(vs.pullToRefresh), LoadData(vs.pullToRefresh)]);
    }
  }
}
