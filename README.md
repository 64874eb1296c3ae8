# View-state restoration in the MVP screen base classes

This project models the view-state machinery of appkit's MVP screens. The Android library has
two base classes, `MvpViewStateActivity` and `MvpViewStateFragment`. Each holds a
*view state*: it records whether the screen was last showing loading, content or an error,
together with the loaded data, the exception and the pull-to-refresh flag.

- The `show*` methods record the mode through the `set*ViewState` helpers.
- `onSaveInstanceState` writes the view state into the instance-state bundle, but only when
  the view-state feature is on (`isRetainingViewState()`) and a view state is held. The
  Fragment also skips it when its instance is retained (`getRetainInstance()`).
- On recreation, `restoreViewState` replays the callbacks that bring the screen back to the
  recorded mode: `setData`, `showContent`, `showError`, `showLoading` and `loadData`.
- When nothing could be restored, `onCreate` (Activity) or `onCreateView` (Fragment) calls
  `loadData(false)`. When the feature is on, it first asks `createViewState` for a fresh
  view state; a null result throws IllegalStateException before `loadData` is reached.
- A null presenter from `createPresenter` makes the following `setView` call throw
  NullPointerException. The Fragment calls `createPresenter` only when it holds no presenter.

Layout:

- `viewstates.dfy` (module `ViewStates`): the view state as a value and the bundle it is
  saved into.
- `screens.dfy` (module `Screens`): the events a screen issues and the pure steps of the
  helpers, the `show*` methods and the replay. It also proves which callbacks each replay
  branch issues.
- `activity.dfy` (module `Activity`): class `MvpViewStateActivity`, the specification
  functions of `restoreViewState`, `onCreate` and `onSaveInstanceState`, and the lemmas
  about them.
- `fragment.dfy` (module `Fragment`): class `MvpViewStateFragment`, with retain-instance
  handling and presenter reuse.

Each class has the Java class's fields `viewState`, `presenter` and the data last passed to
`setData`. It also has a ghost `trace` of the events issued. Every method except the
constructors and `OnDestroy`/`OnDestroyView` is proved to move the fields and the trace
exactly as a pure step function of the old state says. The constructors state the initial
fields directly, and the two destroy methods state their one new event directly. The lemmas
about those step functions state what MvpViewStateActivity and MvpViewStateFragment promise.

The `ViewState` class is not part of this model. Its behaviour is assumed as follows:

- `wasShowingX` tests the recorded mode.
- `setStateShowX` sets the mode and stores only its own arguments.
- A view state can be in none of the three modes (a fourth mode, `Initial`), so that a
  view state restored from the bundle or held in memory can fail all three `wasShowingX`
  tests, in which case `restoreViewState` returns false. What `createViewState` returns
  may be any view state.
- Restoring from a bundle gives back exactly what was saved into it.

The variants differ in five places, each captured in the model:

- The Fragment reads the bundle only when its instance is not retained; otherwise it keeps
  the view state it holds in memory.
- The Fragment writes the view state into the bundle only when its instance is not retained.
- The Fragment reuses a presenter it already holds; the Activity always calls
  `createPresenter`.
- The Activity's `showError` never animates the error view in. The Fragment's does so
  whenever the call is not a pull-to-refresh.
- The Activity passes `false` to the presenter's `onDestroy`; the Fragment passes
  `getRetainInstance()`.

## Model

| member | source | states |
|---|---|---|
| ViewStates.ViewState.WasShowingLoading | mvp/src/main/java/com/hannesdorfmann/appkit/mvp/viewstate/MvpViewStateActivity.java:163 | true exactly when the recorded mode is Loading (assumed behaviour of wasShowingLoading) |
| ViewStates.ViewState.WasShowingContent | mvp/src/main/java/com/hannesdorfmann/appkit/mvp/viewstate/MvpViewStateActivity.java:143 | true exactly when the recorded mode is Content (assumed behaviour of wasShowingContent) |
| ViewStates.ViewState.WasShowingError | mvp/src/main/java/com/hannesdorfmann/appkit/mvp/viewstate/MvpViewStateActivity.java:151 | true exactly when the recorded mode is Error (assumed behaviour of wasShowingError) |
| ViewStates.ViewState.SetStateShowLoading | mvp/src/main/java/com/hannesdorfmann/appkit/mvp/viewstate/MvpViewStateActivity.java:297-303 | the view state now reports Loading with the given pull-to-refresh flag; data and exception are kept |
| ViewStates.ViewState.SetStateShowContent | mvp/src/main/java/com/hannesdorfmann/appkit/mvp/viewstate/MvpViewStateActivity.java:308-314 | the view state now reports Content with the given data; exception and flag are kept |
| ViewStates.ViewState.SetStateShowError | mvp/src/main/java/com/hannesdorfmann/appkit/mvp/viewstate/MvpViewStateActivity.java:319-325 | the view state now reports Error with the given exception and flag; the data is kept |
| ViewStates.RestoreInstanceState | mvp/src/main/java/com/hannesdorfmann/appkit/mvp/viewstate/MvpViewStateActivity.java:139 | a null bundle restores no view state |
| ViewStates.SaveInstanceState | mvp/src/main/java/com/hannesdorfmann/appkit/mvp/viewstate/MvpViewStateActivity.java:123-125 | restoring the written bundle gives back the saved view state (save/restore round trip) |
| Screens.NullViewState | mvp/src/main/java/com/hannesdorfmann/appkit/mvp/viewstate/MvpViewStateActivity.java:297-325 | a set*ViewState helper throws NullPointerException exactly when retaining is on and no view state is held |
| Screens.RecordLoading | mvp/src/main/java/com/hannesdorfmann/appkit/mvp/viewstate/MvpViewStateActivity.java:297-303 | no change when not retaining; otherwise the held view state reports Loading with the flag; data and presenter unchanged |
| Screens.RecordContent | mvp/src/main/java/com/hannesdorfmann/appkit/mvp/viewstate/MvpViewStateActivity.java:308-314 | no change when not retaining; otherwise the held view state reports Content with the data getData returns |
| Screens.RecordError | mvp/src/main/java/com/hannesdorfmann/appkit/mvp/viewstate/MvpViewStateActivity.java:319-325 | no change when not retaining; otherwise the held view state reports Error with the exception and flag |
| Screens.SetDataStep | mvp/src/main/java/com/hannesdorfmann/appkit/mvp/viewstate/MvpViewStateActivity.java:144-145 | the subclass's setData: the screen now shows the given data and the call is recorded |
| Screens.LoadDataStep | mvp/src/main/java/com/hannesdorfmann/appkit/mvp/viewstate/MvpViewStateActivity.java:113 | the subclass's loadData: only the call with its pull-to-refresh flag is recorded; the screen is unchanged |
| Screens.ShowLoadingStep | mvp/src/main/java/com/hannesdorfmann/appkit/mvp/viewstate/MvpViewStateActivity.java:327-337 | showLoading records Loading and its first event is the showLoading call |
| Screens.ShowContentStep | mvp/src/main/java/com/hannesdorfmann/appkit/mvp/viewstate/MvpViewStateActivity.java:346-351 | showContent records Content and then animates the content view in |
| Screens.ShowErrorStep | mvp/src/main/java/com/hannesdorfmann/appkit/mvp/viewstate/MvpViewStateActivity.java:376-385 | showError records Error and its first event is the showError call |
| Screens.ShowLoadingAnimation | mvp/src/main/java/com/hannesdorfmann/appkit/mvp/viewstate/MvpViewStateFragment.java:321-331 | the loading view is animated in if and only if the request is not a pull-to-refresh |
| Screens.ShowErrorDisplay | mvp/src/main/java/com/hannesdorfmann/appkit/mvp/viewstate/MvpViewStateFragment.java:368-381 | a light error is shown iff pull-to-refresh; the error text is set iff not; the error view is animated iff the variant animates and not pull-to-refresh |
| Screens.RestorePreviousData | mvp/src/main/java/com/hannesdorfmann/appkit/mvp/viewstate/MvpViewStateActivity.java:153-157 | putting the previous data back keeps a view state and the presenter |
| Screens.PreviousDataCallbacks | mvp/src/main/java/com/hannesdorfmann/appkit/mvp/viewstate/MvpViewStateActivity.java:165-169 | putting the previous data back issues setData and showContent exactly when there is loaded data, and nothing otherwise |
| Screens.Replay | mvp/src/main/java/com/hannesdorfmann/appkit/mvp/viewstate/MvpViewStateActivity.java:139-177 | a replay returns true exactly when the view state was showing loading, content or an error; otherwise it does nothing |
| Screens.CallbacksOfShowError | mvp/src/main/java/com/hannesdorfmann/appkit/mvp/viewstate/MvpViewStateActivity.java:376-385 | the only callback showError issues is itself |
| Screens.CallbacksOfShowLoading | mvp/src/main/java/com/hannesdorfmann/appkit/mvp/viewstate/MvpViewStateActivity.java:327-337 | the only callback showLoading issues is itself |
| Screens.ErrorReplayCallbacks | mvp/src/main/java/com/hannesdorfmann/appkit/mvp/viewstate/MvpViewStateActivity.java:150-160 | replaying an error issues the optional setData, showContent, then showError with the saved exception and flag |
| Screens.LoadingReplayCallbacks | mvp/src/main/java/com/hannesdorfmann/appkit/mvp/viewstate/MvpViewStateActivity.java:162-174 | replaying loading issues the optional setData, showContent, then showLoading and loadData with the saved flag, in that order |
| Screens.ReplayIssuesDocumentedCallbacks | mvp/src/main/java/com/hannesdorfmann/appkit/mvp/viewstate/MvpViewStateActivity.java:139-177 | every replay issues exactly the documented callback sequence of its mode (content: setData, showContent) |
| Screens.ReplayKeepsViewState | mvp/src/main/java/com/hannesdorfmann/appkit/mvp/viewstate/MvpViewStateActivity.java:139-177 | a replay leaves the held view state as it was, and a replay that shows data shows the loaded data |
| Screens.ReplayScreenIgnoresAnimation | mvp/src/main/java/com/hannesdorfmann/appkit/mvp/viewstate/MvpViewStateFragment.java:375-380 | whether showError animates changes neither a replay's resulting state nor its return value |
| Screens.ReplayLoadsOnlyWhenLoading | mvp/src/main/java/com/hannesdorfmann/appkit/mvp/viewstate/MvpViewStateActivity.java:139-177 | a replay calls loadData once when the view state was loading and never otherwise |
| Activity.RestoreStep | mvp/src/main/java/com/hannesdorfmann/appkit/mvp/viewstate/MvpViewStateActivity.java:133-178 | not retaining: false, no events, nothing changed; otherwise the bundle's view state is held, and the result is true exactly when it has a mode; no events when false |
| Activity.CreateStep | mvp/src/main/java/com/hannesdorfmann/appkit/mvp/viewstate/MvpViewStateActivity.java:97-116 | NullPointerException exactly when createPresenter gave null, and then only createPresenter was called; otherwise IllegalStateException exactly when nothing was restored, retaining is on and createViewState gave null, and then the events end at createViewState and no view state is held; the presenter held is createPresenter's result; the final view state is the restored or the created one |
| Activity.CreateEvents | mvp/src/main/java/com/hannesdorfmann/appkit/mvp/viewstate/MvpViewStateActivity.java:97-116 | a non-throwing onCreate issues createPresenter, setView, init, the restoration, then createViewState (when retaining) and loadData(false) if nothing was restored |
| Activity.SavedBundle | mvp/src/main/java/com/hannesdorfmann/appkit/mvp/viewstate/MvpViewStateActivity.java:119-126 | the view state is written exactly when retaining is on and one is held; otherwise the bundle is untouched |
| Activity.MvpViewStateActivity.SetData | mvp/src/main/java/com/hannesdorfmann/appkit/mvp/viewstate/MvpViewStateActivity.java:144-145 | the data shown is updated and the setData call is recorded |
| Activity.MvpViewStateActivity.LoadData | mvp/src/main/java/com/hannesdorfmann/appkit/mvp/viewstate/MvpViewStateActivity.java:209 | only the loadData call is recorded |
| Activity.MvpViewStateActivity.SetLoadingViewState | mvp/src/main/java/com/hannesdorfmann/appkit/mvp/viewstate/MvpViewStateActivity.java:297-303 | throws as NullViewState says, otherwise moves to RecordLoading; nothing changes when it throws |
| Activity.MvpViewStateActivity.SetContentViewState | mvp/src/main/java/com/hannesdorfmann/appkit/mvp/viewstate/MvpViewStateActivity.java:308-314 | throws as NullViewState says, otherwise moves to RecordContent |
| Activity.MvpViewStateActivity.SetErrorViewState | mvp/src/main/java/com/hannesdorfmann/appkit/mvp/viewstate/MvpViewStateActivity.java:319-325 | throws as NullViewState says, otherwise moves to RecordError |
| Activity.MvpViewStateActivity.ShowLoading | mvp/src/main/java/com/hannesdorfmann/appkit/mvp/viewstate/MvpViewStateActivity.java:327-337 | fields and trace follow ShowLoadingStep, or stop after the call when the helper throws |
| Activity.MvpViewStateActivity.ShowContent | mvp/src/main/java/com/hannesdorfmann/appkit/mvp/viewstate/MvpViewStateActivity.java:346-351 | fields and trace follow ShowContentStep, or stop after the call when the helper throws |
| Activity.MvpViewStateActivity.ShowError | mvp/src/main/java/com/hannesdorfmann/appkit/mvp/viewstate/MvpViewStateActivity.java:376-385 | fields and trace follow ShowErrorStep without the error animation, or stop after the call when the helper throws |
| Activity.MvpViewStateActivity.RestorePreviousData | mvp/src/main/java/com/hannesdorfmann/appkit/mvp/viewstate/MvpViewStateActivity.java:165-169 | fields and trace follow Screens.RestorePreviousData |
| Activity.MvpViewStateActivity.RestoreViewState | mvp/src/main/java/com/hannesdorfmann/appkit/mvp/viewstate/MvpViewStateActivity.java:133-178 | return value, fields and trace follow Activity.RestoreStep |
| Activity.MvpViewStateActivity.OnCreate | mvp/src/main/java/com/hannesdorfmann/appkit/mvp/viewstate/MvpViewStateActivity.java:97-116 | exception, fields and trace follow Activity.CreateStep |
| Activity.MvpViewStateActivity.OnSaveInstanceState | mvp/src/main/java/com/hannesdorfmann/appkit/mvp/viewstate/MvpViewStateActivity.java:119-126 | the bundle written holds the view state exactly when retaining is on and one is held; otherwise it is untouched |
| Activity.MvpViewStateActivity.OnDestroy | mvp/src/main/java/com/hannesdorfmann/appkit/mvp/viewstate/MvpViewStateActivity.java:286-292 | the presenter, if any, is destroyed with retainInstance false; nothing else happens |
| Activity.MvpViewStateActivity.OnErrorViewClicked | mvp/src/main/java/com/hannesdorfmann/appkit/mvp/viewstate/MvpViewStateActivity.java:272-274 | a click on the error view calls loadData(false) |
| Activity.CreateCallbacks | mvp/src/main/java/com/hannesdorfmann/appkit/mvp/viewstate/MvpViewStateActivity.java:102-116 | onCreate issues exactly the documented replay when a mode is restored, and otherwise exactly loadData(false) |
| Activity.CreateLoadsDataOnce | mvp/src/main/java/com/hannesdorfmann/appkit/mvp/viewstate/MvpViewStateActivity.java:102-116 | onCreate calls loadData once when nothing was restored, and otherwise only when the restored view state was loading |
| Activity.CreateThrowsBeforeLoading | mvp/src/main/java/com/hannesdorfmann/appkit/mvp/viewstate/MvpViewStateActivity.java:97-116 | an onCreate that throws (null presenter or null createViewState) calls loadData not at all |
| Activity.RotationRestoresViewState | mvp/src/main/java/com/hannesdorfmann/appkit/mvp/viewstate/MvpViewStateActivity.java:119-178 | after save and recreate with a non-null presenter, a view state with a mode comes back; onCreate is the presenter attach plus its replay with the documented callbacks; one without a mode is replaced by the created one |
| Fragment.HeldViewState | mvp/src/main/java/com/hannesdorfmann/appkit/mvp/viewstate/MvpViewStateFragment.java:134-137 | a retained instance keeps its in-memory view state; otherwise the bundle's is taken |
| Fragment.RestoreStep | mvp/src/main/java/com/hannesdorfmann/appkit/mvp/viewstate/MvpViewStateFragment.java:128-177 | not retaining: false, no events, nothing changed; otherwise the held view state is replayed and the result is true exactly when it has a mode |
| Fragment.AttachedPresenter | mvp/src/main/java/com/hannesdorfmann/appkit/mvp/viewstate/MvpViewStateFragment.java:82-86 | an existing presenter is reused; createPresenter's result (possibly null) is used only when there is none |
| Fragment.CreateViewStep | mvp/src/main/java/com/hannesdorfmann/appkit/mvp/viewstate/MvpViewStateFragment.java:82-103 | createPresenter only without a presenter, then always setView; NullPointerException exactly when there is still no presenter (and then no further event and the view state untouched); otherwise IllegalStateException exactly when nothing was restored, retaining is on and createViewState gave null, and then the events end at createViewState and no view state is held; the final view state |
| Fragment.SavedBundle | mvp/src/main/java/com/hannesdorfmann/appkit/mvp/viewstate/MvpViewStateFragment.java:108-121 | the view state is written exactly when retaining is on, one is held and the instance is not retained |
| Fragment.MvpViewStateFragment.SetData | mvp/src/main/java/com/hannesdorfmann/appkit/mvp/viewstate/MvpViewStateFragment.java:143-144 | the data shown is updated and the setData call is recorded |
| Fragment.MvpViewStateFragment.LoadData | mvp/src/main/java/com/hannesdorfmann/appkit/mvp/viewstate/MvpViewStateFragment.java:251 | only the loadData call is recorded |
| Fragment.MvpViewStateFragment.SetLoadingViewState | mvp/src/main/java/com/hannesdorfmann/appkit/mvp/viewstate/MvpViewStateFragment.java:291-297 | throws as NullViewState says, otherwise moves to RecordLoading |
| Fragment.MvpViewStateFragment.SetContentViewState | mvp/src/main/java/com/hannesdorfmann/appkit/mvp/viewstate/MvpViewStateFragment.java:302-308 | throws as NullViewState says, otherwise moves to RecordContent |
| Fragment.MvpViewStateFragment.SetErrorViewState | mvp/src/main/java/com/hannesdorfmann/appkit/mvp/viewstate/MvpViewStateFragment.java:313-319 | throws as NullViewState says, otherwise moves to RecordError |
| Fragment.MvpViewStateFragment.ShowLoading | mvp/src/main/java/com/hannesdorfmann/appkit/mvp/viewstate/MvpViewStateFragment.java:321-331 | fields and trace follow ShowLoadingStep, or stop after the call when the helper throws |
| Fragment.MvpViewStateFragment.ShowContent | mvp/src/main/java/com/hannesdorfmann/appkit/mvp/viewstate/MvpViewStateFragment.java:340-344 | fields and trace follow ShowContentStep, or stop after the call when the helper throws |
| Fragment.MvpViewStateFragment.ShowError | mvp/src/main/java/com/hannesdorfmann/appkit/mvp/viewstate/MvpViewStateFragment.java:368-381 | fields and trace follow ShowErrorStep with the error animation, or stop after the call when the helper throws |
| Fragment.MvpViewStateFragment.RestorePreviousData | mvp/src/main/java/com/hannesdorfmann/appkit/mvp/viewstate/MvpViewStateFragment.java:164-168 | fields and trace follow Screens.RestorePreviousData |
| Fragment.MvpViewStateFragment.RestoreViewState | mvp/src/main/java/com/hannesdorfmann/appkit/mvp/viewstate/MvpViewStateFragment.java:128-177 | return value, fields and trace follow Fragment.RestoreStep |
| Fragment.MvpViewStateFragment.OnCreateView | mvp/src/main/java/com/hannesdorfmann/appkit/mvp/viewstate/MvpViewStateFragment.java:72-106 | exception, fields and trace follow Fragment.CreateViewStep |
| Fragment.MvpViewStateFragment.OnSaveInstanceState | mvp/src/main/java/com/hannesdorfmann/appkit/mvp/viewstate/MvpViewStateFragment.java:108-121 | the bundle written holds the view state exactly when retaining is on, one is held and the instance is not retained |
| Fragment.MvpViewStateFragment.OnDestroyView | mvp/src/main/java/com/hannesdorfmann/appkit/mvp/viewstate/MvpViewStateFragment.java:275-282 | the presenter, if any, is destroyed and told whether the instance is retained |
| Fragment.MvpViewStateFragment.OnErrorViewClicked | mvp/src/main/java/com/hannesdorfmann/appkit/mvp/viewstate/MvpViewStateFragment.java:284-286 | a click on the error view calls loadData(false) |
| Fragment.AttachEvents | mvp/src/main/java/com/hannesdorfmann/appkit/mvp/viewstate/MvpViewStateFragment.java:82-88 | creating and attaching a non-null presenter issues no callback |
| Fragment.CreateViewEvents | mvp/src/main/java/com/hannesdorfmann/appkit/mvp/viewstate/MvpViewStateFragment.java:82-103 | onCreateView's events are the attach events, the restoration, then createViewState (when retaining) and loadData(false) if nothing was restored |
| Fragment.CreateViewCallbacks | mvp/src/main/java/com/hannesdorfmann/appkit/mvp/viewstate/MvpViewStateFragment.java:92-103 | onCreateView issues exactly the documented replay when a mode is restored, and otherwise exactly loadData(false) |
| Fragment.CreateViewLoadsDataOnce | mvp/src/main/java/com/hannesdorfmann/appkit/mvp/viewstate/MvpViewStateFragment.java:92-103 | onCreateView calls loadData once when nothing was restored, and otherwise only when the restored view state was loading |
| Fragment.CreateViewThrowsBeforeLoading | mvp/src/main/java/com/hannesdorfmann/appkit/mvp/viewstate/MvpViewStateFragment.java:82-103 | an onCreateView that throws (no presenter or null createViewState) calls loadData not at all |
| Fragment.RetainedInstanceIgnoresBundle | mvp/src/main/java/com/hannesdorfmann/appkit/mvp/viewstate/MvpViewStateFragment.java:134-137 | a retained fragment restores the same way whatever bundle it is given |
| Fragment.RetainedRotationReplaysHeldState | mvp/src/main/java/com/hannesdorfmann/appkit/mvp/viewstate/MvpViewStateFragment.java:108-177 | a retained fragment writes nothing to the bundle, reuses its presenter without createPresenter, keeps its view state through onCreateView and replays it with the documented callbacks |
| Fragment.RotationRestoresViewState | mvp/src/main/java/com/hannesdorfmann/appkit/mvp/viewstate/MvpViewStateFragment.java:108-177 | a fragment that is not retained, once a presenter is attached, gets its saved view state back from the bundle and replays it with the documented callbacks |
| Fragment.RestoresLikeActivity | mvp/src/main/java/com/hannesdorfmann/appkit/mvp/viewstate/MvpViewStateFragment.java:139-176 | a fragment that is not retained restores from a bundle to the same state, result and callbacks as the Activity |

## Left out

- Android view plumbing is not modelled: setContentView/getContentViewLayoutRes, layout inflation, onViewInflated, findViewById, the click listener and the IllegalStateExceptions for missing content, loading or error views. The model starts each lifecycle call at createPresenter.
- Icepick, ButterKnife, FragmentArgs and the intent extras (extractIntentExtra) are foreign libraries or platform calls. They are left out; the Fragment's onCreate does only FragmentArgs injection and is left out with them.
- The toast, FadeHelper and MvpAnimator calls are recorded as opaque events (AnimateLoadingViewIn, AnimateContentViewIn, AnimateErrorViewIn, SetErrorText, ShowLightError). getErrorMessage's text is not modelled.
- The subclass hooks createPresenter, createViewState, init, setData and loadData are recorded as events. What createPresenter and createViewState return, null included, is a parameter of the lifecycle call.
- The ViewState class, its bundle serialisation and getData are not part of this model. They follow the assumptions stated at the top, and getData is taken to return the last setData argument.
- The view state is a value, not a shared mutable object; aliasing of one ViewState object between screens is not captured.
- isRetainingViewState and getRetainInstance are constant for the lifetime of a screen object (class constants).
- Presenter internals are not modelled: a presenter is an identity, and setView and onDestroy are events.
- The adapters (SimpleAdapter, SimpleSpinnerAdapter) are not part of this model; they only delegate to Android widgets.
- The pure step functions of the show* methods and the helpers require that no NullPointerException is thrown. The class methods model the throwing case through their thrown result, and the lifecycle calls never reach it.
