/** The view state a screen keeps across a destroy/recreate cycle, and the bundle it is
    saved into.

    The repository's ViewState class is not part of this model; its behaviour is assumed
    here as follows:
    - a view state records one display mode (Loading, Content or Error), the last loaded
      data, the last exception and the pull-to-refresh flag;
    - a view state that has just been created and has recorded nothing yet is in a fourth
      mode, Initial, which none of wasShowingLoading/Content/Error accepts;
    - wasShowingX tests the mode, and setStateShowX sets the mode and stores its own
      arguments, leaving the other fields as they were;
    - restoring from a bundle yields exactly the view state that was saved into it, and
      nothing when the bundle is null or holds no view state. */
module ViewStates {

  /** Java's nullable reference: None stands for null. */
  datatype Option<+T> = None | Some(value: T)

  datatype Mode = Initial | Loading | Content | Error

  datatype ViewState<M, E> = ViewState(mode: Mode, loadedData: Option<M>, exception: Option<E>, pullToRefresh: bool)
  {
    predicate WasShowingLoading() { mode == Loading }
    predicate WasShowingContent() { mode == Content }
    predicate WasShowingError() { mode == Error }

    /** True when restoreViewState has a mode to replay. */
    predicate Replayable() { WasShowingLoading() || WasShowingContent() || WasShowingError() }

    function SetStateShowLoading(ptr: bool): (r: ViewState<M, E>)
      ensures r.WasShowingLoading() && r.pullToRefresh == ptr
      ensures r.loadedData == loadedData && r.exception == exception
    {
      this.(mode := Loading, pullToRefresh := ptr)
    }

    function SetStateShowContent(data: Option<M>): (r: ViewState<M, E>)
      ensures r.WasShowingContent() && r.loadedData == data
      ensures r.exception == exception && r.pullToRefresh == pullToRefresh
    {
      this.(mode := Content, loadedData := data)
    }

    function SetStateShowError(e: Option<E>, ptr: bool): (r: ViewState<M, E>)
      ensures r.WasShowingError() && r.exception == e && r.pullToRefresh == ptr
      ensures r.loadedData == loadedData
    {
      this.(mode := Error, exception := e, pullToRefresh := ptr)
    }
  }

  /** The instance-state bundle, reduced to its view-state entry. */
  datatype Bundle<M, E> = Bundle(viewState: Option<ViewState<M, E>>)

  /** ViewState.restoreInstanceState: the view state held by the bundle, if any. */
  function RestoreInstanceState<M, E>(saved: Option<Bundle<M, E>>): (r: Option<ViewState<M, E>>)
    ensures saved.None? ==> r.None?
  {
    if saved.None? then None else saved.value.viewState
  }

  /** viewState.saveInstanceState(out): writes the view state into the bundle. */
  function SaveInstanceState<M, E>(vs: ViewState<M, E>, out: Bundle<M, E>): (r: Bundle<M, E>)
    ensures RestoreInstanceState(Some(r)) == Some(vs)
  {
    out.(viewState := Some(vs))
  }
}
