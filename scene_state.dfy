/** The per-scene status machine of src/scene/SceneState.ts. */
module SceneStates {

  /** The ordered enum `SceneStatus`; `Ord` gives its numeric value. */
  datatype SceneStatus =
    Pending | Init | Loading | Creating | Running | Paused | Sleeping | Stopped | Destroyed

  function Ord(s: SceneStatus): (n: nat)
    ensures n <= 8
  {
    match s
    case Pending => 0
    case Init => 1
    case Loading => 2
    case Creating => 3
    case Running => 4
    case Paused => 5
    case Sleeping => 6
    case Stopped => 7
    case Destroyed => 8
  }

  /** A `SceneState`: its key, its status and the derived `_visible` flag. */
  datatype SceneState = SceneState(key: string, status: SceneStatus, visible: bool) {

    /** `isActive()`: status between Loading and Running in the enum order. */
    predicate IsActive() {
      Ord(Loading) <= Ord(status) <= Ord(Running)
    }

    predicate IsPaused() {
      status == Paused
    }

    predicate IsSleeping() {
      status == Sleeping
    }

    predicate ShouldUpdate() {
      IsActive() && status != Loading
    }

    predicate ShouldRender() {
      visible && IsActive()
    }

    /** The `status` setter: stores the status and recomputes `_visible`. */
    function WithStatus(s: SceneStatus): (r: SceneState)
      ensures r.key == key && r.status == s
      ensures r.visible <==> r.IsActive() || r.IsPaused()
    {
      var next := SceneState(key, s, false);
      next.(visible := next.IsActive() || next.IsPaused())
    }
  }

  /** The state a scene is built with: Pending and not visible. */
  function Initial(key: string): (r: SceneState)
    ensures r.key == key && r.status == Pending && !r.visible
    ensures !r.ShouldUpdate() && !r.ShouldRender()
  {
    SceneState(key, Pending, false)
  }

  /** `isActive()` holds exactly for Loading, Creating and Running. */
  lemma {:induction false} ActiveExactly(st: SceneState)
    ensures st.IsActive() <==> st.status in {Loading, Creating, Running}
  {
    match st.status
    case Pending =>
    case Init =>
    case Loading =>
    case Creating =>
    case Running =>
    case Paused =>
    case Sleeping =>
    case Stopped =>
    case Destroyed =>
  }

  /** `shouldUpdate()` holds exactly for Creating and Running. */
  lemma {:induction false} ShouldUpdateExactly(st: SceneState)
    ensures st.ShouldUpdate() <==> st.status in {Creating, Running}
  {
    ActiveExactly(st);
  }

  /** After any status assignment `shouldRender()` coincides with `isActive()`:
      a Paused scene is visible but is not rendered. */
  lemma {:induction false} RenderAfterAssignment(st: SceneState, s: SceneStatus)
    ensures st.WithStatus(s).ShouldRender() <==> st.WithStatus(s).IsActive()
    ensures s == Paused ==> st.WithStatus(s).visible && !st.WithStatus(s).ShouldRender()
  {
  }

  /** After any status assignment `shouldRender()` holds exactly for Loading,
      Creating and Running, and visibility exactly for those and Paused. */
  lemma {:induction false} RenderedStatuses(st: SceneState, s: SceneStatus)
    ensures st.WithStatus(s).ShouldRender() <==> s in {Loading, Creating, Running}
    ensures st.WithStatus(s).visible <==> s in {Loading, Creating, Running, Paused}
  {
    ActiveExactly(st.WithStatus(s));
  }
}
