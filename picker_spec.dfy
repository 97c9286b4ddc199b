/**
 * The projection picker's state as a value: the host scene it is bound
 * to, the cached "is orthographic" flag, the drop-down flag and the two
 * tooltips. Each command of the view model is a function from the state
 * before to the state after; ReplaceFrustum is code outside the picker
 * changing the camera's frustum.
 */
module PickerSpec {
  import opened Wrappers
  import opened Host

  const DefaultTooltipPerspective: string := "Perspective Projection"
  const DefaultTooltipOrthographic: string := "Orthographic Projection"
  /** The fixed narrowing factor applied to the orthographic aspect ratio. */
  const OrthographicAspectFactor: real := 0.3

  /** The DeveloperError the constructor throws. */
  datatype Error = DeveloperError(message: string)

  datatype PickerState = PickerState(
    host: HostState,
    orthographic: bool,         // _orthographic
    dropDownVisible: bool,
    tooltipPerspective: string,
    tooltipOrthographic: string)

  /** The cached flag tells the truth about the current frustum. */
  predicate CacheAccurate(s: PickerState) {
    s.orthographic == s.host.frustum.Orthographic?
  }

  /** Construction: fails without a scene; otherwise reads the initial frustum variant. */
  function Init(scene: Option<HostState>): (r: Result<PickerState, Error>)
    ensures r.Failure? <==> scene.None?
    ensures r.Failure? ==> r.error == DeveloperError("scene is required.")
    ensures r.Success? ==> r.value.host == scene.value && CacheAccurate(r.value)
    ensures r.Success? ==> !r.value.dropDownVisible
    ensures r.Success? ==> r.value.tooltipPerspective == "Perspective Projection"
    ensures r.Success? ==> r.value.tooltipOrthographic == "Orthographic Projection"
  {
    match scene
    case None => Failure(DeveloperError("scene is required."))
    case Some(host) =>
      Success(PickerState(host, host.frustum.Orthographic?, false,
                          DefaultTooltipPerspective, DefaultTooltipOrthographic))
  }

  /** The selectedTooltip evaluator: chosen from the current frustum, never from the cached flag. */
  function Tooltip(s: PickerState): (r: string)
    ensures s.host.frustum.Orthographic? ==> r == s.tooltipOrthographic
    ensures s.host.frustum.Perspective? ==> r == s.tooltipPerspective
  {
    if s.host.frustum.Orthographic? then s.tooltipOrthographic else s.tooltipPerspective
  }

  /** The frustum switchToPerspective installs. */
  function PerspectiveFor(host: HostState): (f: Frustum)
    requires host.bufferHeight != 0.0
    ensures f.Perspective?
    ensures f.aspectRatio * host.bufferHeight == host.bufferWidth
    ensures f.fov == SixtyDegreesInRadians
  {
    Perspective(host.bufferWidth / host.bufferHeight, SixtyDegreesInRadians)
  }

  /** The orthographic width: cartographic height in the identity frame, distance from the origin otherwise. */
  function OrthographicWidth(host: HostState): real {
    if host.transformIsIdentity then host.cartographicHeight else host.positionMagnitude
  }

  /** The frustum switchToOrthographic installs. */
  function OrthographicFor(host: HostState): (f: Frustum)
    requires host.bufferHeight != 0.0
    ensures f.Orthographic?
    ensures f.aspectRatio * host.bufferHeight == 0.3 * host.bufferWidth
    ensures host.transformIsIdentity ==> f.width == host.cartographicHeight
    ensures !host.transformIsIdentity ==> f.width == host.positionMagnitude
  {
    Orthographic(host.bufferWidth / host.bufferHeight * OrthographicAspectFactor, OrthographicWidth(host))
  }

  /** toggleDropDown. */
  function ToggleDropDown(s: PickerState): (r: PickerState)
    ensures r.dropDownVisible != s.dropDownVisible
    ensures r == s.(dropDownVisible := r.dropDownVisible)
  {
    s.(dropDownVisible := !s.dropDownVisible)
  }

  /** switchToPerspective. */
  function SwitchToPerspective(s: PickerState): (r: PickerState)
    requires s.host.bufferHeight != 0.0
    ensures r.host == s.host.(frustum := r.host.frustum)
    ensures r == s.(host := r.host, orthographic := r.orthographic)
    ensures r.host.frustum == PerspectiveFor(s.host)
    ensures !r.orthographic && CacheAccurate(r)
    ensures Tooltip(r) == s.tooltipPerspective
  {
    s.(host := s.host.(frustum := PerspectiveFor(s.host)), orthographic := false)
  }

  /** switchToOrthographic. */
  function SwitchToOrthographic(s: PickerState): (r: PickerState)
    requires s.host.bufferHeight != 0.0
    ensures r.host == s.host.(frustum := r.host.frustum)
    ensures r == s.(host := r.host, orthographic := r.orthographic)
    ensures r.host.frustum == OrthographicFor(s.host)
    ensures r.orthographic && CacheAccurate(r)
    ensures Tooltip(r) == s.tooltipOrthographic
  {
    s.(host := s.host.(frustum := OrthographicFor(s.host)), orthographic := true)
  }

  /** Code outside the picker replaces the camera's frustum; the picker's own fields stay as they were. */
  function ReplaceFrustum(s: PickerState, f: Frustum): (r: PickerState)
    ensures r.host == s.host.(frustum := f)
    ensures r == s.(host := r.host)
  {
    s.(host := s.host.(frustum := f))
  }

  /** The evaluator names the orthographic tooltip exactly when the current frustum is orthographic, whatever the cached flag says. */
  lemma TooltipTracksLiveFrustum(s: PickerState, cached: bool)
    requires s.tooltipPerspective != s.tooltipOrthographic
    ensures Tooltip(s) == s.tooltipOrthographic <==> s.host.frustum.Orthographic?
    ensures Tooltip(s.(orthographic := cached)) == Tooltip(s)
  {
  }

  /** Toggling twice restores the drop-down flag, and with it the whole state. */
  lemma ToggleTwiceRestores(s: PickerState)
    ensures ToggleDropDown(ToggleDropDown(s)) == s
  {
  }

  /** After either switch, the cached flag and selectedTooltip agree. */
  lemma SwitchSyncsCacheAndTooltip(s: PickerState)
    requires s.host.bufferHeight != 0.0
    ensures var r := SwitchToPerspective(s);
      Tooltip(r) == (if r.orthographic then r.tooltipOrthographic else r.tooltipPerspective)
    ensures var r := SwitchToOrthographic(s);
      Tooltip(r) == (if r.orthographic then r.tooltipOrthographic else r.tooltipPerspective)
  {
  }

  /**
   * A switch does not depend on the frustum it replaces: on an unchanged
   * host, repeating a switch, or switching after any other frustum was
   * installed, yields the same state.
   */
  lemma SwitchIgnoresPriorFrustum(s: PickerState, f: Frustum)
    requires s.host.bufferHeight != 0.0
    ensures SwitchToPerspective(ReplaceFrustum(s, f)) == SwitchToPerspective(s)
    ensures SwitchToOrthographic(ReplaceFrustum(s, f)) == SwitchToOrthographic(s)
    ensures SwitchToPerspective(SwitchToPerspective(s)) == SwitchToPerspective(s)
    ensures SwitchToOrthographic(SwitchToOrthographic(s)) == SwitchToOrthographic(s)
    ensures SwitchToPerspective(SwitchToOrthographic(SwitchToPerspective(s))) == SwitchToPerspective(s)
  {
  }

  /**
   * An outside frustum change after switchToOrthographic leaves the cached
   * flag stale (still true) while the selectedTooltip evaluator follows the new frustum.
   */
  lemma ExternalChangeLeavesCacheStale(s: PickerState, aspectRatio: real, fov: real)
    requires s.host.bufferHeight != 0.0
    ensures var r := ReplaceFrustum(SwitchToOrthographic(s), Perspective(aspectRatio, fov));
      r.orthographic && !CacheAccurate(r) && Tooltip(r) == s.tooltipPerspective
  {
  }
}
