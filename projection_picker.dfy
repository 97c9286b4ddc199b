/**
 * ProjectionPickerViewModel: the object behind the projection picker
 * button. Its commands assign its own fields and the host camera's
 * frustum in place; each is proved to move State() exactly as the
 * matching function of PickerSpec does.
 */
module ProjectionPicker {
  import opened Wrappers
  import opened Host
  import PickerSpec

  class ProjectionPickerViewModel {
    const scene: Scene
    var orthographic: bool
    var dropDownVisible: bool
    var tooltipPerspective: string
    var tooltipOrthographic: string

    /** The view model together with its scene, as a value. */
    function State(): PickerSpec.PickerState
      reads this, scene, scene.camera
    {
      PickerSpec.PickerState(scene.Snapshot(), orthographic, dropDownVisible,
                             tooltipPerspective, tooltipOrthographic)
    }

    /** The constructor's success path: a scene is present. */
    constructor (scene: Scene)
      ensures this.scene == scene
      ensures PickerSpec.Init(Some(scene.Snapshot())) == Success(State())
      ensures orthographic == scene.camera.frustum.Orthographic?
      ensures !dropDownVisible
      ensures tooltipPerspective == "Perspective Projection" && tooltipOrthographic == "Orthographic Projection"
    {
      this.scene := scene;
      orthographic := scene.camera.frustum.Orthographic?;
      dropDownVisible := false;
      tooltipPerspective := PickerSpec.DefaultTooltipPerspective;
      tooltipOrthographic := PickerSpec.DefaultTooltipOrthographic;
    }

    /** Construction with a possibly missing scene: a missing one is an error and yields no view model. */
    static method Create(scene: Scene?) returns (r: Result<ProjectionPickerViewModel, PickerSpec.Error>)
      ensures r.Failure? <==> scene == null
      ensures r.Failure? ==> Failure(r.error) == PickerSpec.Init(None)
      ensures r.Success? ==> fresh(r.value) && r.value.scene == scene
      ensures r.Success? ==> PickerSpec.Init(Some(r.value.scene.Snapshot())) == Success(r.value.State())
    {
      if scene == null {
        r := Failure(PickerSpec.DeveloperError("scene is required."));
      } else {
        var vm := new ProjectionPickerViewModel(scene);
        r := Success(vm);
      }
    }

    /** The selectedTooltip evaluator, run on the camera's current frustum. */
    function SelectedTooltip(): (r: string)
      reads this, scene, scene.camera
      ensures scene.camera.frustum.Orthographic? ==> r == tooltipOrthographic
      ensures scene.camera.frustum.Perspective? ==> r == tooltipPerspective
    {
      PickerSpec.Tooltip(State())
    }

    method ToggleDropDown()
      modifies this
      ensures dropDownVisible == !old(dropDownVisible)
      ensures State() == PickerSpec.ToggleDropDown(old(State()))
    {
      dropDownVisible := !dropDownVisible;
    }

    method SwitchToPerspective()
      requires scene.drawingBufferHeight != 0.0
      modifies this, scene.camera
      ensures State() == PickerSpec.SwitchToPerspective(old(State()))
      ensures !orthographic && SelectedTooltip() == tooltipPerspective
    {
      var camera := scene.camera;
      camera.frustum := PickerSpec.PerspectiveFor(scene.Snapshot());
      orthographic := false;
    }

    method SwitchToOrthographic()
      requires scene.drawingBufferHeight != 0.0
      modifies this, scene.camera
      ensures State() == PickerSpec.SwitchToOrthographic(old(State()))
      ensures orthographic && SelectedTooltip() == tooltipOrthographic
    {
      var camera := scene.camera;
      camera.frustum := PickerSpec.OrthographicFor(scene.Snapshot());
      orthographic := true;
    }
  }
}
