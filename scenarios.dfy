/** Clients of the view model that use only the contracts of its members. */
module PickerScenarios {
  import opened Wrappers
  import opened Host
  import opened ProjectionPicker

  /** An 800x600 buffer, identity transform, 1000 above the surface: switching to orthographic gives width 1000 and aspect ratio 0.4. */
  method OrthographicExample() returns (f: Frustum, cached: bool, tooltip: string)
    ensures f == Orthographic(0.4, 1000.0)
    ensures cached && tooltip == "Orthographic Projection"
  {
    var camera := new Camera(Perspective(800.0 / 600.0, SixtyDegreesInRadians), true, 1000.0, 6378137.0);
    var scene := new Scene(camera, 800.0, 600.0);
    var vm := new ProjectionPickerViewModel(scene);
    vm.SwitchToOrthographic();
    f, cached, tooltip := camera.frustum, vm.orthographic, vm.SelectedTooltip();
  }

  /** With a non-identity transform the orthographic width is the position's magnitude. */
  method TransformedFrameExample() returns (width: real)
    ensures width == 250.0
  {
    var camera := new Camera(Perspective(2.0, SixtyDegreesInRadians), false, 1000.0, 250.0);
    var scene := new Scene(camera, 1024.0, 512.0);
    var vm := new ProjectionPickerViewModel(scene);
    vm.SwitchToOrthographic();
    width := camera.frustum.width;
  }

  /** Code outside the picker puts a perspective frustum back: the cached flag goes stale, selectedTooltip does not. */
  method StaleCacheExample() returns (cached: bool, tooltip: string)
    ensures cached && tooltip == "Perspective Projection"
  {
    var camera := new Camera(Perspective(1.0, SixtyDegreesInRadians), true, 500.0, 7000000.0);
    var scene := new Scene(camera, 640.0, 480.0);
    var vm := new ProjectionPickerViewModel(scene);
    vm.SwitchToOrthographic();
    camera.SetFrustum(Perspective(1.0, 0.5));
    cached, tooltip := vm.orthographic, vm.SelectedTooltip();
  }

  /** Perspective, then orthographic, then perspective again: the 60 degree field of view and the buffer's aspect ratio are back. */
  method RoundTripExample(w: real, h: real) returns (f: Frustum, cached: bool)
    requires h != 0.0
    ensures f == Perspective(w / h, SixtyDegreesInRadians) && !cached
  {
    var camera := new Camera(Orthographic(1.0, 10.0), false, 0.0, 10.0);
    var scene := new Scene(camera, w, h);
    var vm := new ProjectionPickerViewModel(scene);
    vm.SwitchToPerspective();
    vm.SwitchToOrthographic();
    vm.SwitchToPerspective();
    f, cached := camera.frustum, vm.orthographic;
  }

  /** A missing scene produces the DeveloperError and no view model. */
  method MissingSceneExample() returns (message: string)
    ensures message == "scene is required."
  {
    var r := ProjectionPickerViewModel.Create(null);
    message := r.error.message;
  }
}
