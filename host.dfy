/**
 * The part of a Cesium scene that the projection picker touches: the
 * camera's frustum (read for its variant and replaced by the switches),
 * the drawing-buffer size, and the three camera quantities the
 * orthographic width is chosen from. The frustum classes, Matrix4,
 * Cartesian3 and CesiumMath are library code; they appear here only as
 * the values the picker reads.
 */
module Host {
  /** CesiumMath.toRadians(60.0): one fixed value; the conversion itself is library code. */
  const SixtyDegreesInRadians: real

  /** A camera frustum. Exactly one variant is active at a time. */
  datatype Frustum =
    | Perspective(aspectRatio: real, fov: real)
    | Orthographic(aspectRatio: real, width: real)

  /** What the picker can observe of a scene at one instant. */
  datatype HostState = HostState(
    frustum: Frustum,
    bufferWidth: real,          // scene.drawingBufferWidth
    bufferHeight: real,         // scene.drawingBufferHeight
    transformIsIdentity: bool,  // Matrix4.equals(Matrix4.IDENTITY, camera.transform)
    cartographicHeight: real,   // camera.positionCartographic.height
    positionMagnitude: real)    // Cartesian3.magnitude(camera.position)

  class Camera {
    var frustum: Frustum
    var transformIsIdentity: bool
    var cartographicHeight: real
    var positionMagnitude: real

    constructor (frustum: Frustum, transformIsIdentity: bool, cartographicHeight: real, positionMagnitude: real)
      ensures this.frustum == frustum && this.transformIsIdentity == transformIsIdentity
      ensures this.cartographicHeight == cartographicHeight && this.positionMagnitude == positionMagnitude
    {
      this.frustum := frustum;
      this.transformIsIdentity := transformIsIdentity;
      this.cartographicHeight := cartographicHeight;
      this.positionMagnitude := positionMagnitude;
    }

    /** Code outside the picker replacing the camera's frustum. */
    method SetFrustum(f: Frustum)
      modifies this
      ensures frustum == f
      ensures transformIsIdentity == old(transformIsIdentity)
      ensures cartographicHeight == old(cartographicHeight) && positionMagnitude == old(positionMagnitude)
    {
      frustum := f;
    }
  }

  class Scene {
    const camera: Camera
    var drawingBufferWidth: real
    var drawingBufferHeight: real

    constructor (camera: Camera, drawingBufferWidth: real, drawingBufferHeight: real)
      ensures this.camera == camera
      ensures this.drawingBufferWidth == drawingBufferWidth && this.drawingBufferHeight == drawingBufferHeight
    {
      this.camera := camera;
      this.drawingBufferWidth := drawingBufferWidth;
      this.drawingBufferHeight := drawingBufferHeight;
    }

    /** The scene and its camera as one value. */
    function Snapshot(): HostState
      reads this, camera
    {
      HostState(camera.frustum, drawingBufferWidth, drawingBufferHeight,
                camera.transformIsIdentity, camera.cartographicHeight, camera.positionMagnitude)
    }
  }
}
