/** The start of Create3DObject in main.ts: the two wireframe meshes are built
    once with the scene's constants, and the vertex counts the draw calls use
    are taken as buffer length / 6. */
module SceneSetup {
  import opened VertexLayout
  import opened WireframeData

  /** Builds the red torus (R = 2, r = 0.5, N = n = 20) and the green sphere
      (radius 0.4, u = v = 20) and returns their buffers and vertex counts. */
  method CreateWireframeMeshes(spherePosition: SphereSampler, torusPosition: TorusSampler)
    returns (torusData: seq<real>, sphereData: seq<real>, torusNumberOfVertices: int, sphereNumberOfVertices: int)
    ensures torusNumberOfVertices == 19 * 19 * 6 == 2166
    ensures sphereNumberOfVertices == 19 * 19 * 4 == 1444
    ensures |torusData| == Stride * torusNumberOfVertices && |sphereData| == Stride * sphereNumberOfVertices
    ensures forall m | 0 <= m < torusNumberOfVertices :: VertexColor(torusData, m) == Vec3(1.0, 0.0, 0.0)
    ensures forall m | 0 <= m < sphereNumberOfVertices :: VertexColor(sphereData, m) == Vec3(0.0, 1.0, 0.0)
  {
    var R, r := 2.0, 0.5;
    var N, n := 20, 20;
    var torusColor, sphereColor := Vec3(1.0, 0.0, 0.0), Vec3(0.0, 1.0, 0.0);
    var torusCenter, sphereCenter := Vec3(0.0, 0.0, 0.0), Vec3(0.0, 0.0, 0.0);
    var sphereRadius := r * 0.8;
    var torus := TorusWireframeData(torusPosition, R, r, N, n, torusCenter, torusColor);
    var sphere := SphereWireframeData(spherePosition, sphereRadius, 20, 20, sphereCenter, sphereColor);
    // The casts `as Float32Array` are safe: both resolutions pass the guards.
    torusData, sphereData := torus.value, sphere.value;
    torusNumberOfVertices := |torusData| / Stride;
    sphereNumberOfVertices := |sphereData| / Stride;
  }
}
