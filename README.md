# Normal estimation for 3-D point clouds (model of `cilantro::NormalEstimation`)

This project models the normal-estimation stage of the cilantro point-cloud
library. An estimator is built over a raw point array or a point cloud. It uses
a spatial index (`KDTree3D`) that it either builds and owns or borrows from the
caller. For every input point it:

1. asks the index for the point's neighbours, using one of three strategies:
   k nearest, all within a radius, or at most k within a radius;
2. gathers the neighbours' positions;
3. takes the least-variance eigenvector of that neighbourhood from the plane
   fitter (`PrincipalComponentAnalysis3D`, eigenvector column 2);
4. negates that vector when it points away from the viewpoint.

The estimator either returns the normals or writes them into its point cloud.
A point with no computable normal gets a NaN vector, modelled as `None`.

Files:

- `wrappers.dfy`: `Option`.
- `geometry.dfy`: `Vec3` over `real`, with `Sub`, `Dot`, `Neg`.
- `spatial_index.dfy`: the index's boundary. The three queries are function
  values of the `KDTree3D` datatype. `IndexesBelow(n)` states the one fact the
  estimator relies on: every returned index names one of the `n` points. The
  file also holds the `Neighborhood` descriptor and its tag.
- `normal_spec.dfy`: what the estimator computes, as functions (`KnnNormals`,
  `RadiusNormals`, `KnnInRadiusNormals`, `NormalsFor`). It also holds the
  orientation rule and the lemmas about it.
- `normal_estimation.dfy`: the `NormalEstimation` class, with its four
  constructors, the viewpoint accessors, the three per-point loops, the
  descriptor dispatch and the four in-place variants. It also holds the
  `PointCloud` container. Each loop writes its output array slot by slot, and
  iteration `i` writes only slot `i`. Each value-returning method is proved
  equal to its specification function.

The plane fitter is passed to every estimation method as a parameter
(`pca: PlaneFit`). An owning constructor receives the index-building function
(`buildTree`) and applies it to the points. Index building is external code.

The fields other than `viewPoint` are `const`, because the C++ implementation
never reassigns them after construction. `SetViewPoint` therefore changes nothing
but the viewpoint. The estimation methods have no `modifies` clause, matching
the `const` methods of the C++ class. The in-place variants may modify only `cloud`,
which is nothing when `cloud` is null.

## Model

| member | source | states |
|---|---|---|
| Geometry.DotNeg | src/normal_estimation.cpp:68-70 | helper for `Orient`: negating the candidate negates its dot product with `viewPoint - p` |
| NormalSpec.Orient | src/normal_estimation.cpp:68-70 | the oriented normal is the candidate or its negation, never faces away from the viewpoint, and is the candidate itself when the dot product is non-negative |
| NormalSpec.OrientedTowardIsOrient | src/normal_estimation.cpp:68-70 | those three conditions hold of exactly one vector, the result of the flip-when-strictly-negative rule (both directions) |
| NormalSpec.ViewPointFlipNegates | src/normal_estimation.cpp:68-70 | moving the viewpoint to the other strict side of the plane negates the resulting normal |
| NormalSpec.FitNormal | src/normal_estimation.cpp:58-70 | a fitted normal is the plane fitter's least-variance axis of the gathered neighbourhood, oriented toward the viewpoint |
| NormalSpec.GuardedFit | src/normal_estimation.cpp:94-111 | an entry is the sentinel exactly when fewer than 3 neighbours were found; otherwise it is the oriented fit |
| NormalSpec.KnnNormals | src/normal_estimation.cpp:41-74 | one entry per point; all sentinels when there are fewer than 3 points; otherwise every entry is a normal (no per-point count check), oriented from the fit to the kNN query's neighbours |
| NormalSpec.RadiusNormals | src/normal_estimation.cpp:81-115 | one entry per point; the index is queried with `radius*radius`; an entry is the sentinel exactly when that query returns fewer than 3 indices; otherwise it is the oriented fit |
| NormalSpec.KnnInRadiusNormals | src/normal_estimation.cpp:122-156 | as for radius, with the k-in-radius query at `(k, radius*radius)` |
| NormalSpec.NormalsFor | src/normal_estimation.cpp:163-172 | whatever the tag, one entry per point, and every normal faces the viewpoint |
| NormalSpec.OrientVertical | src/normal_estimation.cpp:68-70 | for a point in the plane z = 0, either sign of the z axis is oriented to the side of the viewpoint's height |
| NormalSpec.PlanarCloudFacesViewPoint | src/normal_estimation.cpp:53-71 | for a cloud in the plane z = 0 and a viewpoint off that plane, ASSUMING the fitter returns ±z for each point's kNN neighbourhood (as a least-variance fit to coplanar points does), every kNN normal is the unit z vector on the viewpoint's side |
| NormalSpec.SquareScenario | src/normal_estimation.cpp:41-74 | for the unit square with k = 3, ASSUMING the fitter returns ±z for each of the four neighbourhoods it is handed, the normals are all (0,0,1) from viewpoint (0,0,1) and all (0,0,-1) from (0,0,-1) |
| NormalSpec.SparseRadiusAllSentinel | src/normal_estimation.cpp:89-97 | corollary of `RadiusNormals`: when every radius query finds fewer than 3 points, every entry is the sentinel |
| Cilantro.GatherNeighborhood | src/normal_estimation.cpp:58-61 | the neighbourhood has one position per neighbour index, and element `j` is `points[neighbors[j]]` |
| Cilantro.NormalEstimation.FromPoints | src/normal_estimation.cpp:5-11 | no cloud, the index is built over the points and owned, and the viewpoint is zero |
| Cilantro.NormalEstimation.FromPointsAndTree | src/normal_estimation.cpp:13-19 | no cloud, the caller's index is borrowed (not owned), and the viewpoint is zero |
| Cilantro.NormalEstimation.FromCloud | src/normal_estimation.cpp:21-27 | the cloud is attached, the points are the cloud's points, the index is built over them and owned, and the viewpoint is zero |
| Cilantro.NormalEstimation.FromCloudAndTree | src/normal_estimation.cpp:29-35 | the cloud is attached, the points are the cloud's points, the caller's index is borrowed, and the viewpoint is zero |
| Cilantro.NormalEstimation.GetViewPoint | include/cilantro/normal_estimation.hpp:17 | returns the estimator's current viewpoint |
| Cilantro.NormalEstimation.SetViewPoint | include/cilantro/normal_estimation.hpp:17-18 | afterwards `GetViewPoint()` returns the new viewpoint; only `viewPoint` may change; the estimator itself is returned |
| Cilantro.NormalEstimation.FitNormalInto | src/normal_estimation.cpp:58-70 | writes slot `i` with the oriented fit and leaves every other slot unchanged |
| Cilantro.NormalEstimation.EstimateNormalsKNN | src/normal_estimation.cpp:41-74 | the returned array equals `KnnNormals` for the estimator's points, index and viewpoint |
| Cilantro.NormalEstimation.EstimateNormalsInPlaceKNN | src/normal_estimation.cpp:76-79 | with a cloud, its normals become `KnnNormals` and its points are unchanged; without one, nothing is modified |
| Cilantro.NormalEstimation.EstimateNormalsRadius | src/normal_estimation.cpp:81-115 | the returned array equals `RadiusNormals` |
| Cilantro.NormalEstimation.EstimateNormalsInPlaceRadius | src/normal_estimation.cpp:117-120 | with a cloud, its normals become `RadiusNormals` and its points are unchanged; without one, nothing is modified |
| Cilantro.NormalEstimation.EstimateNormalsKNNInRadius | src/normal_estimation.cpp:122-156 | the returned array equals `KnnInRadiusNormals` |
| Cilantro.NormalEstimation.EstimateNormalsInPlaceKNNInRadius | src/normal_estimation.cpp:158-161 | with a cloud, its normals become `KnnInRadiusNormals` and its points are unchanged; without one, nothing is modified |
| Cilantro.NormalEstimation.EstimateNormals | src/normal_estimation.cpp:163-172 | the result equals the strategy the tag selects, called with the descriptor's `maxNumberOfNeighbors` and/or `radius`; each of the three tags is handled |
| Cilantro.NormalEstimation.EstimateNormalsInPlace | src/normal_estimation.cpp:174-177 | with a cloud, its normals become the descriptor-selected result and its points are unchanged; without one, nothing is modified |

## Left out

- The k-d tree's construction and search algorithms: external code. Queries are opaque functions constrained only by `IndexesBelow`. The owning constructors therefore receive the index-building function as a parameter. The distances the queries also return are unused and are dropped.
- The plane fitter's eigen-decomposition: external floating-point numerics. Only its column-2 result is modelled, as an opaque function.
- Single-precision arithmetic, rounding and the NaN bit pattern. The model uses `real`, with `None` as the sentinel. The squared radius is the exact square.
- The OpenMP parallel loops. They are modelled as sequential loops in which iteration `i` writes only slot `i` (see `FitNormalInto`).
- The destructor that deletes an owned index, and the pointer casts. Only the `kdTreeOwned` flag is kept.
- `EIGEN_MAKE_ALIGNED_OPERATOR_NEW`: a memory-alignment detail.
- Aliasing of `input_points_` with the cloud's point array. The estimator holds the points by value. `Valid()` requires the cloud's points to equal them, and no method changes them.
- "No neighbour query is made" when there are fewer than 3 points (KNN) or no cloud is attached (in-place): queries are pure functions here, so this shows only in the methods' control flow, not in a contract.
