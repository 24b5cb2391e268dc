/** The normal estimator: a class over a point set, a spatial index and a
    viewpoint, with an optional point cloud it can write normals into. */
module Cilantro {
  import opened Wrappers
  import opened Geometry
  import opened SpatialIndex
  import opened NormalSpec

  /** The point-cloud container the estimator may be built over. Only its point
      array (read) and its normal array (written) matter here. */
  class PointCloud {
    var points: seq<Vec3>
    var normals: seq<Option<Vec3>>

    constructor (points: seq<Vec3>)
      ensures this.points == points && normals == []
    {
      this.points := points;
      normals := [];
    }
  }

  /** Collect the positions of the listed neighbours, element by element. */
  method GatherNeighborhood(points: seq<Vec3>, neighbors: seq<nat>) returns (neighborhood: seq<Vec3>)
    requires AllBelow(neighbors, |points|)
    ensures |neighborhood| == |neighbors|
    ensures forall j :: 0 <= j < |neighbors| ==> neighborhood[j] == points[neighbors[j]]
    ensures neighborhood == NeighborPositions(points, neighbors)
  {
    var hood := new Vec3[|neighbors|];
    for j := 0 to |neighbors|
      invariant forall m :: 0 <= m < j ==> hood[m] == points[neighbors[m]]
    {
      hood[j] := points[neighbors[j]];
    }
    neighborhood := hood[..];
  }

  class NormalEstimation {
    /** The cloud normals are written into; null for the raw-array forms. */
    const cloud: PointCloud?
    /** The input points (the cloud's points for the cloud forms). */
    const points: seq<Vec3>
    /** The spatial index queried for neighbours. */
    const kdTree: KDTree3D
    /** Whether the estimator built (and so owns) the index. */
    const kdTreeOwned: bool
    /** The position normals are oriented toward. */
    var viewPoint: Vec3

    /** The index only names input points, and the cloud's points are the
        input points. */
    ghost predicate Valid()
      reads this, cloud
    {
      kdTree.IndexesBelow(|points|) &&
      (cloud != null ==> cloud.points == points)
    }

    /** Over a raw point array, building and owning the index. */
    constructor FromPoints(points: seq<Vec3>, buildTree: seq<Vec3> -> KDTree3D)
      requires buildTree(points).IndexesBelow(|points|)
      ensures Valid()
      ensures cloud == null && this.points == points && kdTree == buildTree(points)
      ensures kdTreeOwned && viewPoint == Zero
    {
      cloud := null;
      this.points := points;
      kdTree := buildTree(points);
      kdTreeOwned := true;
      viewPoint := Zero;
    }

    /** Over a raw point array, borrowing a caller's index. */
    constructor FromPointsAndTree(points: seq<Vec3>, tree: KDTree3D)
      requires tree.IndexesBelow(|points|)
      ensures Valid()
      ensures cloud == null && this.points == points && kdTree == tree
      ensures !kdTreeOwned && viewPoint == Zero
    {
      cloud := null;
      this.points := points;
      kdTree := tree;
      kdTreeOwned := false;
      viewPoint := Zero;
    }

    /** Over a point cloud, building and owning an index over its points. */
    constructor FromCloud(cloud: PointCloud, buildTree: seq<Vec3> -> KDTree3D)
      requires buildTree(cloud.points).IndexesBelow(|cloud.points|)
      ensures Valid()
      ensures this.cloud == cloud && points == cloud.points && kdTree == buildTree(cloud.points)
      ensures kdTreeOwned && viewPoint == Zero
    {
      this.cloud := cloud;
      points := cloud.points;
      kdTree := buildTree(cloud.points);
      kdTreeOwned := true;
      viewPoint := Zero;
    }

    /** Over a point cloud, borrowing a caller's index. */
    constructor FromCloudAndTree(cloud: PointCloud, tree: KDTree3D)
      requires tree.IndexesBelow(|cloud.points|)
      ensures Valid()
      ensures this.cloud == cloud && points == cloud.points && kdTree == tree
      ensures !kdTreeOwned && viewPoint == Zero
    {
      this.cloud := cloud;
      points := cloud.points;
      kdTree := tree;
      kdTreeOwned := false;
      viewPoint := Zero;
    }

    /** The position normals are currently oriented toward. */
    function GetViewPoint(): (vp: Vec3)
      reads this
      ensures vp == viewPoint
    {
      viewPoint
    }

    /** Replace the viewpoint; returns the estimator itself for chaining. */
    method SetViewPoint(vp: Vec3) returns (self: NormalEstimation)
      requires Valid()
      modifies this`viewPoint
      ensures Valid() && self == this
      ensures GetViewPoint() == vp
    {
      viewPoint := vp;
      self := this;
    }

    /** Fit and orient the normal of point `i` into slot `i` of `normals`,
        touching no other slot. */
    method FitNormalInto(normals: array<Option<Vec3>>, i: nat, neighbors: seq<nat>, pca: PlaneFit)
      requires i < normals.Length && i < |points| && AllBelow(neighbors, |points|)
      modifies normals
      ensures normals[i] == Some(FitNormal(points, neighbors, pca, viewPoint, i))
      ensures forall j :: 0 <= j < normals.Length && j != i ==> normals[j] == old(normals[j])
    {
      var neighborhood := GatherNeighborhood(points, neighbors);
      normals[i] := Some(pca(neighborhood));
      if Dot(normals[i].value, Sub(viewPoint, points[i])) < 0.0 {
        normals[i] := Some(Neg(normals[i].value));
      }
    }

    method EstimateNormalsKNN(numNeighbors: nat, pca: PlaneFit) returns (result: seq<Option<Vec3>>)
      requires Valid()
      ensures result == KnnNormals(points, kdTree, pca, viewPoint, numNeighbors)
    {
      var normals := new Option<Vec3>[|points|];
      if |points| < MinPoints {
        for i := 0 to normals.Length
          invariant forall j :: 0 <= j < i ==> normals[j] == None
        {
          normals[i] := None;
        }
        return normals[..];
      }
      for i := 0 to |points|
        invariant forall j :: 0 <= j < i ==>
          normals[j] == Some(FitNormal(points, kdTree.kNNSearch(points[j], numNeighbors), pca, viewPoint, j))
      {
        var neighbors := kdTree.kNNSearch(points[i], numNeighbors);
        FitNormalInto(normals, i, neighbors, pca);
      }
      result := normals[..];
    }

    method EstimateNormalsInPlaceKNN(numNeighbors: nat, pca: PlaneFit)
      requires Valid()
      modifies cloud
      ensures Valid()
      ensures cloud != null ==> cloud.points == old(cloud.points)
      ensures cloud != null ==> cloud.normals == KnnNormals(points, kdTree, pca, viewPoint, numNeighbors)
    {
      if cloud == null { return; }
      cloud.normals := EstimateNormalsKNN(numNeighbors, pca);
    }

    method EstimateNormalsRadius(radius: real, pca: PlaneFit) returns (result: seq<Option<Vec3>>)
      requires Valid()
      ensures result == RadiusNormals(points, kdTree, pca, viewPoint, radius)
    {
      var radiusSq := radius * radius;
      var normals := new Option<Vec3>[|points|];
      for i := 0 to |points|
        invariant forall j :: 0 <= j < i ==>
          normals[j] == GuardedFit(points, kdTree.radiusSearch(points[j], radiusSq), pca, viewPoint, j)
      {
        var neighbors := kdTree.radiusSearch(points[i], radiusSq);
        if |neighbors| < MinNeighbors {
          normals[i] := None;
          continue;
        }
        FitNormalInto(normals, i, neighbors, pca);
      }
      result := normals[..];
    }

    method EstimateNormalsInPlaceRadius(radius: real, pca: PlaneFit)
      requires Valid()
      modifies cloud
      ensures Valid()
      ensures cloud != null ==> cloud.points == old(cloud.points)
      ensures cloud != null ==> cloud.normals == RadiusNormals(points, kdTree, pca, viewPoint, radius)
    {
      if cloud == null { return; }
      cloud.normals := EstimateNormalsRadius(radius, pca);
    }

    method EstimateNormalsKNNInRadius(k: nat, radius: real, pca: PlaneFit) returns (result: seq<Option<Vec3>>)
      requires Valid()
      ensures result == KnnInRadiusNormals(points, kdTree, pca, viewPoint, k, radius)
    {
      var radiusSq := radius * radius;
      var normals := new Option<Vec3>[|points|];
      for i := 0 to |points|
        invariant forall j :: 0 <= j < i ==>
          normals[j] == GuardedFit(points, kdTree.kNNInRadiusSearch(points[j], k, radiusSq), pca, viewPoint, j)
      {
        var neighbors := kdTree.kNNInRadiusSearch(points[i], k, radiusSq);
        if |neighbors| < MinNeighbors {
          normals[i] := None;
          continue;
        }
        FitNormalInto(normals, i, neighbors, pca);
      }
      result := normals[..];
    }

    method EstimateNormalsInPlaceKNNInRadius(k: nat, radius: real, pca: PlaneFit)
      requires Valid()
      modifies cloud
      ensures Valid()
      ensures cloud != null ==> cloud.points == old(cloud.points)
      ensures cloud != null ==> cloud.normals == KnnInRadiusNormals(points, kdTree, pca, viewPoint, k, radius)
    {
      if cloud == null { return; }
      cloud.normals := EstimateNormalsKNNInRadius(k, radius, pca);
    }

    /** Run the strategy the descriptor's tag selects, with the descriptor's
        parameters. */
    method EstimateNormals(nh: Neighborhood, pca: PlaneFit) returns (result: seq<Option<Vec3>>)
      requires Valid()
      ensures nh.kind == Knn ==> result == KnnNormals(points, kdTree, pca, viewPoint, nh.maxNumberOfNeighbors)
      ensures nh.kind == Radius ==> result == RadiusNormals(points, kdTree, pca, viewPoint, nh.radius)
      ensures nh.kind == KnnInRadius ==>
        result == KnnInRadiusNormals(points, kdTree, pca, viewPoint, nh.maxNumberOfNeighbors, nh.radius)
    {
      match nh.kind
      case Knn =>
        result := EstimateNormalsKNN(nh.maxNumberOfNeighbors, pca);
      case Radius =>
        result := EstimateNormalsRadius(nh.radius, pca);
      case KnnInRadius =>
        result := EstimateNormalsKNNInRadius(nh.maxNumberOfNeighbors, nh.radius, pca);
    }

    method EstimateNormalsInPlace(nh: Neighborhood, pca: PlaneFit)
      requires Valid()
      modifies cloud
      ensures Valid()
      ensures cloud != null ==> cloud.points == old(cloud.points)
      ensures cloud != null ==> cloud.normals == NormalsFor(points, kdTree, pca, viewPoint, nh)
    {
      if cloud == null { return; }
      cloud.normals := EstimateNormals(nh, pca);
    }
  }
}
