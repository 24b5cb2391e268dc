/** The boundary of the spatial index (`KDTree3D`) that the estimator queries.
    Its construction and search algorithms are not part of this model: the
    three queries are opaque function values, and the only thing the estimator
    relies on is that every index they return names a point of the indexed set. */
module SpatialIndex {
  import opened Geometry

  /** The three read-only queries of a built index. Each returns the indices of
      the neighbours found (the distances the index also returns are unused by
      the estimator and are dropped here). The radius argument of the last two
      is the SQUARED search radius. */
  datatype KDTree3D = KDTree3D(
    kNNSearch: (Vec3, nat) -> seq<nat>,
    radiusSearch: (Vec3, real) -> seq<nat>,
    kNNInRadiusSearch: (Vec3, nat, real) -> seq<nat>)
  {
    /** Every index any query can return is below `n`: the index was built over
        (or is consistent with) a point set of `n` points. */
    ghost predicate IndexesBelow(n: nat) {
      (forall q: Vec3, k: nat :: AllBelow(kNNSearch(q, k), n)) &&
      (forall q: Vec3, rSq: real :: AllBelow(radiusSearch(q, rSq), n)) &&
      (forall q: Vec3, k: nat, rSq: real :: AllBelow(kNNInRadiusSearch(q, k, rSq), n))
    }
  }

  predicate AllBelow(indices: seq<nat>, n: nat) {
    forall j :: 0 <= j < |indices| ==> indices[j] < n
  }

  /** The tag of a neighbourhood descriptor: a closed choice of exactly one
      search strategy. */
  datatype NeighborhoodType = Knn | Radius | KnnInRadius

  /** `KDTree3D::Neighborhood`: the tag plus both parameters; which of the
      parameters are used depends on the tag. (The C++ field is named `type`.) */
  datatype Neighborhood = Neighborhood(kind: NeighborhoodType, maxNumberOfNeighbors: nat, radius: real)
}
