/** Resource keys and the overlap test that decides whether two keys collide
    (crates/stateful-core/src/resource.rs). */
module Resources {
  import opened Basics

  datatype ResourceKind = Object | Entry | DirectoryTree

  /** The physical identity of a resource. A resource id names its kind by its
      prefix, so the kind is part of the identity. */
  datatype ResourceId = ResourceId(kind: ResourceKind, name: string)

  datatype ResourceKey = ResourceKey(workspace: Name, id: ResourceId, path: string)

  predicate PathContains(directory: string, path: string) {
    directory == "" || (directory < path && path[|directory|] == '/')
  }

  predicate Overlap(left: ResourceKey, right: ResourceKey) {
    && left.workspace == right.workspace
    && (|| left.id == right.id
        || left.path == right.path
        || (left.id.kind == DirectoryTree && PathContains(left.path, right.path))
        || (right.id.kind == DirectoryTree && PathContains(right.path, left.path)))
  }

  /** The keys held by one lease or request: at most one path for each identity.
      This is the sorted, duplicate-free vector of the source. */
  type ResourceSet = map<ResourceId, string>

  /** The first path seen for an identity is kept. */
  function Merge(target: ResourceSet, additions: ResourceSet): (r: ResourceSet)
    ensures r.Keys == target.Keys + additions.Keys
    ensures forall i :: i in target ==> r[i] == target[i]
  {
    additions + target
  }

  /** Some key of one set overlaps some key of the other. */
  predicate Clash(w1: Name, r1: ResourceSet, w2: Name, r2: ResourceSet) {
    exists i, j :: i in r1 && j in r2 && Overlap(ResourceKey(w1, i, r1[i]), ResourceKey(w2, j, r2[j]))
  }
}
