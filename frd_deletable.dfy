/** `FRDDeletable`: a database record, or the id of a deleted one. */
module FRDDeletable {
  import ProjectTypes

  datatype FRDDeletable<T, Id> = Item(value: T) | Deleted(id: Id)

  /** `init(_:)` from an `IDeletable`: case by case. */
  function FromDeletable<T, Id>(d: ProjectTypes.Deletable<T, Id>): (r: FRDDeletable<T, Id>)
    ensures d.Item? <==> r.Item?
    ensures d.Item? ==> r.value == d.value
    ensures d.Deleted? ==> r.id == d.id
  {
    match d
    case Item(v) => Item(v)
    case Deleted(id) => Deleted(id)
  }

  /** `concreteDeletable`: case by case. */
  function ConcreteDeletable<T, Id>(d: FRDDeletable<T, Id>): (r: ProjectTypes.Deletable<T, Id>)
    ensures d.Item? <==> r.Item?
    ensures d.Item? ==> r.value == d.value
    ensures d.Deleted? ==> r.id == d.id
  {
    match d
    case Item(v) => ProjectTypes.Item(v)
    case Deleted(id) => ProjectTypes.Deleted(id)
  }

  /** The two conversions are mutually inverse. */
  lemma RoundTrips<T, Id>(d: FRDDeletable<T, Id>, p: ProjectTypes.Deletable<T, Id>)
    ensures FromDeletable(ConcreteDeletable(d)) == d
    ensures ConcreteDeletable(FromDeletable(p)) == p
  {
  }
}
