/**
 * The provider's API types (group infrastructure.cluster.x-k8s.io, version
 * v1alpha4). A Go struct is a datatype; a Go pointer is a reference to a
 * `Cell`; a Go slice is an `array?` whose `null` is the nil slice. Copying a
 * datatype therefore shares its cells and arrays, as copying a Go struct
 * shares its pointers and slices.
 */
module Types {
  import opened Wrappers
  import opened Meta

  /** A heap cell: the target of a Go pointer, as allocated by `new(T)`. */
  class Cell<T(0)> {
    var value: T

    constructor New() { }
  }

  datatype ChumichClusterSpec = ChumichClusterSpec(priority: string, request: string)

  /** The observed state: at most one optional completion token. */
  datatype ChumichClusterStatus = ChumichClusterStatus(messageID: Cell?<string>)

  datatype ChumichCluster = ChumichCluster(
    typeMeta: TypeMeta,
    objectMeta: ObjectMeta,
    spec: ChumichClusterSpec,
    status: ChumichClusterStatus)

  datatype ChumichClusterList = ChumichClusterList(
    typeMeta: TypeMeta,
    listMeta: ListMeta,
    items: array?<ChumichCluster>)

  datatype ChumichMachineSpec = ChumichMachineSpec(foo: string)

  datatype ChumichMachineStatus = ChumichMachineStatus()

  datatype ChumichMachine = ChumichMachine(
    typeMeta: TypeMeta,
    objectMeta: ObjectMeta,
    spec: ChumichMachineSpec,
    status: ChumichMachineStatus)

  datatype ChumichMachineList = ChumichMachineList(
    typeMeta: TypeMeta,
    listMeta: ListMeta,
    items: array?<ChumichMachine>)

  /**
   * The value of a ChumichCluster with its pointers followed: what the API
   * server stores and what "equal in value" compares.
   */
  datatype ClusterState = ClusterState(
    typeMeta: TypeMeta,
    objectMeta: ObjectMeta,
    spec: ChumichClusterSpec,
    messageID: Option<string>)

  /** The string `MessageID` points to, or None for a nil pointer. */
  function MessageIDValue(s: ChumichClusterStatus): (token: Option<string>)
    reads s.messageID
  {
    if s.messageID == null then None else Some(s.messageID.value)
  }

  function ClusterValue(c: ChumichCluster): (state: ClusterState)
    reads c.status.messageID
  {
    ClusterState(c.typeMeta, c.objectMeta, c.spec, MessageIDValue(c.status))
  }

  /** The cells the elements of a list point to. */
  function ItemCells(items: array?<ChumichCluster>): (cells: set<Cell<string>>)
    reads items
  {
    if items == null then {}
    else set i | 0 <= i < items.Length && items[i].status.messageID != null :: items[i].status.messageID
  }

  /** No two elements of a list point to the same cell. */
  predicate CellsDistinct(items: array?<ChumichCluster>)
    reads items
  {
    items != null ==>
      forall i, j :: 0 <= i < j < items.Length && items[i].status.messageID != null ==>
        items[i].status.messageID != items[j].status.messageID
  }
}
