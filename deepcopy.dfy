/**
 * The generated deep-copy routines of the v1alpha4 API types.
 *
 * `DeepCopyInto(out)` overwrites all of `*out`, so, for an `out` that is not
 * `in` itself, it is modelled by the value it writes there. `DeepCopy` takes and returns a possibly-nil pointer, a
 * `Cell?`. None of these methods has a `modifies` clause: the receiver, and
 * everything reachable from it, is left unmodified.
 */
module DeepCopy {
  import opened Wrappers
  import opened Types

  // ChumichCluster

  /** A copy equal in value whose `MessageID`, when set, is a new cell. */
  method ChumichClusterDeepCopyInto(inp: ChumichCluster) returns (out: ChumichCluster)
    ensures ClusterValue(out) == ClusterValue(inp)
    ensures out.status.messageID != null ==> fresh(out.status.messageID)
  {
    out := inp;
    out := out.(typeMeta := inp.typeMeta);
    // ObjectMeta belongs to a foreign package: it is a value here, already copied.
    out := out.(spec := inp.spec);
    var status := ChumichClusterStatusDeepCopyInto(inp.status);
    out := out.(status := status);
  }

  method ChumichClusterDeepCopy(inp: Cell?<ChumichCluster>) returns (out: Cell?<ChumichCluster>)
    ensures (out == null) == (inp == null)
    ensures out != null ==> fresh(out) && ClusterValue(out.value) == ClusterValue(inp.value)
    ensures out != null && out.value.status.messageID != null ==>
      fresh(out.value.status.messageID)
  {
    if inp == null {
      return null;
    }
    out := new Cell<ChumichCluster>.New();
    out.value := ChumichClusterDeepCopyInto(inp.value);
  }

  // ChumichClusterList

  method ChumichClusterListDeepCopyInto(inp: ChumichClusterList) returns (out: ChumichClusterList)
    ensures out.typeMeta == inp.typeMeta && out.listMeta == inp.listMeta
    ensures (out.items == null) == (inp.items == null)
    ensures out.items != null ==>
      out.items != inp.items && out.items.Length == inp.items.Length &&
      forall i :: 0 <= i < out.items.Length ==> ClusterValue(out.items[i]) == ClusterValue(inp.items[i])
    ensures out.items != null ==> fresh(out.items)
    ensures forall c :: c in ItemCells(out.items) ==> fresh(c)
    ensures ItemCells(out.items) !! ItemCells(inp.items)
    ensures CellsDistinct(out.items)
  {
    out := inp;
    out := out.(typeMeta := inp.typeMeta);
    // ListMeta belongs to a foreign package: it is a value here, already copied.
    if inp.items != null {
      var src := inp.items;
      var dst := new ChumichCluster[src.Length];
      for i := 0 to src.Length
        invariant forall k :: 0 <= k < i ==> ClusterValue(dst[k]) == ClusterValue(src[k])
        invariant forall k :: 0 <= k < i && dst[k].status.messageID != null ==> fresh(dst[k].status.messageID)
        invariant forall k, l :: 0 <= k < l < i && dst[k].status.messageID != null ==>
          dst[k].status.messageID != dst[l].status.messageID
      {
        dst[i] := ChumichClusterDeepCopyInto(src[i]);
      }
      out := out.(items := dst);
    }
  }

  method ChumichClusterListDeepCopy(inp: Cell?<ChumichClusterList>) returns (out: Cell?<ChumichClusterList>)
    ensures (out == null) == (inp == null)
    ensures out != null ==>
      fresh(out) && out.value.typeMeta == inp.value.typeMeta && out.value.listMeta == inp.value.listMeta &&
      (out.value.items == null) == (inp.value.items == null)
    ensures out != null && out.value.items != null ==>
      fresh(out.value.items) && out.value.items.Length == inp.value.items.Length &&
      forall i :: 0 <= i < out.value.items.Length ==>
        ClusterValue(out.value.items[i]) == ClusterValue(inp.value.items[i])
    ensures out != null ==> forall c :: c in ItemCells(out.value.items) ==> fresh(c)
    ensures out != null ==> ItemCells(out.value.items) !! ItemCells(inp.value.items) && CellsDistinct(out.value.items)
  {
    if inp == null {
      return null;
    }
    out := new Cell<ChumichClusterList>.New();
    out.value := ChumichClusterListDeepCopyInto(inp.value);
  }

  // ChumichClusterSpec

  method ChumichClusterSpecDeepCopyInto(inp: ChumichClusterSpec) returns (out: ChumichClusterSpec)
    ensures out == inp
  {
    out := inp;
  }

  method ChumichClusterSpecDeepCopy(inp: Cell?<ChumichClusterSpec>) returns (out: Cell?<ChumichClusterSpec>)
    ensures (out == null) == (inp == null)
    ensures out != null ==> fresh(out) && out.value == inp.value
  {
    if inp == null {
      return null;
    }
    out := new Cell<ChumichClusterSpec>.New();
    out.value := ChumichClusterSpecDeepCopyInto(inp.value);
  }

  // ChumichClusterStatus

  /** Same token; a set `MessageID` is copied into a newly allocated cell. */
  method ChumichClusterStatusDeepCopyInto(inp: ChumichClusterStatus) returns (out: ChumichClusterStatus)
    ensures MessageIDValue(out) == MessageIDValue(inp)
    ensures out.messageID != null ==> fresh(out.messageID)
  {
    out := inp;
    if inp.messageID != null {
      var cell := new Cell<string>.New();
      cell.value := inp.messageID.value;
      out := out.(messageID := cell);
    }
  }

  method ChumichClusterStatusDeepCopy(inp: Cell?<ChumichClusterStatus>) returns (out: Cell?<ChumichClusterStatus>)
    ensures (out == null) == (inp == null)
    ensures out != null ==> fresh(out) && MessageIDValue(out.value) == MessageIDValue(inp.value)
    ensures out != null && out.value.messageID != null ==> fresh(out.value.messageID)
  {
    if inp == null {
      return null;
    }
    out := new Cell<ChumichClusterStatus>.New();
    out.value := ChumichClusterStatusDeepCopyInto(inp.value);
  }

  /**
   * Writing a new token through the copy's `MessageID` leaves the token of
   * the original as it was.
   */
  method WriteThroughCopyLeavesOriginal(inp: ChumichClusterStatus, token: string, newToken: string)
    returns (copy: ChumichClusterStatus)
    requires MessageIDValue(inp) == Some(token)
    ensures MessageIDValue(copy) == Some(newToken)
    ensures MessageIDValue(inp) == Some(token)
  {
    copy := ChumichClusterStatusDeepCopyInto(inp);
    copy.messageID.value := newToken;
  }

  // ChumichMachine

  method ChumichMachineDeepCopyInto(inp: ChumichMachine) returns (out: ChumichMachine)
    ensures out == inp
  {
    out := inp;
    out := out.(typeMeta := inp.typeMeta);
    // ObjectMeta belongs to a foreign package: it is a value here, already copied.
    out := out.(spec := inp.spec);
    out := out.(status := inp.status);
  }

  method ChumichMachineDeepCopy(inp: Cell?<ChumichMachine>) returns (out: Cell?<ChumichMachine>)
    ensures (out == null) == (inp == null)
    ensures out != null ==> fresh(out) && out.value == inp.value
  {
    if inp == null {
      return null;
    }
    out := new Cell<ChumichMachine>.New();
    out.value := ChumichMachineDeepCopyInto(inp.value);
  }

  // ChumichMachineList

  method ChumichMachineListDeepCopyInto(inp: ChumichMachineList) returns (out: ChumichMachineList)
    ensures out.typeMeta == inp.typeMeta && out.listMeta == inp.listMeta
    ensures (out.items == null) == (inp.items == null)
    ensures out.items != null ==> fresh(out.items) && out.items[..] == inp.items[..]
  {
    out := inp;
    out := out.(typeMeta := inp.typeMeta);
    // ListMeta belongs to a foreign package: it is a value here, already copied.
    if inp.items != null {
      var src := inp.items;
      var dst := new ChumichMachine[src.Length];
      for i := 0 to src.Length
        invariant dst[..i] == src[..i]
      {
        dst[i] := ChumichMachineDeepCopyInto(src[i]);
      }
      out := out.(items := dst);
    }
  }

  method ChumichMachineListDeepCopy(inp: Cell?<ChumichMachineList>) returns (out: Cell?<ChumichMachineList>)
    ensures (out == null) == (inp == null)
    ensures out != null ==>
      fresh(out) && out.value.typeMeta == inp.value.typeMeta && out.value.listMeta == inp.value.listMeta &&
      (out.value.items == null) == (inp.value.items == null)
    ensures out != null && out.value.items != null ==>
      fresh(out.value.items) && out.value.items[..] == inp.value.items[..]
  {
    if inp == null {
      return null;
    }
    out := new Cell<ChumichMachineList>.New();
    out.value := ChumichMachineListDeepCopyInto(inp.value);
  }

  // ChumichMachineSpec

  method ChumichMachineSpecDeepCopyInto(inp: ChumichMachineSpec) returns (out: ChumichMachineSpec)
    ensures out == inp
  {
    out := inp;
  }

  method ChumichMachineSpecDeepCopy(inp: Cell?<ChumichMachineSpec>) returns (out: Cell?<ChumichMachineSpec>)
    ensures (out == null) == (inp == null)
    ensures out != null ==> fresh(out) && out.value == inp.value
  {
    if inp == null {
      return null;
    }
    out := new Cell<ChumichMachineSpec>.New();
    out.value := ChumichMachineSpecDeepCopyInto(inp.value);
  }

  // ChumichMachineStatus

  method ChumichMachineStatusDeepCopyInto(inp: ChumichMachineStatus) returns (out: ChumichMachineStatus)
    ensures out == inp
  {
    out := inp;
  }

  method ChumichMachineStatusDeepCopy(inp: Cell?<ChumichMachineStatus>) returns (out: Cell?<ChumichMachineStatus>)
    ensures (out == null) == (inp == null)
    ensures out != null ==> fresh(out) && out.value == inp.value
  {
    if inp == null {
      return null;
    }
    out := new Cell<ChumichMachineStatus>.New();
    out.value := ChumichMachineStatusDeepCopyInto(inp.value);
  }
}
