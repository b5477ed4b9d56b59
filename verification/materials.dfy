/**
 The "materials in the project" action: scan material ids 0..999, skip the
 ids with no material, and list each material as single-layer (exactly one
 layer) or multi-layer (any other layer count, zero included).
 */
module MaterialsAction {
  import opened Renga

  /** The scan covers material ids 0 up to, but excluding, this bound. */
  const ScanLimit: nat := 1000

  /** Strictly increasing, hence in scan order and without repeats. */
  predicate Ascending(ids: seq<int>)
  {
    forall i, j :: 0 <= i < j < |ids| ==> ids[i] < ids[j]
  }

  /** The ids below `n` that the manager resolves to a material. */
  ghost function Present(manager: MaterialManager, n: nat): set<int>
  {
    set id | 0 <= id < n && id in manager
  }

  /** The two lists the scan builds, as material ids. */
  datatype Partition = Partition(singleLayer: seq<int>, multiLayer: seq<int>)

  /** The scan over ids 0..n-1 in ascending order. */
  function Scan(manager: MaterialManager, n: nat): (p: Partition)
    ensures Ascending(p.singleLayer) && Ascending(p.multiLayer)
    ensures forall id :: id in p.singleLayer <==>
      0 <= id < n && id in manager && manager[id].layerCount == 1
    ensures forall id :: id in p.multiLayer <==>
      0 <= id < n && id in manager && manager[id].layerCount != 1
  {
    if n == 0 then Partition([], [])
    else
      var p := Scan(manager, n - 1);
      var id := n - 1;
      if id !in manager then p
      else if manager[id].layerCount == 1 then
        AppendAscending(p.singleLayer, id);
        Partition(p.singleLayer + [id], p.multiLayer)
      else
        AppendAscending(p.multiLayer, id);
        Partition(p.singleLayer, p.multiLayer + [id])
  }

  lemma AppendAscending(ids: seq<int>, id: int)
    requires Ascending(ids)
    requires forall x :: x in ids ==> x < id
    ensures Ascending(ids + [id])
  {
    forall i, j | 0 <= i < j < |ids| + 1
      ensures (ids + [id])[i] < (ids + [id])[j]
    {
      if j == |ids| {
        assert ids[i] in ids;
      }
    }
  }

  /** The partition of the ids the action scans. */
  function PartitionMaterials(manager: MaterialManager): Partition
  {
    Scan(manager, ScanLimit)
  }

  /** Every present material lands in exactly one list: together the lists
      are as long as there are present ids. */
  lemma {:induction false} ScanCount(manager: MaterialManager, n: nat)
    ensures |Scan(manager, n).singleLayer| + |Scan(manager, n).multiLayer| == |Present(manager, n)|
  {
    if n > 0 {
      ScanCount(manager, n - 1);
      ScanStep(manager, n);
      PresentStep(manager, n);
    }
  }

  lemma ScanStep(manager: MaterialManager, n: nat)
    requires n > 0
    ensures |Scan(manager, n).singleLayer| + |Scan(manager, n).multiLayer|
         == |Scan(manager, n - 1).singleLayer| + |Scan(manager, n - 1).multiLayer|
            + (if n - 1 in manager then 1 else 0)
  {
  }

  lemma PresentStep(manager: MaterialManager, n: nat)
    requires n > 0
    ensures |Present(manager, n)| == |Present(manager, n - 1)| + (if n - 1 in manager then 1 else 0)
  {
    var id := n - 1;
    assert id !in Present(manager, n - 1);
    if id in manager {
      assert Present(manager, n) == Present(manager, n - 1) + {id};
    } else {
      assert Present(manager, n) == Present(manager, n - 1);
    }
  }

  /** Materials beyond the scan bound are never listed. */
  lemma BeyondLimitIgnored(manager: MaterialManager, id: int)
    requires id in manager && id >= ScanLimit
    ensures id !in PartitionMaterials(manager).singleLayer
    ensures id !in PartitionMaterials(manager).multiLayer
  {
  }

  /** One line of the report: id and name, and for a multi-layer material
      also its number of layers. */
  datatype MaterialLine =
    | SingleLayerLine(id: int, name: string)
    | MultiLayerLine(id: int, name: string, layers: nat)

  /** The two message bodies the action shows, line by line. */
  datatype MaterialsOutcome = MaterialsOutcome(singleLayer: seq<MaterialLine>, multiLayer: seq<MaterialLine>)

  /** `line` is the single-layer line of a scanned material with exactly one layer. */
  ghost predicate ShowsSingleLayer(manager: MaterialManager, line: MaterialLine)
  {
    exists id :: 0 <= id < ScanLimit && id in manager && manager[id].layerCount == 1 &&
      line == SingleLayerLine(manager[id].id, manager[id].name)
  }

  /** `line` is the multi-layer line of a scanned material whose layer count is not one. */
  ghost predicate ShowsMultiLayer(manager: MaterialManager, line: MaterialLine)
  {
    exists id :: 0 <= id < ScanLimit && id in manager && manager[id].layerCount != 1 &&
      line == MultiLayerLine(manager[id].id, manager[id].name, manager[id].layerCount)
  }

  /** The whole handler on the project's material manager. */
  function MaterialsReport(manager: MaterialManager): (r: MaterialsOutcome)
    ensures |r.singleLayer| + |r.multiLayer| == |Present(manager, ScanLimit)|
    ensures forall j :: 0 <= j < |r.singleLayer| ==> ShowsSingleLayer(manager, r.singleLayer[j])
    ensures forall j :: 0 <= j < |r.multiLayer| ==> ShowsMultiLayer(manager, r.multiLayer[j])
    ensures var p := PartitionMaterials(manager);
      && |r.singleLayer| == |p.singleLayer|
      && forall j :: 0 <= j < |p.singleLayer| ==>
           r.singleLayer[j] == SingleLayerLine(manager[p.singleLayer[j]].id, manager[p.singleLayer[j]].name)
    ensures var p := PartitionMaterials(manager);
      && |r.multiLayer| == |p.multiLayer|
      && forall j :: 0 <= j < |p.multiLayer| ==>
           r.multiLayer[j] == MultiLayerLine(manager[p.multiLayer[j]].id, manager[p.multiLayer[j]].name,
                                             manager[p.multiLayer[j]].layerCount)
  {
    var p := PartitionMaterials(manager);
    ScanCount(manager, ScanLimit);
    var out := MaterialsOutcome(
      seq(|p.singleLayer|, j requires 0 <= j < |p.singleLayer| =>
        var m := manager[p.singleLayer[j]]; SingleLayerLine(m.id, m.name)),
      seq(|p.multiLayer|, j requires 0 <= j < |p.multiLayer| =>
        var m := manager[p.multiLayer[j]]; MultiLayerLine(m.id, m.name, m.layerCount)));
    assert |out.singleLayer| == |p.singleLayer| && |out.multiLayer| == |p.multiLayer|;
    forall j | 0 <= j < |out.singleLayer|
      ensures exists id ::
                0 <= id < ScanLimit && id in manager && manager[id].layerCount == 1 &&
                out.singleLayer[j] == SingleLayerLine(manager[id].id, manager[id].name)
    {
      var id := p.singleLayer[j];
      assert id in p.singleLayer;
      assert out.singleLayer[j] == SingleLayerLine(manager[id].id, manager[id].name);
    }
    forall j | 0 <= j < |out.multiLayer|
      ensures exists id ::
                0 <= id < ScanLimit && id in manager && manager[id].layerCount != 1 &&
                out.multiLayer[j] == MultiLayerLine(manager[id].id, manager[id].name, manager[id].layerCount)
    {
      var id := p.multiLayer[j];
      assert id in p.multiLayer;
      assert out.multiLayer[j] == MultiLayerLine(manager[id].id, manager[id].name, manager[id].layerCount);
    }
    out
  }
}
