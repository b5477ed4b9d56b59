/**
 The "volume by material" action: sum the net volume of the selected objects
 of the allowed categories per layered-material id, and report each bucket
 under its material's name.
 */
module VolumesAction {
  import opened Renga
  import opened ObjectTypeNames
  import opened Sums

  /** The categories whose volume is summed, in the order the empty-result
      message lists them. */
  const AllowedTypes: seq<ObjectType> :=
    [Floor, Wall, Roof, Beam, WallFoundation, Plate, IsolatedFoundation, Ramp]

  /** Name shown for a material id the manager cannot resolve. */
  const UnsetMaterialName: string := "не задан"

  /** An object takes part in the sum when its type equals an allowed type. */
  predicate Eligible(o: ModelObject)
  {
    o.objectType in AllowedTypes
  }

  /** Reference definition: the total volume of the eligible objects of
      `objs` whose material id is `k`. */
  function VolumeOf(objs: seq<ModelObject>, k: int): real
  {
    if objs == [] then 0.0 else Contribution(objs[0], k) + VolumeOf(objs[1..], k)
  }

  /** What object `o` adds to the bucket of material `k`. */
  function Contribution(o: ModelObject, k: int): real
  {
    if Eligible(o) && o.materialId == k then o.volume else 0.0
  }

  /** Reference definition: the total volume of all eligible objects. */
  function EligibleVolume(objs: seq<ModelObject>): real
  {
    if objs == [] then 0.0
    else (if Eligible(objs[0]) then objs[0].volume else 0.0) + EligibleVolume(objs[1..])
  }

  /** The material ids of the eligible objects. */
  ghost function EligibleMaterials(objs: seq<ModelObject>): set<int>
  {
    set o | o in objs && Eligible(o) :: o.materialId
  }

  /** One step of the summing loop: add `v` to the bucket `k`, creating the
      bucket holding `v` when it is missing. */
  function Accumulate(volumes: map<int, real>, k: int, v: real): (r: map<int, real>)
    ensures r.Keys == volumes.Keys + {k}
    ensures k in volumes ==> r[k] == volumes[k] + v
    ensures k !in volumes ==> r[k] == v
    ensures forall j :: j in volumes && j != k ==> r[j] == volumes[j]
  {
    if k in volumes then volumes[k := volumes[k] + v] else volumes[k := v]
  }

  /** The summing loop: one pass over the selection, in selection order. */
  function MaterialVolumes(objs: seq<ModelObject>): (volumes: map<int, real>)
    ensures volumes.Keys == EligibleMaterials(objs)
  {
    if objs == [] then map[]
    else
      var init := objs[..|objs| - 1];
      var last := objs[|objs| - 1];
      assert objs == init + [last];
      var acc := MaterialVolumes(init);
      if Eligible(last) then Accumulate(acc, last.materialId, last.volume) else acc
  }

  lemma {:induction false} VolumeOfAppend(objs: seq<ModelObject>, o: ModelObject, k: int)
    ensures VolumeOf(objs + [o], k)
         == VolumeOf(objs, k) + Contribution(o, k)
  {
    if objs != [] {
      assert (objs + [o])[1..] == objs[1..] + [o];
      VolumeOfAppend(objs[1..], o, k);
    }
  }

  lemma {:induction false} EligibleVolumeAppend(objs: seq<ModelObject>, o: ModelObject)
    ensures EligibleVolume(objs + [o])
         == EligibleVolume(objs) + (if Eligible(o) then o.volume else 0.0)
  {
    if objs != [] {
      assert (objs + [o])[1..] == objs[1..] + [o];
      EligibleVolumeAppend(objs[1..], o);
    }
  }

  /** Each eligible object's volume is added once, to the bucket of its own
      material id: every bucket holds the reference total for its id. */
  lemma {:induction false} MaterialVolumesExact(objs: seq<ModelObject>, k: int)
    ensures k in MaterialVolumes(objs) ==> MaterialVolumes(objs)[k] == VolumeOf(objs, k)
    ensures k !in MaterialVolumes(objs) ==> VolumeOf(objs, k) == 0.0
  {
    if objs != [] {
      var init := objs[..|objs| - 1];
      var last := objs[|objs| - 1];
      assert objs == init + [last];
      MaterialVolumesExact(init, k);
      VolumeOfAppend(init, last, k);
    }
  }

  /** The weight of a bucket in the sum of all buckets: its volume. */
  function Volume(v: real): real
  {
    v
  }

  /** Every eligible object has a bucket. */
  lemma EligibleHasBucket(objs: seq<ModelObject>, o: ModelObject)
    requires o in objs && Eligible(o)
    ensures o.materialId in MaterialVolumes(objs)
  {
    assert o.materialId in EligibleMaterials(objs);
  }

  /** Adding `v` to one bucket adds `v` to the sum of all buckets. */
  lemma SumAccumulate(volumes: map<int, real>, k: int, v: real)
    ensures Sum(Accumulate(volumes, k, v), Volume) == Sum(volumes, Volume) + v
  {
    var after := Accumulate(volumes, k, v);
    SumRemove(after, k, Volume);
    assert after - {k} == volumes - {k};
    SumWithout(volumes, k, Volume);
  }

  /** The buckets add up to the total eligible volume. */
  lemma {:induction false} MaterialVolumesTotal(objs: seq<ModelObject>)
    ensures Sum(MaterialVolumes(objs), Volume) == EligibleVolume(objs)
  {
    if objs != [] {
      var init := objs[..|objs| - 1];
      var last := objs[|objs| - 1];
      assert objs == init + [last];
      MaterialVolumesTotal(init);
      EligibleVolumeAppend(init, last);
      if Eligible(last) {
        SumAccumulate(MaterialVolumes(init), last.materialId, last.volume);
      }
    }
  }

  /** The eligible objects of `objs`, in order. */
  function EligibleOnly(objs: seq<ModelObject>): (r: seq<ModelObject>)
    ensures forall o :: o in r <==> o in objs && Eligible(o)
  {
    if objs == [] then []
    else (if Eligible(objs[0]) then [objs[0]] else []) + EligibleOnly(objs[1..])
  }

  /** Objects outside the allowed categories influence no bucket: dropping
      them leaves the result unchanged. */
  lemma {:induction false} IneligibleIgnored(objs: seq<ModelObject>)
    ensures MaterialVolumes(EligibleOnly(objs)) == MaterialVolumes(objs)
  {
    var a := MaterialVolumes(EligibleOnly(objs));
    var b := MaterialVolumes(objs);
    forall k | k in a
      ensures a[k] == b[k]
    {
      MaterialVolumesExact(EligibleOnly(objs), k);
      MaterialVolumesExact(objs, k);
      VolumeOfEligibleOnly(objs, k);
    }
  }

  lemma {:induction false} VolumeOfEligibleOnly(objs: seq<ModelObject>, k: int)
    ensures VolumeOf(EligibleOnly(objs), k) == VolumeOf(objs, k)
  {
    if objs != [] {
      VolumeOfEligibleOnly(objs[1..], k);
      var head := if Eligible(objs[0]) then [objs[0]] else [];
      VolumeOfConcat(head, EligibleOnly(objs[1..]), k);
    }
  }

  lemma {:induction false} VolumeOfConcat(a: seq<ModelObject>, b: seq<ModelObject>, k: int)
    ensures VolumeOf(a + b, k) == VolumeOf(a, k) + VolumeOf(b, k)
  {
    if a != [] {
      assert (a + b)[1..] == a[1..] + b;
      VolumeOfConcat(a[1..], b, k);
    } else {
      assert a + b == b;
    }
  }

  /** The result does not depend on the order of the selection. */
  lemma {:induction false} MaterialVolumesPermutation(a: seq<ModelObject>, b: seq<ModelObject>)
    requires multiset(a) == multiset(b)
    ensures MaterialVolumes(a) == MaterialVolumes(b)
  {
    assert EligibleMaterials(a) == EligibleMaterials(b) by {
      forall o ensures o in a <==> o in b {
        assert o in a <==> o in multiset(a);
        assert o in b <==> o in multiset(b);
      }
    }
    forall k | k in MaterialVolumes(a)
      ensures MaterialVolumes(a)[k] == MaterialVolumes(b)[k]
    {
      MaterialVolumesExact(a, k);
      MaterialVolumesExact(b, k);
      VolumeOfPermutation(a, b, k);
    }
  }

  lemma {:induction false} VolumeOfPermutation(a: seq<ModelObject>, b: seq<ModelObject>, k: int)
    requires multiset(a) == multiset(b)
    ensures VolumeOf(a, k) == VolumeOf(b, k)
    decreases |a|
  {
    if a != [] {
      assert a[0] in multiset(b);
      var i :| 0 <= i < |b| && b[i] == a[0];
      var rest := b[..i] + b[i + 1..];
      RemoveFromPermutation(a, b, i);
      VolumeOfPermutation(a[1..], rest, k);
      VolumeOfRemove(b, i, k);
    }
  }

  lemma RemoveFromPermutation(a: seq<ModelObject>, b: seq<ModelObject>, i: int)
    requires multiset(a) == multiset(b)
    requires a != [] && 0 <= i < |b| && b[i] == a[0]
    ensures multiset(a[1..]) == multiset(b[..i] + b[i + 1..])
  {
    assert a == [a[0]] + a[1..];
    assert b == b[..i] + [b[i]] + b[i + 1..];
    assert multiset(a[1..]) == multiset(a) - multiset{a[0]};
    assert multiset(b[..i] + b[i + 1..]) == multiset(b) - multiset{b[i]};
  }

  lemma VolumeOfRemove(b: seq<ModelObject>, i: int, k: int)
    requires 0 <= i < |b|
    ensures VolumeOf(b, k) == Contribution(b[i], k) + VolumeOf(b[..i] + b[i + 1..], k)
  {
    var tail := [b[i]] + b[i + 1..];
    assert b == b[..i] + tail;
    assert tail[1..] == b[i + 1..];
    VolumeOfConcat(b[..i], tail, k);
    VolumeOfConcat(b[..i], b[i + 1..], k);
  }

  /** One numbered line of the "no object from the allowed categories"
      message. */
  datatype CategoryLine = CategoryLine(number: nat, typeName: string)

  /** One bucket of the report: the material's display name and its volume. */
  datatype VolumeLine = VolumeLine(materialName: string, volume: real)

  /** What the action shows: the list of allowed categories when no selected
      object is eligible, otherwise one line per material id (the source
      enumerates a dictionary, whose order is unspecified). */
  datatype VolumesOutcome =
    | NoAllowedCategory(categories: seq<CategoryLine>)
    | VolumeList(lines: map<int, VolumeLine>)

  /** The display name of material `k`; an id the manager cannot resolve is
      shown under a fixed name rather than dropped. */
  function MaterialName(manager: MaterialManager, k: int): string
  {
    if k in manager then manager[k].name else UnsetMaterialName
  }

  /** The numbered list of allowed categories, numbered from 1. */
  function AllowedCategories(): (lines: seq<CategoryLine>)
    ensures |lines| == |AllowedTypes|
    ensures forall i :: 0 <= i < |lines| ==>
      AllowedTypes[i] in Names && lines[i] == CategoryLine(i + 1, Names[AllowedTypes[i]])
  {
    seq(|AllowedTypes|, i requires 0 <= i < |AllowedTypes| => CategoryLine(i + 1, Names[AllowedTypes[i]]))
  }

  /** The whole handler on a selection and the project's material manager. */
  function VolumesReport(selection: seq<ModelObject>, manager: MaterialManager): (r: VolumesOutcome)
    ensures r.NoAllowedCategory? <==> forall o :: o in selection ==> !Eligible(o)
    ensures r.NoAllowedCategory? ==> r.categories == AllowedCategories()
    ensures r.VolumeList? ==>
      forall k :: k in r.lines <==> exists o :: o in selection && Eligible(o) && o.materialId == k
    ensures r.VolumeList? ==>
      forall k :: k in r.lines ==>
        && r.lines[k].volume == VolumeOf(selection, k)
        && r.lines[k].materialName == (if k in manager then manager[k].name else UnsetMaterialName)
  {
    var volumes := MaterialVolumes(selection);
    assert forall o :: o in selection && Eligible(o) ==> o.materialId in volumes by {
      forall o | o in selection && Eligible(o) ensures o.materialId in volumes {
        EligibleHasBucket(selection, o);
      }
    }
    if |volumes| == 0 then
      NoAllowedCategory(AllowedCategories())
    else
      assert forall k :: k in volumes ==> volumes[k] == VolumeOf(selection, k) by {
        forall k | k in volumes ensures volumes[k] == VolumeOf(selection, k) {
          MaterialVolumesExact(selection, k);
        }
      }
      VolumeList(map k | k in volumes :: VolumeLine(MaterialName(manager, k), volumes[k]))
  }

  /** Two walls of material 7 and a door of material 3: the door is not an
      allowed category, the walls share one bucket. */
  lemma WallsAndDoor()
    ensures MaterialVolumes([ModelObject(1, Wall, 2.5, 7), ModelObject(2, Wall, 1.5, 7), ModelObject(3, Door, 10.0, 3)])
         == map[7 := 4.0]
  {
  }
}
