/**
 The "list of selected elements" action: count the selected objects per type,
 warn when nothing is selected, otherwise report one line per named type.
 */
module ElementsAction {
  import opened Renga
  import opened ObjectTypeNames
  import opened Sums

  /** Reference definition: how many objects of `objs` have type `t`. */
  function Count(objs: seq<ModelObject>, t: ObjectType): nat
  {
    if objs == [] then 0
    else (if objs[0].objectType == t then 1 else 0) + Count(objs[1..], t)
  }

  /** The count the tally holds for `t`, zero when `t` is not a key. */
  function CountOf(counts: map<ObjectType, nat>, t: ObjectType): nat
  {
    if t in counts then counts[t] else 0
  }

  /** One step of the tally loop: add one to the entry of `t`, creating it
      with 1 when it is missing. */
  function Bump(counts: map<ObjectType, nat>, t: ObjectType): (r: map<ObjectType, nat>)
    ensures r.Keys == counts.Keys + {t}
    ensures CountOf(r, t) == CountOf(counts, t) + 1
    ensures forall u :: u != t ==> CountOf(r, u) == CountOf(counts, u)
  {
    if t in counts then counts[t := counts[t] + 1] else counts[t := 1]
  }

  /** The tally loop: one pass over the selection, in selection order. */
  function Tally(objs: seq<ModelObject>): (counts: map<ObjectType, nat>)
    ensures counts.Keys == set o | o in objs :: o.objectType
    ensures forall t :: t in counts ==> counts[t] > 0
  {
    if objs == [] then map[]
    else
      var init := objs[..|objs| - 1];
      var last := objs[|objs| - 1];
      assert objs == init + [last];
      Bump(Tally(init), last.objectType)
  }

  lemma {:induction false} CountAppend(objs: seq<ModelObject>, o: ModelObject, t: ObjectType)
    ensures Count(objs + [o], t) == Count(objs, t) + (if o.objectType == t then 1 else 0)
  {
    if objs != [] {
      assert (objs + [o])[1..] == objs[1..] + [o];
      CountAppend(objs[1..], o, t);
    }
  }

  /** Every selected object adds exactly one to the count of its own type:
      the tally agrees with the reference count for every type. */
  lemma {:induction false} TallyCounts(objs: seq<ModelObject>, t: ObjectType)
    ensures CountOf(Tally(objs), t) == Count(objs, t)
    ensures t in Tally(objs) <==> Count(objs, t) > 0
  {
    if objs != [] {
      var init := objs[..|objs| - 1];
      var last := objs[|objs| - 1];
      assert objs == init + [last];
      TallyCounts(init, t);
      CountAppend(init, last, t);
    }
  }

  /** The weight of a tally entry in the sum of all entries: its count. */
  function AsReal(n: nat): real
  {
    n as real
  }

  /** One tally step adds one to the sum of the counts. */
  lemma SumBump(counts: map<ObjectType, nat>, t: ObjectType)
    ensures Sum(Bump(counts, t), AsReal) == Sum(counts, AsReal) + 1.0
  {
    var after := Bump(counts, t);
    SumRemove(after, t, AsReal);
    assert after - {t} == counts - {t};
    SumWithout(counts, t, AsReal);
  }

  /** The counts add up to the number of selected objects. */
  lemma {:induction false} TallySum(objs: seq<ModelObject>)
    ensures Sum(Tally(objs), AsReal) == |objs| as real
  {
    if objs != [] {
      var init := objs[..|objs| - 1];
      var last := objs[|objs| - 1];
      assert objs == init + [last];
      TallySum(init);
      SumBump(Tally(init), last.objectType);
    }
  }

  /** One line of the report: a type's display name and how many selected
      objects have that type. */
  datatype ElementLine = ElementLine(typeName: string, count: nat)

  /** What the action shows: the "select elements first" warning, or the
      report lines keyed by type (the source enumerates a dictionary, whose
      order is unspecified). */
  datatype ElementsOutcome =
    | SelectElementsFirst
    | ElementList(lines: map<ObjectType, ElementLine>)

  /** The whole handler on a selection. */
  function ElementsReport(selection: seq<ModelObject>): (r: ElementsOutcome)
    ensures r.SelectElementsFirst? <==> selection == []
    ensures r.ElementList? ==>
      forall t :: t in r.lines <==> IsNamed(t) && Count(selection, t) > 0
    ensures r.ElementList? ==>
      forall t :: t in r.lines ==> t in Names && r.lines[t] == ElementLine(Names[t], Count(selection, t))
  {
    var counts := Tally(selection);
    assert selection != [] ==> selection[0].objectType in counts;
    if |counts| == 0 then SelectElementsFirst
    else
      assert forall t :: CountOf(counts, t) == Count(selection, t) by {
        forall t ensures CountOf(counts, t) == Count(selection, t) {
          TallyCounts(selection, t);
        }
      }
      ElementList(map t | t in counts && t in Names :: ElementLine(Names[t], counts[t]))
  }

  lemma {:induction false} CountAbsent(objs: seq<ModelObject>, t: ObjectType)
    requires forall o :: o in objs ==> o.objectType != t
    ensures Count(objs, t) == 0
  {
    if objs != [] {
      assert objs[0] in objs;
      CountAbsent(objs[1..], t);
    }
  }

  /** A non-empty selection of types the plugin has no name for passes the
      emptiness check and yields a report without lines. */
  lemma {:induction false} UnnamedOnlySelection(selection: seq<ModelObject>)
    requires selection != []
    requires forall o :: o in selection ==> !IsNamed(o.objectType)
    ensures ElementsReport(selection) == ElementList(map[])
  {
    forall t | IsNamed(t)
      ensures Count(selection, t) == 0
    {
      CountAbsent(selection, t);
    }
  }
}
