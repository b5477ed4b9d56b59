/** The display-name table the plugin fills in when it is initialised. */
module ObjectTypeNames {
  import opened Renga

  /** Russian display name of each object type the plugin reports by name. */
  const Names: map<ObjectType, string> := map[
    Column             := "Колонна",
    Beam               := "Балка",
    WallFoundation     := "Ленточный фундамент",
    Plate              := "Плитный фундамент",
    IsolatedFoundation := "Столбчатый фундамент",
    Railing            := "Перила",
    Door               := "Дверь",
    Floor              := "Перекрытие",
    Ramp               := "Пандус",
    Opening            := "Проем",
    Roof               := "Крыша",
    Stair              := "Лестница",
    Wall               := "Стена",
    Window             := "Окно"
  ]

  /** True when the plugin has a display name for `t`. */
  predicate IsNamed(t: ObjectType)
  {
    t in Names
  }

  /** The table names exactly the fourteen listed kinds and no other GUID. */
  lemma NamedKinds(t: ObjectType)
    ensures IsNamed(t) <==> !t.Unlisted?
  {
  }
}
