/**
 The part of the host's object model that the plugin reads, reduced to plain
 records. Selection retrieval, `GetById`, quantity and parameter lookup and the
 layered-material manager are calls into the closed host API; here their
 answers are the fields of these records.
 */
module Renga {

  /** The host's object-type GUIDs. The fourteen kinds the plugin names are
      listed; every other GUID the host may report is `Unlisted`. Types are
      compared by exact identity, as GUIDs are. */
  datatype ObjectType =
    | Column
    | Beam
    | WallFoundation
    | Plate
    | IsolatedFoundation
    | Railing
    | Door
    | Floor
    | Ramp
    | Opening
    | Roof
    | Stair
    | Wall
    | Window
    | Unlisted(guid: int)

  /** A selected model object as the handlers see it: its id, its type, its
      net volume in cubic metres and the integer value of its
      layered-material-style parameter. */
  datatype ModelObject = ModelObject(id: int, objectType: ObjectType, volume: real, materialId: int)

  /** A layered material: its id, display name and number of layers. */
  datatype LayeredMaterial = LayeredMaterial(id: int, name: string, layerCount: nat)

  /** The project's layered-material manager: a material id that is not a key
      is one for which the host returns null. */
  type MaterialManager = map<int, LayeredMaterial>
}
