/**
 * The data shapes of the editor: blocks, regions, schemas, presets and the
 * nested structures used for presets and copy/paste, plus the errors the
 * operations throw. Optional JavaScript fields are `Option`s.
 */
module Types {
  import opened Wrappers
  import opened Values

  /**
   * A block record. `children` is the ordered list of child ids; `parentId`
   * names the containing block, or is absent for a block that sits in a
   * region. `name`, `semanticId`, `repeated` and `ghost` are the fields the
   * commands add beyond the declared interface. `objectId` is not a field
   * of the source: it stands for the identity of the JavaScript object, so
   * that a command holding a reference to a block object can tell whether
   * the page still holds that same object.
   */
  datatype Block = Block(
    blockType: string,
    id: string,
    properties: Properties,
    disabled: Option<bool>,
    isStatic: Option<bool>,
    parentId: Option<string>,
    children: seq<string>,
    name: Option<string>,
    semanticId: Option<string>,
    repeated: Option<bool>,
    isGhost: Option<bool>,
    objectId: nat)

  /** A named top-level container holding an ordered list of block ids. */
  datatype Region = Region(name: string, blocks: seq<string>)

  /** A property declaration of a schema; only its id and default matter here. */
  datatype PropertyField = PropertyField(id: string, defaultValue: Option<Value>)

  /**
   * A nested block description (preset children, copied blocks). Every
   * reader of `children` treats an absent list as an empty one, so the
   * field is a plain list here.
   */
  datatype BlockStructure = BlockStructure(
    blockType: string,
    id: Option<string>,
    semanticId: Option<string>,
    name: Option<string>,
    properties: Option<Properties>,
    isStatic: Option<bool>,
    disabled: Option<bool>,
    repeated: Option<bool>,
    isGhost: Option<bool>,
    children: seq<BlockStructure>)

  /** A named starting configuration offered by a schema. */
  datatype Preset = Preset(
    name: Option<string>,
    properties: Option<Properties>,
    children: seq<BlockStructure>)

  /**
   * A block schema. `accepts` lists child-type patterns; `isPrivate` is the
   * schema's `private === true`; `metaName` is `meta.name`.
   */
  datatype BlockSchema = BlockSchema(
    blockType: string,
    properties: seq<PropertyField>,
    accepts: Option<seq<string>>,
    isPrivate: bool,
    metaName: Option<string>,
    presets: Option<seq<Preset>>)

  /** The exceptions the operations throw, one per message. */
  datatype Error =
    | AlreadyRegistered(blockType: string)
    | NotRegistered(blockType: string)
    | BlockNotFound(blockId: string)
    | ParentNotFound(parentId: string)
    | TargetParentNotFound(parentId: string)
    | CannotBeChild(childType: string, parentType: string)
    | PresetNotFound(presetIndex: int)
    | PresetMissing
    | FailedToCreate
    | NoRegions       // `regions[0].name` read on an empty region list (a TypeError)
    | UnknownBlock    // `block.type` read on an undefined block (a TypeError)
    | Diverges        // unbounded recursion over a cycle of children lists
}
