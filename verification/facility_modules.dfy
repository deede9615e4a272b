/** Facility modules: entities attached to a facility that carry a production
    table (what the module consumes and produces per cycle) and possibly a
    storage bonus, created from named templates. */
module FacilityModules {
  import opened Common

  /** Production and consumption of one commodity per cycle (`PAC`). */
  datatype PAC = PAC(consumes: int, produces: int)

  /** `ProductionModuleInput`: `pac` may list only some commodities. */
  datatype ModuleInput = ModuleInput(
    name: string,
    pac: Option<map<Commodity, PAC>>,
    parent: EntityId,
    storage: Option<int>)

  /** The input of a template: everything but the parent. */
  datatype Template = Template(name: string, pac: Option<map<Commodity, PAC>>, storage: Option<int>)

  /** The components of a created module, as a value. */
  datatype ModuleRecord = ModuleRecord(
    parent: EntityId,
    name: string,
    production: Option<map<Commodity, PAC>>,
    storageBonus: Option<int>)

  /** `new Production(pac)`: a commodity the partial table leaves out
      neither consumes nor produces. (The production component is not part
      of this model; this is the reading its callers rely on.) */
  function Production(pac: map<Commodity, PAC>): (p: map<Commodity, PAC>)
    ensures Total(p)
    ensures forall c: Commodity :: c in pac ==> p[c] == pac[c]
    ensures forall c: Commodity :: c !in pac ==> p[c] == PAC(0, 0)
  {
    AllCommoditiesListed();
    map c | c in CommoditySet :: if c in pac then pac[c] else PAC(0, 0)
  }

  /** What `createFacilityModule` attaches: a parent and a name always, a
      production component iff a table is given, a storage bonus iff the
      storage is given and truthy (nonzero). */
  function ModuleOf(input: ModuleInput): (m: ModuleRecord)
    ensures m.parent == input.parent && m.name == input.name
    ensures m.production.Some? <==> input.pac.Some?
    ensures m.storageBonus.Some? <==> input.storage.Some? && input.storage.value != 0
    ensures m.storageBonus.Some? ==> m.storageBonus.value == input.storage.value
  {
    ModuleRecord(
      input.parent,
      input.name,
      if input.pac.Some? then Some(Production(input.pac.value)) else None,
      if input.storage.Some? && input.storage.value != 0 then input.storage else None)
  }

  /** A facility module entity; its components are assigned one by one. */
  class FacilityModule {
    var parent: EntityId
    var name: string
    var production: Option<map<Commodity, PAC>>
    var storageBonus: Option<int>

    function Record(): ModuleRecord
      reads this
    {
      ModuleRecord(parent, name, production, storageBonus)
    }

    /** `createFacilityModule` (the fresh entity id and its registration in
        the simulation are not modelled). */
    constructor (input: ModuleInput)
      ensures Record() == ModuleOf(input)
    {
      parent := input.parent;
      name := input.name;
      production := None;
      storageBonus := None;
      new;
      if input.pac.Some? {
        production := Some(Production(input.pac.value));
      }
      if input.storage.Some? && input.storage.value != 0 {
        storageBonus := input.storage;
      }
    }
  }

  function WithParent(t: Template, parent: EntityId): (input: ModuleInput)
    ensures input.name == t.name && input.pac == t.pac && input.storage == t.storage
    ensures input.parent == parent
  {
    ModuleInput(t.name, t.pac, parent, t.storage)
  }

  /** `createFacilityModuleTemplate(t)(sim, parent)`: the template's fields plus the parent. */
  method Instantiate(t: Template, parent: EntityId) returns (m: FacilityModule)
    ensures fresh(m)
    ensures m.Record() == ModuleOf(WithParent(t, parent))
  {
    m := new FacilityModule(WithParent(t, parent));
  }

  // ---------------------------------------------------------------------------
  // The `facilityModules` table.

  const WaterTemplate: Template := Template("Water Production", Some(map[
    Ice := PAC(20, 0),
    Water := PAC(0, 10)]), None)

  const FarmTemplate: Template := Template("Farm", Some(map[
    Food := PAC(0, 15),
    Fuel := PAC(1, 0),
    Water := PAC(30, 0)]), None)

  const RefineryTemplate: Template := Template("Refinery", Some(map[
    Food := PAC(2, 0),
    Ore := PAC(20, 0),
    Metals := PAC(0, 15),
    Fuel := PAC(2, 0)]), None)

  const FuelFabricationTemplate: Template := Template("Fuel Fabrication", Some(map[
    Fuelium := PAC(20, 0),
    Fuel := PAC(0, 10)]), None)

  const HabitatTemplate: Template := Template("Habitation Zone", Some(map[
    Food := PAC(5, 0)]), None)

  const HullPlatesTemplate: Template := Template("Hull Plates Production", Some(map[
    Food := PAC(2, 0),
    Fuel := PAC(7, 0),
    Metals := PAC(25, 0),
    HullPlates := PAC(0, 70)]), None)

  const ShipyardTemplate: Template := Template("Shipyard", Some(map[
    Food := PAC(10, 0),
    Fuel := PAC(15, 0),
    HullPlates := PAC(400, 0)]), None)

  const ContainerSmallTemplate: Template := Template("Small Container", None, Some(1000))

  const Table: seq<Template> := [
    WaterTemplate, FarmTemplate, RefineryTemplate, FuelFabricationTemplate,
    HabitatTemplate, HullPlatesTemplate, ShipyardTemplate, ContainerSmallTemplate]

  /** Every listed commodity is either an input or an output of its module, never both. */
  predicate OneSided(t: Template)
  {
    t.pac.Some? ==> forall c :: c in t.pac.value ==> t.pac.value[c].consumes == 0 || t.pac.value[c].produces == 0
  }

  lemma TableIsOneSided()
    ensures forall i :: 0 <= i < |Table| ==> OneSided(Table[i])
  {
  }

  /** A refinery built for `parent` turns 20 ore, 2 food and 2 fuel into 15
      metals and touches no other commodity; a small container produces
      nothing and adds 1000 units of storage. */
  lemma RefineryAndContainer(parent: EntityId)
    ensures var m := ModuleOf(WithParent(RefineryTemplate, parent));
      && m.production.Some? && m.storageBonus.None?
      && m.production.value[Ore] == PAC(20, 0) && m.production.value[Food] == PAC(2, 0)
      && m.production.value[Fuel] == PAC(2, 0) && m.production.value[Metals] == PAC(0, 15)
      && (forall c: Commodity :: c !in {Ore, Food, Fuel, Metals} ==> m.production.value[c] == PAC(0, 0))
    ensures var m := ModuleOf(WithParent(ContainerSmallTemplate, parent));
      m.production.None? && m.storageBonus == Some(1000)
  {
  }
}
