/** The mining component of a ship: its efficiency, a buffer of mined
    fractions, and the asteroid it works on, held both as the entity and as
    its id (the id is what survives saving and loading). */
module Mining {
  import opened Common

  /** An asteroid entity as the mining component refers to it. */
  datatype AsteroidEntity = AsteroidEntity(id: EntityId)

  class Mining {
    var efficiency: real
    var buffer: real
    var asteroid: Option<AsteroidEntity>
    var asteroidId: Option<EntityId>

    /** The asteroid and its id are set and cleared together. */
    predicate Valid()
      reads this
    {
      && (asteroid.None? <==> asteroidId.None?)
      && (asteroid.Some? ==> asteroid.value.id == asteroidId.value)
    }

    constructor (efficiency: real)
      ensures Valid()
      ensures this.efficiency == efficiency && buffer == 0.0 && asteroid == None && asteroidId == None
    {
      this.efficiency := efficiency;
      buffer := 0.0;
      asteroid := None;
      asteroidId := None;
    }

    method SetAsteroid(entity: AsteroidEntity)
      modifies this`asteroid, this`asteroidId
      ensures Valid()
      ensures asteroid == Some(entity) && asteroidId == Some(entity.id)
    {
      asteroid := Some(entity);
      asteroidId := Some(entity.id);
    }

    method ClearAsteroid()
      modifies this`asteroid, this`asteroidId
      ensures Valid()
      ensures asteroid == None && asteroidId == None
    {
      asteroid := None;
      asteroidId := None;
    }

    /** `load`: resolve the asteroid entity from its id among `entities`. An
        id of 0 is falsy and is treated like no id at all; an id that no
        entity carries makes the cast of `undefined` fail. */
    method Load(entities: seq<AsteroidEntity>) returns (r: Result<()>)
      modifies this`asteroid
      ensures asteroidId.None? || asteroidId.value == 0 ==> r.Ok? && asteroid == old(asteroid)
      ensures asteroidId.Some? && asteroidId.value != 0 ==>
                (r.Ok? <==> exists i :: 0 <= i < |entities| && entities[i].id == asteroidId.value)
      ensures asteroidId.Some? && asteroidId.value != 0 && r.Ok? ==>
                asteroid.Some? && asteroid.value in entities && asteroid.value.id == asteroidId.value
      ensures r.Err? ==> r.error == EntityNotFound && asteroid == old(asteroid)
      ensures old(Valid()) ==> Valid()
    {
      r := Ok(());
      if asteroidId.Some? && asteroidId.value != 0 {
        var i := 0;
        while i < |entities| && entities[i].id != asteroidId.value
          invariant 0 <= i <= |entities|
          invariant forall k :: 0 <= k < i ==> entities[k].id != asteroidId.value
        {
          i := i + 1;
        }
        if i < |entities| {
          asteroid := Some(entities[i]);
        } else {
          r := Err(EntityNotFound);
        }
      }
    }
  }
}
