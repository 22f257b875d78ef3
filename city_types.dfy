// The records of city.h: a generation configuration and the box primitives
// that make up a generated city. Floats are modelled as reals.

module CityTypes {

  /** raylib's Vector3, with real components. */
  datatype Vector3 = Vector3(x: real, y: real, z: real)

  const Origin := Vector3(0.0, 0.0, 0.0)

  /** CityConfig: everything that determines a generated city. */
  datatype CityConfig = CityConfig(
    seed: bv32,             // unsigned int; 0 selects the default seed
    blocksX: int,
    blocksZ: int,
    blockSize: real,
    roadWidth: real,
    minBuilding: Vector3,
    maxBuilding: Vector3,
    parkChance: real)

  /** The configuration of a zero-initialised City record. */
  const ZeroConfig := CityConfig(0, 0, 0, 0.0, 0.0, Origin, Origin, 0.0)

  /** A box with a cosmetic colour-variation tag. */
  datatype Building = Building(pos: Vector3, size: Vector3, colorVar: int)

  datatype Road = Road(pos: Vector3, size: Vector3)

  datatype Sidewalk = Sidewalk(pos: Vector3, size: Vector3)

  datatype Park = Park(pos: Vector3, size: Vector3)

  /** One dash of a dashed road centre line. */
  datatype Mark = Mark(pos: Vector3, size: Vector3)
}
