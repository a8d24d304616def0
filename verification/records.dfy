/**
 * The values a plugin stores through the data extension: a record is the plugin's own
 * serialised fields together with the version number the record type was built with.
 */
module Records {

  /** A Steam id, held by the source as a 64-bit unsigned integer. */
  newtype u64 = x: int | 0 <= x < 0x1_0000_0000_0000_0000

  /** Oxide's VersionNumber: three integer parts, equal when all three parts are equal. */
  datatype Version = Version(major: int, minor: int, patch: int)

  /** The plugin-defined fields of a record, in the form the storage backend keeps them. */
  type Payload = seq<char>

  /** A BaseData instance: its fields and the read-only Version given to its constructor. */
  datatype Record = Record(payload: Payload, version: Version)
}
