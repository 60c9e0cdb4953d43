/**
 * The numeric and list conversions the scanner delegates to code outside the
 * scanning loop: the C library's atoi/atof and WSClean's own Angle::Parse,
 * Polarization::ParseList and NumberList::ParseDoubleList. Their definitions
 * are not part of this model, so they are carried as function values and every
 * property of the scanner holds for every choice of them.
 */
module Conversions {

  /** An element of the polarization list parsed by Polarization::ParseList. */
  type Polarization(==)

  /** The unit Angle::Parse assumes when a token carries no unit suffix. */
  datatype AngleUnit = Degrees | Arcseconds

  datatype Externals = Externals(
    /** atoi: the leading integer of a token. */
    atoi: string -> int,
    /** atof: the leading floating-point number of a token. */
    atof: string -> real,
    /** Angle::Parse(token, context, defaultUnit); the context string only feeds diagnostics. */
    parseAngle: (string, AngleUnit) -> real,
    /** Polarization::ParseList(token). */
    parsePolarizations: string -> set<Polarization>,
    /** NumberList::ParseDoubleList(token, list): the list after the call, given the list before it. */
    parseDoubleList: (string, seq<real>) -> seq<real>,
    /** The super weight carried by a freshly constructed WeightMode. */
    initialSuperWeight: real
  )
}
