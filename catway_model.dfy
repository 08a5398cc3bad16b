/** The catway (berth) schema of api/models/catway.js. */
module CatwayModel {

  /** A stored catway; `createdAt`/`updatedAt` are the schema's automatic timestamps. */
  datatype Catway = Catway(
    catwayNumber: int,
    catwayType: string,
    catwayState: string,
    createdAt: int,
    updatedAt: int)

  /** `enum: ["long", "short"]`. */
  predicate IsCatwayType(t: string) {
    t == "long" || t == "short"
  }

  /** What the schema's validators accept when a catway is saved: a type from the enum
      and a state that is present (Mongoose's `required` refuses the empty string). The
      number is required and numeric by its type; its uniqueness is the store's key. */
  predicate SchemaValid(c: Catway) {
    IsCatwayType(c.catwayType) && c.catwayState != ""
  }
}
