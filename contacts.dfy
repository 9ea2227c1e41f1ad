/** What a trigger or collision callback learns about the other object: its name
    and the player components found on it and above it in the hierarchy. */
module Contacts {
  import opened PlayerController

  /** The other object of a contact. `own` is the player component on the object
      itself, `inParent` the nearest one on the object or one of its ancestors. */
  datatype Collider = Collider(name: string, own: Player?, inParent: Player?)

  /** A collider the engine can report: the parent search starts at the object
      itself, so an object that carries a player finds that player. */
  predicate WellFormed(c: Collider)
  {
    c.own != null ==> c.inParent == c.own
  }

  /** The player a contact belongs to: the "Drop" and "Catch" sub-shapes resolve
      to the player they hang under, any other object to its own player, if any. */
  function GetOtherPlayer(c: Collider): (r: Player?)
    ensures r == c.own || r == c.inParent
  {
    if c.name == "Drop" then c.inParent
    else if c.name == "Catch" then c.inParent
    else c.own
  }

  /** The resolution never loses a player that carries the collider itself, finds
      the owner of a sub-shape, and yields nothing for plain level geometry. */
  lemma GetOtherPlayerResolves(c: Collider)
    requires WellFormed(c)
    ensures c.own != null ==> GetOtherPlayer(c) == c.own
    ensures (c.name == "Drop" || c.name == "Catch") ==> GetOtherPlayer(c) == c.inParent
    ensures c.name != "Drop" && c.name != "Catch" ==> GetOtherPlayer(c) == c.own
    ensures c.inParent == null ==> GetOtherPlayer(c) == null
  {
  }
}
