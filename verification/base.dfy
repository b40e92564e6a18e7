/** Shared vocabulary: identities of Things and technologies, the error kinds the
    operations report, and the object graph of Things that the parent walks read. */
module Base {

  /** Identity of a Thing (a functional endpoint); equality stands for Java object identity. */
  type ThingId = nat

  /** Identity of a Technology instance; `getTechnology() == this` compares these. */
  type TechId = nat

  datatype Option<+T> = None | Some(value: T)

  /** The exceptions of the modelled code paths. `ClassCast` and `IndexOutOfBounds` are the
      unchecked Java exceptions some of them raise. */
  datatype Error =
    | UnacceptableThing
    | UnassociatedResource
    | UnknownResource
    | GroupsNotSupported
    | ClassCast
    | IndexOutOfBounds

  /** A value or the exception that replaced it (an immediate or eventual future). */
  datatype Result<+T> = Success(value: T) | Failure(error: Error)

  /** How an operation that returns a `ListenableFuture<Void>` ends: the future completes
      (`Pass`) or fails (`Fail`). `Fail` also stands for an unchecked exception the method
      throws synchronously, before any future exists, as the `ClassCast` of the as-written
      `removeMember` does. */
  datatype Outcome = Pass | Fail(error: Error)

  /** The run-time class of a Thing, as far as the modelled code inspects it with
      `instanceof`: any Thing, a `Group` of some technology, an `SmcpThing`, or an
      `SmcpGroup` (which is both a Group and an SmcpThing). */
  datatype Kind =
    | OtherThing
    | OtherGroup(technology: TechId)
    | SmcpThing
    | SmcpGroupThing(technology: TechId)

  /** What a Thing knows about itself: `getParentFunctionalEndpoint()` and its class. */
  datatype Node = Node(parent: Option<ThingId>, kind: Kind)

  /** The Things in existence. A Thing absent from the map has no parent and is neither a
      Group nor an SmcpThing. Parent links may form cycles. */
  type World = map<ThingId, Node>

  /** `t.getParentFunctionalEndpoint()`, with `None` for null. */
  function Parent(w: World, t: ThingId): Option<ThingId>
  {
    if t in w then w[t].parent else None
  }

  /** `t instanceof Group && ((Group) t).getTechnology() == tech`. */
  predicate IsGroupOf(w: World, t: ThingId, tech: TechId)
  {
    t in w && (w[t].kind.OtherGroup? || w[t].kind.SmcpGroupThing?) && w[t].kind.technology == tech
  }

  /** `t instanceof SmcpThing`. */
  predicate IsSmcpThing(w: World, t: ThingId)
  {
    t in w && (w[t].kind.SmcpThing? || w[t].kind.SmcpGroupThing?)
  }

  /** `t instanceof SmcpGroup && ((SmcpGroup) t).getTechnology() == tech`. */
  predicate IsSmcpGroupOf(w: World, t: ThingId, tech: TechId)
  {
    t in w && w[t].kind.SmcpGroupThing? && w[t].kind.technology == tech
  }
}
