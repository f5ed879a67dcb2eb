/** The life of one IOP as a user of either warden sees it. */
module Lifecycle {
  import opened Basics

  datatype Life =
    | Unborn
    | Created                 // the iop exists, nobody awaited it
    | Threw                   // await_suspend threw, so the coroutine never suspended
    | Suspended
    | Done(reply: Reply)      // the coroutine was resumed and read this
    | Destroyed

  /** One step of the abstract life, or a stutter. */
  predicate LifeStep(a: Life, b: Life) {
    || a == b
    || (a.Unborn? && b.Created?)
    || (a.Created? && (b.Suspended? || b.Threw? || b.Done?))
    || (a.Suspended? && b.Done?)
    || (!a.Unborn? && b.Destroyed?)
  }
}
