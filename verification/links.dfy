/**
  Where dequeues begin: the tickets module Tickets accounts for are the claims that ExplicitProducer and ImplicitBlocks
  start from.
 */
module Links {
  import opened Basics
  import Tickets
  import Explicit = ExplicitProducer
  import Blocks = ImplicitBlocks

  /** A thread with tickets may claim as many indices at the head of an explicit producer, and both machines move the
      head alike. */
  lemma TicketsAreExplicitClaim(s: Tickets.State, t: Thread, my: nat, actual: nat, q: Explicit.State)
    requires Tickets.Reachable(s) && Tickets.Windowed(s) && t in s.pcs
    requires s.pcs[t] == Tickets.TakeHead(my, actual) && actual > 0
    requires q.head == s.head && q.tail == s.tail && t in q.consumers && q.consumers[t] == Explicit.Idle
    ensures Explicit.Enabled(q, Explicit.Claim(t, actual))
    ensures Explicit.Apply(q, Explicit.Claim(t, actual)).head == Tickets.Apply(s, Tickets.Run(t)).head
  {
    Tickets.TakingIsSafe(s, t, my, actual);
  }

  /** The same holds of an implicit producer p. */
  lemma TicketsAreImplicitClaim(s: Tickets.State, t: Thread, my: nat, actual: nat, b: Blocks.State, p: Thread)
    requires Tickets.Reachable(s) && Tickets.Windowed(s) && t in s.pcs
    requires s.pcs[t] == Tickets.TakeHead(my, actual) && actual > 0
    requires Blocks.SubAt(b.subs, p).head == s.head && Blocks.SubAt(b.subs, p).tail == s.tail
    requires t in b.pcs && b.pcs[t] == Blocks.Idle
    ensures Blocks.Enabled(b, Blocks.Claim(t, p, actual))
    ensures Blocks.SubAt(Blocks.Apply(b, Blocks.Claim(t, p, actual)).subs, p).head ==
            Tickets.Apply(s, Tickets.Run(t)).head
  {
    Tickets.TakingIsSafe(s, t, my, actual);
  }
}
