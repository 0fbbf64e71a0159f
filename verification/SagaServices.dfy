/** What the services of module Marketplace take for granted holds in every reachable state of the protocol. */
module SagaServices {
  import opened Wrappers
  import opened Catalog
  import opened Ledger
  import opened Saga
  import opened SagaInvariant
  import opened SagaSteps
  import opened SagaTheorems
  import Marketplace

  lemma StateServes(s: State)
    requires Inv(s)
    ensures forall t :: t in s.ledger.transactions ==> Marketplace.InHand(s.rows, s.ledger.transactions[t])
    ensures forall p :: p in s.ledger.proposals ==> ProposalSound(s.ledger.proposals[p], s.rows)
  {
    hide CallInv, AcceptInv, ConfirmInv, DraftInv, Numbered, Consistent;
    forall t | t in s.ledger.transactions
      ensures Marketplace.InHand(s.rows, s.ledger.transactions[t])
    {
      var x := s.ledger.transactions[t];
      assert IsHeld(s.holder, x.target, ByTransaction(t));
      assert x.offered.Some? ==> IsHeld(s.holder, x.offered.value, ByTransaction(t));
    }
  }

  /**
    At every moment, every listing of a transaction is in its hands, so that a `confirm` without faults always gets
    through; and every proposal joins two listings, or asks for one, across two different people.
  */
  lemma ReachableStatesServe(acts: seq<Action>)
    ensures var s := Exec(INIT, acts);
            && (forall t :: t in s.ledger.transactions ==> Marketplace.InHand(s.rows, s.ledger.transactions[t]))
            && (forall p :: p in s.ledger.proposals ==>
                  && ProposalSound(s.ledger.proposals[p], s.rows)
                  && s.ledger.proposals[p].offered != Some(s.ledger.proposals[p].target))
  {
    RunKeepsInv(acts);
    hide Exec;
    StateServes(Exec(INIT, acts));
    hide Inv, Marketplace.InHand;
  }

  lemma ServerEvolves(s: State, a: ServerAction)
    ensures Evolves(s.rows, ApplyServer(s, a).rows)
  {
  }

  lemma ListingEvolves(s: State, a: ListingAction)
    ensures Evolves(s.rows, ApplyListing(s, a).rows)
  {
  }

  lemma StepEvolves(s: State, a: Action)
    ensures Evolves(s.rows, Apply(s, a).rows)
  {
    match a
    case OnListing(x) => ListingEvolves(s, x);
    case OnServer(x) => ServerEvolves(s, x);
    case OnDraft(x) => DraftKeepsRows(s, x);
    case OnAccept(x) => AcceptKeepsRows(s, x);
    case OnConfirm(x) => ConfirmKeepsRows(s, x);
    hide ApplyListing, ApplyServer, ApplyDraft, ApplyAccept, ApplyConfirm;
  }

  /** Between any two moments of a run the tables change only as the services allow other requests to change them. */
  lemma {:induction false} LaterTablesServe(acts: seq<Action>, i: nat)
    requires i <= |acts|
    ensures Evolves(Exec(INIT, acts[..i]).rows, Exec(INIT, acts).rows)
    ensures Grows(Exec(INIT, acts[..i]).ledger, Exec(INIT, acts).ledger) && Consistent(Exec(INIT, acts).ledger)
  {
    RunGrows(acts, i);
    RunKeepsInv(acts);
    LedgerOf(Exec(INIT, acts).ledger, Exec(INIT, acts).rows, Exec(INIT, acts).announced);
    if i == |acts| {
      assert acts[..i] == acts;
    } else {
      var last := |acts| - 1;
      var s := Exec(INIT, acts[..last]);
      assert Exec(INIT, acts) == Apply(s, acts[last]);
      hide Inv, Exec, Apply, Grows, Consistent;
      assert acts[..last][..i] == acts[..i];
      LaterTablesServe(acts[..last], i);
      StepEvolves(s, acts[last]);
    }
  }
}
