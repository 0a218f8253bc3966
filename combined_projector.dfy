/**
 * `CombinedProjector`: hands each event to its projectors in list order and
 * stops at the first one that fails.
 */
module CombinedProjector {
  import opened Common
  import opened Event
  import opened Projection
  import CartProjector
  import TenantPolicyProjector

  /** The state of the two projectors the list can refer to. */
  datatype States = States(
    cart: ProjectorState<CartProjector.CartView>, policy: ProjectorState<TenantPolicyProjector.PolicyView>)

  function HandleOne(h: HandlerRef, s: States, co: StoreOracles<CartProjector.CartView>,
                     po: StoreOracles<TenantPolicyProjector.PolicyView>, e: Event): (States, Option<Error>)
  {
    match h
    case CartProjectorHandler =>
      var (c, err) := CartProjector.HandleSpec(s.cart, co, e);
      (s.(cart := c), err)
    case TenantPolicyProjectorHandler =>
      var (p, err) := TenantPolicyProjector.HandleSpec(s.policy, po, e);
      (s.(policy := p), err)
  }

  /** `Handle` over a projector list. */
  function HandleAll(projectors: seq<HandlerRef>, s: States, co: StoreOracles<CartProjector.CartView>,
                     po: StoreOracles<TenantPolicyProjector.PolicyView>, e: Event): (States, Option<Error>)
  {
    if |projectors| == 0 then (s, None)
    else
      var (s1, err) := HandleAll(projectors[..|projectors| - 1], s, co, po, e);
      if err.Some? then (s1, err) else HandleOne(projectors[|projectors| - 1], s1, co, po, e)
  }

  /** Once a projector fails, the ones after it are not called. */
  lemma {:induction false} StopsAtFirstError(projectors: seq<HandlerRef>, k: nat, s: States,
                                             co: StoreOracles<CartProjector.CartView>,
                                             po: StoreOracles<TenantPolicyProjector.PolicyView>, e: Event)
    requires k <= |projectors| && HandleAll(projectors[..k], s, co, po, e).1.Some?
    ensures HandleAll(projectors, s, co, po, e) == HandleAll(projectors[..k], s, co, po, e)
    decreases |projectors| - k
  {
    if k < |projectors| {
      assert projectors[..k + 1][..k] == projectors[..k];
      StopsAtFirstError(projectors, k + 1, s, co, po, e);
    } else {
      assert projectors[..k] == projectors;
    }
  }

  /**
   * Projector `k` is the first to fail: every one before it returned nil,
   * and it, handed the state they left, returned an error.
   */
  ghost predicate FailsFirstAt(projectors: seq<HandlerRef>, k: int, s: States,
                               co: StoreOracles<CartProjector.CartView>,
                               po: StoreOracles<TenantPolicyProjector.PolicyView>, e: Event)
  {
    && 0 <= k < |projectors|
    && HandleAll(projectors[..k], s, co, po, e).1.None?
    && HandleOne(projectors[k], HandleAll(projectors[..k], s, co, po, e).0, co, po, e).1.Some?
  }

  /**
   * The result is nil exactly when every projector returned nil; otherwise
   * some projector is the first to fail (and by `StopsAtFirstError` its
   * result is the list's result).
   */
  lemma FirstErrorWins(projectors: seq<HandlerRef>, s: States,
                       co: StoreOracles<CartProjector.CartView>,
                       po: StoreOracles<TenantPolicyProjector.PolicyView>, e: Event)
    ensures HandleAll(projectors, s, co, po, e).1.Some? <==> exists k :: FailsFirstAt(projectors, k, s, co, po, e)
  {
    if HandleAll(projectors, s, co, po, e).1.Some? {
      ErrorHasFirstFailure(projectors, s, co, po, e);
    } else {
      forall k | 0 <= k < |projectors| ensures !FailsFirstAt(projectors, k, s, co, po, e) {
        NoErrorNoFailure(projectors, k, s, co, po, e);
      }
    }
  }

  lemma {:induction false} ErrorHasFirstFailure(projectors: seq<HandlerRef>, s: States,
                                                co: StoreOracles<CartProjector.CartView>,
                                                po: StoreOracles<TenantPolicyProjector.PolicyView>, e: Event)
    requires HandleAll(projectors, s, co, po, e).1.Some?
    ensures exists k :: FailsFirstAt(projectors, k, s, co, po, e)
  {
    var n := |projectors| - 1;
    var init := projectors[..n];
    if HandleAll(init, s, co, po, e).1.Some? {
      ErrorHasFirstFailure(init, s, co, po, e);
      var k :| FailsFirstAt(init, k, s, co, po, e);
      assert init[..k] == projectors[..k] && init[k] == projectors[k];
      assert FailsFirstAt(projectors, k, s, co, po, e);
    } else {
      assert FailsFirstAt(projectors, n, s, co, po, e);
    }
  }

  lemma NoErrorNoFailure(projectors: seq<HandlerRef>, k: int, s: States,
                         co: StoreOracles<CartProjector.CartView>,
                         po: StoreOracles<TenantPolicyProjector.PolicyView>, e: Event)
    requires HandleAll(projectors, s, co, po, e).1.None? && 0 <= k < |projectors|
    ensures !FailsFirstAt(projectors, k, s, co, po, e)
  {
    StopsAtFirstErrorOrNone(projectors, k + 1, s, co, po, e);
    var p := projectors[..k + 1];
    assert p[..k] == projectors[..k] && p[k] == projectors[k];
  }

  /** A prefix that fails makes the whole list fail. */
  lemma StopsAtFirstErrorOrNone(projectors: seq<HandlerRef>, k: nat, s: States,
                                co: StoreOracles<CartProjector.CartView>,
                                po: StoreOracles<TenantPolicyProjector.PolicyView>, e: Event)
    requires k <= |projectors| && HandleAll(projectors, s, co, po, e).1.None?
    ensures HandleAll(projectors[..k], s, co, po, e).1.None?
  {
    if HandleAll(projectors[..k], s, co, po, e).1.Some? {
      StopsAtFirstError(projectors, k, s, co, po, e);
    }
  }

  /**
   * The wiring of the projector service, cart then policy, with stores that
   * never fail: a cart event reaches the cart view, and the policy projector
   * only records the event id.
   */
  lemma CartEventThroughBoth(s: States, co: StoreOracles<CartProjector.CartView>,
                             po: StoreOracles<TenantPolicyProjector.PolicyView>, e: Event)
    requires Faultless(co) && Faultless(po)
    requires e.eventID !in s.cart.seen && e.eventID !in s.policy.seen
    requires CartProjector.Relevant(e)
    ensures var (s1, err) := HandleAll([CartProjectorHandler, TenantPolicyProjectorHandler], s, co, po, e);
      && err == None
      && Lookup(s1.cart.views, e.aggregateID) == CartProjector.ViewAfter(Lookup(s.cart.views, e.aggregateID), e)
      && s1.policy == ProjectorState(s.policy.seen + {e.eventID}, s.policy.views)
  {
    var ps := [CartProjectorHandler, TenantPolicyProjectorHandler];
    assert ps[..1] == [CartProjectorHandler] && [CartProjectorHandler][..0] == [];
    CartProjector.HandleFaultless(s.cart, co, e);
    var r1 := HandleAll([CartProjectorHandler], s, co, po, e);
    assert HandleAll([CartProjectorHandler][..0], s, co, po, e) == (s, None);
    assert r1 == HandleOne(CartProjectorHandler, s, co, po, e);
    assert r1.1 == None && r1.0.policy == s.policy;
    assert HandleAll(ps, s, co, po, e) == HandleOne(TenantPolicyProjectorHandler, r1.0, co, po, e);
  }

  class CombinedProjectorImpl {
    const cart: CartProjector.CartProjectorImpl
    const tenant: TenantPolicyProjector.TenantPolicyProjectorImpl
    const projectors: seq<HandlerRef>

    constructor (cart: CartProjector.CartProjectorImpl, tenant: TenantPolicyProjector.TenantPolicyProjectorImpl,
                 projectors: seq<HandlerRef>)
      ensures this.cart == cart && this.tenant == tenant && this.projectors == projectors
    {
      this.cart, this.tenant, this.projectors := cart, tenant, projectors;
    }

    function State(): States
      reads cart, cart.viewRepo, tenant, tenant.viewRepo
    {
      States(cart.State(), tenant.State())
    }

    method Handle(e: Event) returns (err: Option<Error>)
      modifies cart, cart.viewRepo, tenant, tenant.viewRepo
      ensures (State(), err) == HandleAll(projectors, old(State()), cart.viewRepo.Oracles(), tenant.viewRepo.Oracles(), e)
    {
      ghost var s0, co, po := State(), cart.viewRepo.Oracles(), tenant.viewRepo.Oracles();
      for i := 0 to |projectors|
        invariant cart.viewRepo.Oracles() == co && tenant.viewRepo.Oracles() == po
        invariant (State(), None) == HandleAll(projectors[..i], s0, co, po, e)
      {
        assert projectors[..i + 1][..i] == projectors[..i];
        ghost var before := State();
        match projectors[i] {
          case CartProjectorHandler =>
            err := cart.Handle(e);
          case TenantPolicyProjectorHandler =>
            err := tenant.Handle(e);
        }
        assert (State(), err) == HandleOne(projectors[i], before, co, po, e);
        if err.Some? {
          StopsAtFirstError(projectors, i + 1, s0, co, po, e);
          return err;
        }
      }
      assert projectors[..|projectors|] == projectors;
      return None;
    }

    /** Every projector's `Start` subscribes its handler and returns nil, so all are subscribed, in order. */
    method Start(bus: EventBus) returns (err: Option<Error>)
      modifies bus
      ensures bus.handlers == old(bus.handlers) + projectors && err == None
    {
      for i := 0 to |projectors|
        invariant bus.handlers == old(bus.handlers) + projectors[..i]
      {
        assert projectors[..i + 1] == projectors[..i] + [projectors[i]];
        match projectors[i] {
          case CartProjectorHandler =>
            err := cart.Start(bus);
          case TenantPolicyProjectorHandler =>
            err := tenant.Start(bus);
        }
        if err.Some? {
          assert false;
          return err;
        }
      }
      assert projectors[..|projectors|] == projectors;
      return None;
    }
  }
}
