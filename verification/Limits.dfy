/** Accounts and pools of the interleaved system never outgrow the caps, which is why no word wraps. */
module Limits {
  import opened Words
  import opened Budget
  import opened RolloverLaws
  import opened RunLaws
  import opened Protocol
  import opened Collection
  import opened Guarantees

  /** Valid tenants with the configuration of `initial`. */
  ghost predicate Within(initial: seq<Tenant>, ts: seq<Tenant>) {
    |ts| == |initial| && forall i :: 0 <= i < |ts| ==> ts[i].Valid() && SameConfig(ts[i], initial[i])
  }

  lemma RunWithin(cfg: Config, s: State)
    requires cfg.Valid() && WellFormed(cfg, s)
    ensures Within(cfg.initial, Base(cfg, s))
  {
    RunKeepsValid(cfg.mode, cfg.initial, s.past.periods);
  }

  lemma SettledWithin(mode: Mode, initial: seq<Tenant>, base: seq<Tenant>, s: State)
    requires |s.taken| <= |base| == |s.seen| == |s.tenants| == |s.flags| && HalfSettled(mode, base, s)
    requires Within(initial, base)
    ensures Within(initial, s.tenants)
  {
    forall i | 0 <= i < |base|
      ensures s.tenants[i].Valid() && SameConfig(s.tenants[i], initial[i])
    {
      assert base[i].Valid() && SameConfig(base[i], initial[i]);
    }
  }

  lemma SharedWithin(mode: Mode, initial: seq<Tenant>, base: seq<Tenant>, p: Period)
    requires Fits(base, p) && Within(initial, base)
    ensures Within(initial, BeforeDebt(mode, base, p))
  {
    RolloverKeepsValid(mode, base, p);
    var before := BeforeDebt(mode, base, p);
    forall i | 0 <= i < |base|
      ensures before[i].Valid() && SameConfig(before[i], initial[i])
    {
      assert SameConfig(base[i], initial[i]) && Rollover(mode, base, p)[i] == Paid(before[i]);
    }
  }

  /** At every step, also within a rollover, budgets are within caps and configurations are unchanged. */
  lemma AccountsAreBounded(cfg: Config, s: State)
    requires Reachable(cfg, s)
    ensures Within(cfg.initial, s.tenants)
  {
    ReachableInv(cfg, s);
    RunWithin(cfg, s);
    if InPassOne(s.pc) {
      SettledWithin(cfg.mode, cfg.initial, Base(cfg, s), s);
    } else if !Checking(s.pc) {
      SharedWithin(cfg.mode, cfg.initial, Base(cfg, s), Period(s.seen, s.taken));
    }
  }

  /** Partial pools, too, are at most the sum of the caps. */
  lemma PartialPoolFits(mode: Mode, initial: seq<Tenant>, base: seq<Tenant>,
                        seen: seq<Restriction>, taken: seq<Use>, r: Resource)
    requires |taken| <= |base| == |seen| && Within(initial, base)
    ensures PartialPools(mode, base, seen, taken).Of(r) <= Sum(Caps(initial, r))
  {
    var offers, caps := PartialOffers(mode, base, seen, taken, r), Caps(initial, r);
    forall i | 0 <= i < |taken|
      ensures offers[i] <= caps[..|taken|][i]
    {
      assert base[i].Valid() && SameConfig(base[i], initial[i]);
      OfferFits(mode, base[i].Of(r), seen[i] == Bound(r), taken[i].Of(r));
    }
    SumLe(offers, caps[..|taken|]);
    SumPrefixLe(caps, |taken|);
  }

  ghost predicate PoolsFit(cfg: Config, s: State) {
    forall r: Resource :: s.pools.Of(r) <= Sum(Caps(cfg.initial, r))
  }

  lemma PoolsInPassOne(cfg: Config, s: State)
    requires cfg.Valid() && Inv(cfg, s) && InPassOne(s.pc)
    ensures PoolsFit(cfg, s)
  {
    RunWithin(cfg, s);
    forall r: Resource
      ensures s.pools.Of(r) <= Sum(Caps(cfg.initial, r))
    {
      PartialPoolFits(cfg.mode, cfg.initial, Base(cfg, s), s.seen, s.taken, r);
    }
  }

  lemma PoolsStay(cfg: Config, s: State, a: Action, s': State)
    requires Next(cfg, s, a, s') && !InPassOne(s'.pc)
    ensures s'.pools == s.pools
  {
  }

  lemma {:induction false} PoolsOfRun(cfg: Config, b: seq<State>, acts: seq<Action>, k: nat)
    requires Behaviour(cfg, b, acts) && k <= |acts|
    ensures PoolsFit(cfg, b[k])
  {
    BehaviourInv(cfg, b, acts, k);
    if InPassOne(b[k].pc) {
      PoolsInPassOne(cfg, b[k]);
    } else if k == 0 {
      SumNonNeg(Caps(cfg.initial, Cycles));
      SumNonNeg(Caps(cfg.initial, Bytes));
    } else {
      PoolsOfRun(cfg, b, acts, k - 1);
      StepAt(cfg, b, acts, k - 1);
      PoolsStay(cfg, b[k - 1], acts[k - 1], b[k]);
    }
  }

  lemma CapsAgree(initial: seq<Tenant>, ts: seq<Tenant>, r: Resource)
    requires Within(initial, ts)
    ensures Caps(ts, r) == Caps(initial, r)
    ensures forall i :: 0 <= i < |ts| ==> ts[i].Of(r).budget <= Caps(ts, r)[i] && ts[i].Of(r).target <= Caps(ts, r)[i]
  {
    forall i | 0 <= i < |ts|
      ensures Caps(ts, r)[i] == Caps(initial, r)[i]
      ensures ts[i].Of(r).budget <= Caps(ts, r)[i] && ts[i].Of(r).target <= Caps(ts, r)[i]
    {
      assert ts[i].Valid() && SameConfig(ts[i], initial[i]);
    }
  }

  /**
    The limits under which the code on words computes the specification hold at every step of
    every interleaving: caps that fit in `limit` together at initialisation still do, and every
    budget, every pool and the targets of all restricted tenants together stay within `limit`.
   */
  lemma NothingOutgrows(cfg: Config, s: State, r: Resource, limit: nat)
    requires Reachable(cfg, s) && Sum(Caps(cfg.initial, r)) <= limit
    ensures Within(cfg.initial, s.tenants) && Sum(Caps(s.tenants, r)) <= limit
    ensures forall i :: 0 <= i < |s.tenants| ==> s.tenants[i].Of(r).budget <= limit
    ensures s.pools.Of(r) <= limit
    ensures |s.seen| == |s.tenants| && Sum(Claims(s.tenants, s.seen, r)) <= limit
  {
    AccountsAreBounded(cfg, s);
    ReachableInv(cfg, s);
    CapsAgree(cfg.initial, s.tenants, r);
    SumNonNeg(Caps(s.tenants, r));
    SumLe(Claims(s.tenants, s.seen, r), Caps(s.tenants, r));
    var b, acts :| Behaviour(cfg, b, acts) && b[|acts|] == s;
    PoolsOfRun(cfg, b, acts, |acts|);
  }
}
