/** driveTwinSweep as a method that updates the sweep's records in place. */
module TwinEngine {
  import opened Bytes
  import opened Legs
  import opened SwapState
  import opened Twin

  class LiveSweeper {
    const rules: Rules
    var found: Per<Option<Found>>
    var marks: ByRole<Option<Mark>>
    var probedAt: Option<nat>

    function View(): Sweeper
      reads this
    {
      Sweeper(found, marks, probedAt)
    }

    constructor (rules: Rules)
      ensures View() == FRESH && this.rules == rules
    {
      this.rules, found, marks, probedAt := rules, Per(None, None), ByRole(None, None), None;
    }

    /** The sweep at the first acceptable tier; returns the sweep, or false when a lookup throws. */
    method LaunchSweep(s: Swap, role: Role, fundLeg: Leg, ladder: TwinLadder, t: Found, twin: TwinNode, now: nat, ghost sweeps: seq<Sweep>)
      returns (ok: bool, ghost sweeps': seq<Sweep>)
      requires ladder.leg.Some?
      modifies this`found, this`marks
      ensures Launch(Probed(old(View()), true, sweeps), s, role, fundLeg, ladder, t, twin, now) == Probed(View(), ok, sweeps')
    {
      hide PickTier, FirstAllowed;
      ok, sweeps' := true, sweeps;
      var start := StartTier(View(), role, ladder, twin);
      if start < 0 || start >= |ladder.tiers| {
        found := found.With(fundLeg, Some(t));
        return false, sweeps;
      }
      var tier, verdict := Climb(ladder.tiers, start, twin.judge);
      if verdict.Denied? {
        found := found.With(fundLeg, Some(t.(waiting := Some(Mempool))));
        if verdict.economic {
          marks := marks.With(role, Some(Mark(false, tier)));
        }
      } else {
        var tx := ladder.tiers[tier].tx;
        found := found.With(fundLeg, Some(t.(resolved := Some(Swept(twin.broadcast(tx))), waiting := None)));
        marks := marks.With(role, Some(Mark(true, tier)));
        sweeps' := sweeps + [Sweep(role, fundLeg, tier, tx, now)];
      }
    }

    method RoleTurn(s: Swap, role: Role, nodes: Per<TwinNode>, now: nat, alive: bool, ghost sweeps: seq<Sweep>)
      returns (ok: bool, ghost sweeps': seq<Sweep>)
      requires s.plan.Some?
      modifies this`found, this`marks
      ensures ProbeRole(rules, s, Probed(old(View()), alive, sweeps), role, nodes, now) == Probed(View(), ok, sweeps')
    {
      hide Launch, Watch, HeldBack, Recoverable, LadderFor;
      ok, sweeps' := alive, sweeps;
      var ladder := LadderFor(s, role);
      if !alive || ladder.None? || (marks.Of(role).Some? && marks.Of(role).value.done) {
        return;
      }
      var fundLeg, leg := ladder.value.fundLeg.value, ladder.value.leg.value;
      var f := Recoverable(s, fundLeg);
      if f.None? {
        return;
      }
      var home, twin, lock := nodes.Of(fundLeg), nodes.Of(leg), s.plan.value.locktimes.Of(fundLeg);
      var seen := Watch(found.Of(fundLeg), f.value.at, lock, home, twin, now);
      if seen.None? {
        return;
      }
      var t := seen.value;
      var held := HeldBack(rules, t, f.value.at, lock, home, twin, now);
      if held.Some? {
        found := found.With(fundLeg, Some(t.(waiting := held)));
      } else if !twin.isUnspent(f.value.at) {
        found := found.With(fundLeg, Some(t.(resolved := Some(External), waiting := None)));
        marks := marks.With(role, Some(Mark(true, 0)));
      } else {
        ok, sweeps' := LaunchSweep(s, role, fundLeg, ladder.value, t, twin, now, sweeps);
      }
    }

    method DriveTwinSweep(s: Swap, nodes: Per<TwinNode>, now: nat, alive: bool, ghost sweeps: seq<Sweep>)
      returns (ok: bool, ghost sweeps': seq<Sweep>)
      modifies this
      ensures Probe(rules, s, Probed(old(View()), alive, sweeps), nodes, now) == Probed(View(), ok, sweeps')
    {
      hide ProbeRole;
      if Skips(rules, s, View(), now) {
        return alive, sweeps;
      }
      probedAt := Some(now);
      ok, sweeps' := RoleTurn(s, Alice, nodes, now, true, sweeps);
      ok, sweeps' := RoleTurn(s, Bob, nodes, now, ok, sweeps');
    }
  }
}
