/** The working set in memory and the durable store behind it (coordinator/swap.js, coordinator/store.js). */
module Store {
  import opened Bytes
  import opened Legs
  import opened SwapState
  import opened Twin
  import SwapPromises
  import SwapRuns

  type Id = string

  /** One swap object: its record and what the twin sweep keeps in it. */
  datatype Rec = Rec(s: Swap, w: Sweeper)

  /** The fields that sigOf covers. */
  datatype Sig = Sig(
    state: State, funding: Per<Option<Funding>>, refund: Option<Per<Refundable>>, preimage: Option<bytes>,
    broadcasts: map<(Leg, Kind), bytes>, finished: ByRole<bool>, twin: Per<Option<Found>>,
    btcPubs: ByRole<Option<string>>, hashText: Option<string>, short: Per<Option<Funding>>,
    wt: map<(Role, Kind), WtRecord>, twinMarks: ByRole<Option<Mark>>)

  function BtcPub(keys: Option<Keys>): Option<string> {
    if keys.None? then None else Some(keys.value.btc)
  }

  function SigOf(r: Rec): Sig {
    Sig(r.s.state, r.s.funding, r.s.refund, r.s.preimage, r.s.broadcasts,
        ByRole(r.s.finish.alice.Some?, r.s.finish.bob.Some?), r.w.found,
        ByRole(BtcPub(r.s.party.alice), BtcPub(r.s.party.bob)), r.s.hashText, r.s.short, r.s.wt, r.w.marks)
  }

  /** An object in memory: its content, and `_sig`, which the store strips. */
  datatype Live = Live(rec: Rec, cached: Option<Sig>)

  /** Sqlite keeps one row per swap and can read one back; the JSON backend rewrites a snapshot of the working set. */
  datatype Backend = Sqlite | Json

  datatype Db = Db(backend: Backend, evictMs: nat, mem: map<Id, Live>, disk: map<Id, Rec>)

  predicate Evictable(r: Rec, cutoff: int) {
    Terminal(r.s.state) && r.s.settledAt.Some? && 0 < r.s.settledAt.value < cutoff && !Pending(r.w)
  }

  function GetSwap(d: Db, id: Id): Option<Rec> {
    if id in d.mem then Some(d.mem[id].rec)
    else if d.backend == Sqlite && id in d.disk then Some(d.disk[id])
    else None
  }

  function Snapshot(mem: map<Id, Live>): map<Id, Rec> {
    map id | id in mem :: mem[id].rec
  }

  /** touch on the object for `id`, whose content is now `r`: in memory, or loaded for this one call. */
  function Touch(d: Db, id: Id, r: Rec): Db {
    if id in d.mem && d.mem[id].cached == Some(SigOf(r)) then
      d.(mem := d.mem[id := Live(r, Some(SigOf(r)))])
    else
      var mem := if id in d.mem then d.mem[id := Live(r, Some(SigOf(r)))] else d.mem;
      d.(mem := mem, disk := if d.backend == Sqlite then d.disk[id := r] else Snapshot(mem))
  }

  /** createSwap: a new object enters the working set and is touched. */
  function Create(d: Db, id: Id, r: Rec): Db {
    Touch(d.(mem := d.mem[id := Live(r, None)]), id, r)
  }

  /** evictSettled; without a per-id read nothing leaves memory. */
  function Evict(d: Db, now: nat): Db {
    if d.backend == Json then d
    else d.(mem := map id | id in d.mem && !Evictable(d.mem[id].rec, now - d.evictMs) :: d.mem[id])
  }

  /** A restart: memory is what the store loads. */
  function Restart(d: Db): Db {
    d.(mem := map id | id in d.disk :: Live(d.disk[id], None))
  }

  class Coordinator {
    const backend: Backend
    const evictMs: nat
    var mem: map<Id, Live>
    var disk: map<Id, Rec>

    function View(): Db
      reads this
    {
      Db(backend, evictMs, mem, disk)
    }

    constructor (backend: Backend, evictMs: nat)
      ensures View() == Db(backend, evictMs, map[], map[])
    {
      this.backend, this.evictMs := backend, evictMs;
      mem, disk := map[], map[];
    }

    method TouchSwap(id: Id, r: Rec)
      modifies this
      ensures View() == Touch(old(View()), id, r)
    {
      hide SigOf;
      var g := SigOf(r);
      if id in mem {
        var same := mem[id].cached == Some(g);
        mem := mem[id := Live(r, Some(g))];
        if same {
          return;
        }
      }
      if backend == Sqlite {
        disk := disk[id := r];
      } else {
        disk := Snapshot(mem);
      }
    }

    /** The loop over the working set; `n` swaps leave it. */
    method EvictSettled(now: nat) returns (n: nat)
      modifies this`mem
      ensures View() == Evict(old(View()), now)
      ensures n == |old(mem)| - |mem|
    {
      hide Evictable;
      n := 0;
      if backend == Json {
        return;
      }
      var left := mem.Keys;
      ghost var all := mem;
      while left != {}
        invariant left <= all.Keys
        invariant mem == map id | id in all && (id in left || !Evictable(all[id].rec, now - evictMs)) :: all[id]
        invariant n + |mem| == |all|
      {
        var id :| id in left;
        left := left - {id};
        if Evictable(mem[id].rec, now - evictMs) {
          RemovedOne(mem, id);
          mem := mem - {id};
          n := n + 1;
        }
      }
    }
  }

  lemma RemovedOne<K, V>(m: map<K, V>, k: K)
    requires k in m
    ensures |m - {k}| == |m| - 1
  {
    assert (m - {k}).Keys == m.Keys - {k};
    assert |m| == |m.Keys| && |m - {k}| == |(m - {k}).Keys|;
  }

  /** A touch writes the row exactly when something the signature covers has changed since the last touch of the object
      in memory, or when the object is not in memory or was never touched; the object in memory always takes the new
      content. Other swaps in memory are left alone. */
  lemma TouchExactly(d: Db, id: Id, r: Rec)
    requires d.backend == Sqlite
    ensures var d' := Touch(d, id, r);
            && d'.disk == (if id in d.mem && d.mem[id].cached == Some(SigOf(r)) then d.disk else d.disk[id := r])
            && d'.mem.Keys == d.mem.Keys
            && (forall other :: other in d.mem ==> d'.mem[other] == if other == id then Live(r, Some(SigOf(r))) else d.mem[other])
  {
    hide SigOf;
  }

  /** What the signature covers: equal signatures mean equal states, deposits, refunds, secrets, spends, watchtower and
      twin records, hash texts, and keys on BTC, and bundles left by the same roles. */
  lemma SigCovers(a: Rec, b: Rec)
    requires SigOf(a) == SigOf(b)
    ensures a.s.state == b.s.state && a.s.funding == b.s.funding && a.s.short == b.s.short && a.s.refund == b.s.refund
    ensures a.s.preimage == b.s.preimage && a.s.broadcasts == b.s.broadcasts && a.s.wt == b.s.wt && a.s.hashText == b.s.hashText
    ensures a.w.found == b.w.found && a.w.marks == b.w.marks
    ensures forall role: Role :: (a.s.finish.Of(role).Some? <==> b.s.finish.Of(role).Some?)
                                 && (a.s.party.Of(role).Some? <==> b.s.party.Of(role).Some?)
                                 && (a.s.party.Of(role).Some? ==> a.s.party.Of(role).value.btc == b.s.party.Of(role).value.btc)
  {
    forall role: Role
      ensures (a.s.finish.Of(role).Some? <==> b.s.finish.Of(role).Some?)
      ensures (a.s.party.Of(role).Some? <==> b.s.party.Of(role).Some?)
      ensures a.s.party.Of(role).Some? ==> a.s.party.Of(role).value.btc == b.s.party.Of(role).value.btc
    {
      assert role == Alice || role == Bob;
    }
  }

  /** Eviction on the sqlite backend drops exactly the swaps that are terminal, settled longer ago than the limit and
      without a twin still to be resolved; the store keeps its rows. */
  lemma EvictExactly(d: Db, now: nat, id: Id)
    requires d.backend == Sqlite && id in d.mem
    ensures var r, d' := d.mem[id].rec, Evict(d, now);
            && d'.disk == d.disk
            && (id !in d'.mem <==>
                  && (r.s.state == Complete || r.s.state == Refunded || r.s.state == Aborted)
                  && r.s.settledAt.Some? && r.s.settledAt.value > 0 && r.s.settledAt.value + d.evictMs < now
                  && forall leg: Leg :: r.w.found.Of(leg).Some? ==> r.w.found.Of(leg).value.resolved.Some?)
            && (id in d'.mem ==> d'.mem[id] == d.mem[id])
  {
    var r := d.mem[id].rec;
    if forall leg: Leg :: r.w.found.Of(leg).Some? ==> r.w.found.Of(leg).value.resolved.Some? {
      assert r.w.found.Of(Btc).Some? ==> r.w.found.Of(Btc).value.resolved.Some?;
      assert r.w.found.Of(Qbit).Some? ==> r.w.found.Of(Qbit).value.resolved.Some?;
    }
  }

  // ---------------------------------------------------------------------------
  // Nothing that matters is lost
  // ---------------------------------------------------------------------------

  datatype Event =
    | Creates(id: Id, rec: Rec)
    | Touches(id: Id, rec: Rec)
    | Evicts(now: nat)
    | Restarts

  function Apply(d: Db, e: Event): Db {
    match e
    case Creates(id, rec) => Create(d, id, rec)
    case Touches(id, rec) => if GetSwap(d, id).Some? then Touch(d, id, rec) else d
    case Evicts(now) => Evict(d, now)
    case Restarts => Restart(d)
  }

  function Run(backend: Backend, evictMs: nat, events: seq<Event>): Db {
    if events == [] then Db(backend, evictMs, map[], map[])
    else Apply(Run(backend, evictMs, events[..|events| - 1]), events[|events| - 1])
  }

  /** The reference: a map that forgets nothing, holding the last content each swap was touched with. */
  function Recall(all: map<Id, Rec>, e: Event): map<Id, Rec> {
    match e
    case Creates(id, rec) => all[id := rec]
    case Touches(id, rec) => if id in all then all[id := rec] else all
    case Evicts(_) => all
    case Restarts => all
  }

  function Reference(events: seq<Event>): map<Id, Rec> {
    if events == [] then map[] else Recall(Reference(events[..|events| - 1]), events[|events| - 1])
  }

  predicate SameSigs(a: map<Id, Rec>, b: map<Id, Rec>) {
    a.Keys == b.Keys && forall id :: id in a ==> SigOf(a[id]) == SigOf(b[id])
  }

  predicate InStep(d: Db, all: map<Id, Rec>) {
    && SameSigs(d.disk, all)
    && d.mem.Keys <= all.Keys && (d.backend == Json ==> d.mem.Keys == all.Keys)
    && (forall id :: id in d.mem ==> SigOf(d.mem[id].rec) == SigOf(all[id]))
    && (forall id :: id in d.mem && d.mem[id].cached.Some? ==> d.mem[id].cached == Some(SigOf(all[id])))
  }

  lemma TouchInStep(d: Db, all: map<Id, Rec>, id: Id, r: Rec)
    requires InStep(d, all) && id in all
    ensures InStep(Touch(d, id, r), all[id := r])
  {
    hide SigOf;
  }

  lemma CreateInStep(d: Db, all: map<Id, Rec>, id: Id, r: Rec)
    requires InStep(d, all)
    ensures InStep(Create(d, id, r), all[id := r])
  {
    hide SigOf, InStep, SameSigs;
    CreatedDb(d, id, r);
    if d.backend == Sqlite {
      CreatedRow(d, all, id, r);
    } else {
      CreatedSnapshot(d, all, id, r);
    }
  }

  lemma CreatedDb(d: Db, id: Id, r: Rec)
    ensures var mem := d.mem[id := Live(r, Some(SigOf(r)))];
            Create(d, id, r) == d.(mem := mem, disk := if d.backend == Sqlite then d.disk[id := r] else Snapshot(mem))
  {
    hide SigOf, Snapshot;
    var entered := d.mem[id := Live(r, None)];
    assert entered[id := Live(r, Some(SigOf(r)))] == d.mem[id := Live(r, Some(SigOf(r)))];
  }

  lemma CreatedRow(d: Db, all: map<Id, Rec>, id: Id, r: Rec)
    requires InStep(d, all) && d.backend == Sqlite
    ensures InStep(d.(mem := d.mem[id := Live(r, Some(SigOf(r)))], disk := d.disk[id := r]), all[id := r])
  {
    hide SigOf;
  }

  lemma CreatedSnapshot(d: Db, all: map<Id, Rec>, id: Id, r: Rec)
    requires InStep(d, all) && d.backend == Json
    ensures var mem := d.mem[id := Live(r, Some(SigOf(r)))]; InStep(d.(mem := mem, disk := Snapshot(mem)), all[id := r])
  {
    hide SigOf;
  }

  lemma EvictInStep(d: Db, all: map<Id, Rec>, now: nat)
    requires InStep(d, all)
    ensures InStep(Evict(d, now), all)
  {
    hide SigOf, Evictable;
  }

  lemma RestartInStep(d: Db, all: map<Id, Rec>)
    requires InStep(d, all)
    ensures InStep(Restart(d), all)
  {
    hide SigOf;
  }

  lemma {:induction false} RunInStep(backend: Backend, evictMs: nat, events: seq<Event>)
    ensures InStep(Run(backend, evictMs, events), Reference(events)) && Run(backend, evictMs, events).backend == backend
  {
    hide SigOf, Touch, Create, Evict, Restart;
    if events != [] {
      var before, e := events[..|events| - 1], events[|events| - 1];
      var d, all := Run(backend, evictMs, before), Reference(before);
      RunInStep(backend, evictMs, before);
      BackendStays(d, e);
      match e
      case Creates(id, rec) => CreateInStep(d, all, id, rec);
      case Touches(id, rec) =>
        if id in all {
          TouchInStep(d, all, id, rec);
        }
      case Evicts(now) => EvictInStep(d, all, now);
      case Restarts => RestartInStep(d, all);
    }
  }

  lemma BackendStays(d: Db, e: Event)
    ensures Apply(d, e).backend == d.backend
  {
    hide SigOf;
  }

  /** After any mix of creations, touches, evictions and restarts, getSwap knows exactly the swaps of a map that never
      evicts, and agrees with it on every field that sigOf covers. */
  lemma GetSwapAgrees(backend: Backend, evictMs: nat, events: seq<Event>, id: Id)
    ensures var found := GetSwap(Run(backend, evictMs, events), id);
            (found.Some? <==> id in Reference(events))
            && (found.Some? ==> SigOf(found.value) == SigOf(Reference(events)[id]))
  {
    hide SigOf, Run, Reference;
    RunInStep(backend, evictMs, events);
  }

  // ---------------------------------------------------------------------------
  // What may be missing from memory
  // ---------------------------------------------------------------------------

  predicate Settled(r: Rec) {
    Terminal(r.s.state) && !Pending(r.w)
  }

  /** Whatever is not in the working set needs no more work: it is terminal and has no unresolved twin. */
  predicate MissingAreSettled(d: Db, all: map<Id, Rec>) {
    forall id :: id in all && id !in d.mem ==> Settled(all[id])
  }

  lemma SameSettled(a: Rec, b: Rec)
    requires SigOf(a) == SigOf(b)
    ensures Settled(a) <==> Settled(b)
  {
  }

  lemma EvictedIsSettled(r: Rec, cutoff: int)
    ensures Evictable(r, cutoff) ==> Settled(r)
  {
  }

  lemma StepMissing(d: Db, all: map<Id, Rec>, e: Event)
    requires InStep(d, all) && MissingAreSettled(d, all)
    ensures MissingAreSettled(Apply(d, e), Recall(all, e)) <==>
            (e.Touches? && e.id !in d.mem && GetSwap(d, e.id).Some? ==> Settled(e.rec))
  {
    hide SigOf, Settled;
    match e
    case Creates(id, rec) =>
    case Touches(id, rec) =>
    case Evicts(now) =>
      forall id | id in all && id !in Evict(d, now).mem ensures Settled(all[id]) {
        if id in d.mem {
          EvictedIsSettled(d.mem[id].rec, now - d.evictMs);
          SameSettled(d.mem[id].rec, all[id]);
        }
      }
    case Restarts =>
  }

  // ---------------------------------------------------------------------------
  // The coordinator's calls
  // ---------------------------------------------------------------------------

  datatype Setup = Setup(cfg: Config, rules: Rules, backend: Backend, evictMs: nat)

  /** What reaches the coordinator: a new swap, a call on the object getSwap finds, a twin probe of a swap in memory,
      the eviction timer, a restart. */
  datatype Call =
    | Starts(id: Id, terms: Terms)
    | Calls(id: Id, e: SwapRuns.Event)
    | Probes(id: Id, nodes: Per<TwinNode>, now: nat)
    | Cleans(now: nat)
    | Reboots

  /** A call that returns touches its object; one that throws does not. */
  function Effect(u: Setup, d: Db, c: Call): Option<Event> {
    match c
    case Starts(id, terms) => Some(Creates(id, Rec(Initial(terms), FRESH)))
    case Calls(id, e) =>
      if GetSwap(d, id).None? then None
      else
        var r := GetSwap(d, id).value;
        var o := SwapRuns.Apply(u.cfg, r.s, e);
        if o.ok then Some(Touches(id, Rec(o.s, r.w))) else None
    case Probes(id, nodes, now) =>
      if id !in d.mem then None
      else
        var r := d.mem[id].rec;
        var p := Probe(u.rules, r.s, Probed(r.w, true, []), nodes, now);
        if p.ok then Some(Touches(id, Rec(r.s, p.w))) else None
    case Cleans(now) => Some(Evicts(now))
    case Reboots => Some(Restarts)
  }

  function Trace(u: Setup, calls: seq<Call>): seq<Event> {
    if calls == [] then []
    else
      var before := Trace(u, calls[..|calls| - 1]);
      match Effect(u, Run(u.backend, u.evictMs, before), calls[|calls| - 1])
      case None => before
      case Some(e) => before + [e]
  }

  function After(u: Setup, calls: seq<Call>): Db {
    Run(u.backend, u.evictMs, Trace(u, calls))
  }

  lemma Extended(u: Setup, events: seq<Event>, e: Event)
    ensures Run(u.backend, u.evictMs, events + [e]) == Apply(Run(u.backend, u.evictMs, events), e)
    ensures Reference(events + [e]) == Recall(Reference(events), e)
  {
    hide Apply;
    assert (events + [e])[..|events|] == events;
  }

  /** At every point of the run nothing unsettled is missing from memory. */
  predicate AlwaysComplete(u: Setup, calls: seq<Call>) {
    && MissingAreSettled(After(u, calls), Reference(Trace(u, calls)))
    && (calls != [] ==> AlwaysComplete(u, calls[..|calls| - 1]))
  }

  /** A party's claim of TO relayed on a swap that is not in memory. */
  predicate Reopens(u: Setup, d: Db, c: Call) {
    c.Calls? && c.id !in d.mem && GetSwap(d, c.id).Some? && SwapPromises.RelaysReveal(u.cfg, GetSwap(d, c.id).value.s, c.e)
  }

  predicate NeverReopens(u: Setup, calls: seq<Call>) {
    calls != [] ==>
      var before := calls[..|calls| - 1];
      NeverReopens(u, before) && !Reopens(u, After(u, before), calls[|calls| - 1])
  }

  lemma MissingIsSettled(d: Db, all: map<Id, Rec>, id: Id)
    requires InStep(d, all) && MissingAreSettled(d, all) && id !in d.mem && GetSwap(d, id).Some?
    ensures Settled(GetSwap(d, id).value)
  {
    hide SigOf, Settled;
    SameSettled(d.disk[id], all[id]);
  }

  lemma CallMissing(u: Setup, d: Db, all: map<Id, Rec>, c: Call)
    requires InStep(d, all) && MissingAreSettled(d, all)
    ensures match Effect(u, d, c)
            case None => !Reopens(u, d, c)
            case Some(e) => MissingAreSettled(Apply(d, e), Recall(all, e)) <==> !Reopens(u, d, c)
  {
    hide InStep, MissingAreSettled, Apply, Recall, SwapRuns.Apply, SwapPromises.RelaysReveal, Probe, Pending;
    var e := Effect(u, d, c);
    if e.Some? {
      StepMissing(d, all, e.value);
    }
    if c.Calls? && c.id !in d.mem && GetSwap(d, c.id).Some? {
      MissingIsSettled(d, all, c.id);
      SwapPromises.LeavesTerminalExactly(u.cfg, GetSwap(d, c.id).value.s, c.e);
    }
  }

  /** At every point of a run of calls what is missing from memory is settled, if and only if no party's claim of TO
      is relayed on an evicted swap; in particular a swap with an unresolved twin is never evicted. */
  lemma {:induction false} WorkingSetComplete(u: Setup, calls: seq<Call>)
    ensures AlwaysComplete(u, calls) <==> NeverReopens(u, calls)
  {
    hide Effect, Run, Reference, MissingAreSettled, InStep, Reopens;
    if calls == [] {
      NothingMissing(u);
    } else {
      var before, c := calls[..|calls| - 1], calls[|calls| - 1];
      var events := Trace(u, before);
      var d := Run(u.backend, u.evictMs, events);
      WorkingSetComplete(u, before);
      RunInStep(u.backend, u.evictMs, events);
      if AlwaysComplete(u, before) {
        CallMissing(u, d, Reference(events), c);
        if Effect(u, d, c).Some? {
          Extended(u, events, Effect(u, d, c).value);
        }
      }
    }
  }

  lemma NothingMissing(u: Setup)
    ensures MissingAreSettled(After(u, []), Reference(Trace(u, [])))
  {
  }
}
