/** resources.go: the per-node cpu, memory and network levels, the kill on
    memory exhaustion, the frozen outage, the recovery and the histories. */
module Resources {
  import opened Types

  datatype ResourceType = Cpu | Memory | Network

  datatype ResourceError = NodeDown | NodeDownMem | NodeDownNetwork

  datatype ResourceConfig = ResourceConfig(
    cpuLimit: Cost, memoryLimit: Cost, networkLimit: Cost,
    memoryRecoveryMs: real, cpuDelayFactor: real, cpuRejectLimit: real,
    cpuDecayRate: Cost, memoryDecayRate: Cost, networkDecayRate: Cost)

  /** The part of a node's resource record that later steps depend on. */
  datatype Levels = Levels(cpu: real, memory: real, network: real, isDown: bool, downUntil: real)

  const FRESH := Levels(0.0, 0.0, 0.0, false, 0.0)

  // ----- The two locked sections, as functions -----

  function Kill(s: Levels, cfg: ResourceConfig, now: real): Levels {
    s.(isDown := true, downUntil := now + cfg.memoryRecoveryMs)
  }

  function Charge(s: Levels, cfg: ResourceConfig, kind: ResourceType, amount: Cost, now: real)
    : (Levels, Option<ResourceError>)
  {
    if s.isDown then (s, Some(NodeDown))
    else if kind == Network && s.network + amount > cfg.networkLimit then (s, Some(NodeDownNetwork))
    else
      var s' := match kind
        case Cpu => s.(cpu := Min(1.0, s.cpu + amount))
        case Memory => s.(memory := Min(1.0, s.memory + amount))
        case Network => s.(network := Min(1.0, s.network + amount));
      if s'.memory > cfg.memoryLimit then (Kill(s', cfg, now), Some(NodeDownMem)) else (s', None)
  }

  function Refresh(s: Levels, cfg: ResourceConfig, now: real): Levels {
    var s1 := if s.isDown && now >= s.downUntil
              then s.(isDown := false, cpu := 0.0, memory := 0.0, network := 0.0) else s;
    if s1.isDown then s1
    else s1.(cpu := Max(0.0, s1.cpu - cfg.cpuDecayRate),
             memory := Max(0.0, s1.memory - cfg.memoryDecayRate),
             network := Max(0.0, s1.network - cfg.networkDecayRate))
  }

  /** The delay for a level over its limit, in proportion to the overage. */
  function Saturation(level: real, limit: real, factor: real): real {
    if level > limit then DelayFor(level - limit, factor) else 0.0
  }

  function DelayFor(overage: real, factor: real): real {
    overage * factor
  }

  lemma DelayForSign(overage: real, factor: real)
    requires overage > 0.0
    ensures DelayFor(overage, factor) > 0.0 <==> factor > 0.0
  {
    if factor <= 0.0 { Scale(factor, 0.0, overage); }
  }

  lemma DelayForGrows(low: real, high: real, factor: real)
    requires 0.0 <= low <= high && factor >= 0.0
    ensures 0.0 <= DelayFor(low, factor) <= DelayFor(high, factor)
  {
    Scale(low, high, factor);
  }

  lemma SaturationSign(level: real, limit: real, factor: real)
    ensures Saturation(level, limit, factor) > 0.0 <==> level > limit && factor > 0.0
  {
    hide DelayFor;
    if level > limit { DelayForSign(level - limit, factor); }
  }

  lemma SaturationGrows(low: real, high: real, limit: real, factor: real)
    ensures low <= high && factor >= 0.0 ==>
              0.0 <= Saturation(low, limit, factor) <= Saturation(high, limit, factor)
  {
    hide DelayFor;
    if low <= high && factor >= 0.0 && high > limit {
      DelayForGrows(if low > limit then low - limit else 0.0, high - limit, factor);
    }
  }

  /** Beyond the limit, equal steps of the level add equal delays, at the rate of
      the factor. */
  lemma SaturationLinear(low: real, high: real, limit: real, factor: real)
    requires limit <= low <= high
    ensures Saturation(high, limit, factor) - Saturation(low, limit, factor) == (high - low) * factor
  {
    hide DelayFor;
    DelayForLinear(low - limit, high - limit, factor);
  }

  lemma DelayForLinear(x: real, y: real, factor: real)
    ensures DelayFor(y, factor) - DelayFor(x, factor) == (y - x) * factor
    ensures x == 0.0 ==> DelayFor(x, factor) == 0.0
  {}

  function CpuDelay(s: Levels, cfg: ResourceConfig): real {
    Saturation(s.cpu, cfg.cpuLimit, cfg.cpuDelayFactor)
  }

  /** Holds of every reachable record: down exactly when memory is over its limit. */
  ghost predicate Sound(s: Levels, cfg: ResourceConfig) {
    && (s.isDown <==> s.memory > cfg.memoryLimit)
    && 0.0 <= s.cpu <= 1.0 && 0.0 <= s.memory <= 1.0 && 0.0 <= s.network <= 1.0
    && s.network <= cfg.networkLimit
  }

  lemma FreshSound(cfg: ResourceConfig)
    ensures Sound(FRESH, cfg)
  {}

  lemma StepsSound(s: Levels, cfg: ResourceConfig, kind: ResourceType, amount: Cost, now: real)
    requires Sound(s, cfg)
    ensures Sound(Charge(s, cfg, kind, amount, now).0, cfg)
    ensures Sound(Refresh(s, cfg, now), cfg)
  {}

  /** A step takes an up node down exactly when it is a memory charge that
      crosses the limit; cpu and network charges never do. */
  lemma OnlyMemoryKills(s: Levels, cfg: ResourceConfig, kind: ResourceType, amount: Cost, now: real)
    requires Sound(s, cfg) && !s.isDown
    ensures Charge(s, cfg, kind, amount, now).0.isDown
       <==> kind == Memory && Min(1.0, s.memory + amount) > cfg.memoryLimit
    ensures !Refresh(s, cfg, now).isDown
  {}

  /** A cpu or network charge changes nothing but its own level. */
  lemma OwnLevelOnly(s: Levels, cfg: ResourceConfig, amount: Cost, now: real)
    requires Sound(s, cfg)
    ensures var s' := Charge(s, cfg, Network, amount, now).0; s' == s.(network := s'.network)
    ensures var s' := Charge(s, cfg, Cpu, amount, now).0; s' == s.(cpu := s'.cpu)
  {}

  /** A network charge fails exactly on a node that is down or whose limit it
      would cross, and then changes nothing. */
  lemma NetworkRefused(s: Levels, cfg: ResourceConfig, amount: Cost, now: real)
    requires Sound(s, cfg)
    ensures var (s', err) := Charge(s, cfg, Network, amount, now);
            && (err != None <==> s.isDown || s.network + amount > cfg.networkLimit)
            && (err != None ==> s' == s) && s'.isDown == s.isDown && err != Some(NodeDownMem)
            && (err == None ==> s'.network == Min(1.0, s.network + amount))
  {}

  /** Charging never lowers the cpu level, so with a non-negative factor the
      saturation delay never shrinks between two refreshes. */
  lemma DelayGrows(s: Levels, cfg: ResourceConfig, kind: ResourceType, amount: Cost, now: real)
    requires Sound(s, cfg)
    ensures s.cpu <= Charge(s, cfg, kind, amount, now).0.cpu
    ensures cfg.cpuDelayFactor >= 0.0 ==> CpuDelay(s, cfg) <= CpuDelay(Charge(s, cfg, kind, amount, now).0, cfg)
  {
    hide CpuDelay;
    if cfg.cpuDelayFactor >= 0.0 { DelayFollowsCpu(s, Charge(s, cfg, kind, amount, now).0, cfg); }
  }

  lemma DelayFollowsCpu(a: Levels, b: Levels, cfg: ResourceConfig)
    requires a.cpu <= b.cpu && cfg.cpuDelayFactor >= 0.0
    ensures CpuDelay(a, cfg) <= CpuDelay(b, cfg)
  {
    SaturationGrows(a.cpu, b.cpu, cfg.cpuLimit, cfg.cpuDelayFactor);
  }

  // ----- Runs: any charges, then the tick's one refresh, then any charges -----

  datatype Demand = Demand(kind: ResourceType, amount: Cost)

  /** What happens to one node during one tick, around that tick's refresh. */
  datatype TickWork = TickWork(before: seq<Demand>, after: seq<Demand>)

  function ChargeAll(s: Levels, cfg: ResourceConfig, ds: seq<Demand>, now: real): Levels
    decreases |ds|
  {
    if ds == [] then s
    else ChargeAll(Charge(s, cfg, ds[0].kind, ds[0].amount, now).0, cfg, ds[1..], now)
  }

  /** The record at the start of tick k of a run whose clock starts at `start`. */
  function AtTick(cfg: ResourceConfig, work: seq<TickWork>, start: int, k: nat): Levels
    requires k <= |work|
    decreases k, 0
  {
    if k == 0 then FRESH
    else ChargeAll(Recorded(cfg, work, start, k - 1), cfg, work[k - 1].after, (start + k - 1) as real)
  }

  /** The record when tick k's refresh appends to the histories. */
  function Recorded(cfg: ResourceConfig, work: seq<TickWork>, start: int, k: nat): Levels
    requires k < |work|
    decreases k, 2
  {
    Refresh(BeforeRefresh(cfg, work, start, k), cfg, (start + k) as real)
  }

  function BeforeRefresh(cfg: ResourceConfig, work: seq<TickWork>, start: int, k: nat): Levels
    requires k < |work|
    decreases k, 1
  {
    ChargeAll(AtTick(cfg, work, start, k), cfg, work[k].before, (start + k) as real)
  }

  function LevelOf(s: Levels, kind: ResourceType): real {
    match kind
    case Cpu => s.cpu
    case Memory => s.memory
    case Network => s.network
  }

  function History(cfg: ResourceConfig, work: seq<TickWork>, start: int, kind: ResourceType): (h: seq<real>)
    ensures |h| == |work|
  {
    seq(|work|, k requires 0 <= k < |work| => LevelOf(Recorded(cfg, work, start, k), kind))
  }

  lemma {:induction false} ChargeAllSound(s: Levels, cfg: ResourceConfig, ds: seq<Demand>, now: real)
    requires Sound(s, cfg)
    ensures Sound(ChargeAll(s, cfg, ds, now), cfg)
    ensures s.isDown ==> ChargeAll(s, cfg, ds, now) == s
    ensures !s.isDown && ChargeAll(s, cfg, ds, now).isDown
        ==> ChargeAll(s, cfg, ds, now).downUntil == now + cfg.memoryRecoveryMs
    decreases |ds|
  {
    if ds != [] {
      var s' := Charge(s, cfg, ds[0].kind, ds[0].amount, now).0;
      StepsSound(s, cfg, ds[0].kind, ds[0].amount, now);
      ChargeAllSound(s', cfg, ds[1..], now);
    }
  }

  lemma {:induction false} ChargeAllConcat(s: Levels, cfg: ResourceConfig, a: seq<Demand>, b: seq<Demand>, now: real)
    ensures ChargeAll(s, cfg, a + b, now) == ChargeAll(ChargeAll(s, cfg, a, now), cfg, b, now)
    decreases |a|
  {
    if a == [] {
      assert a + b == b;
    } else {
      assert (a + b)[1..] == a[1..] + b;
      ChargeAllConcat(Charge(s, cfg, a[0].kind, a[0].amount, now).0, cfg, a[1..], b, now);
    }
  }

  /** What the demands of one kind add up to. */
  function Total(ds: seq<Demand>, kind: ResourceType): real
    ensures Total(ds, kind) >= 0.0
  {
    if ds == [] then 0.0 else (if ds[0].kind == kind then ds[0].amount else 0.0) + Total(ds[1..], kind)
  }

  lemma {:induction false} TotalConcat(a: seq<Demand>, b: seq<Demand>, kind: ResourceType)
    ensures Total(a + b, kind) == Total(a, kind) + Total(b, kind)
  {
    if a == [] {
      assert a + b == b;
    } else {
      assert (a + b)[1..] == a[1..] + b;
      TotalConcat(a[1..], b, kind);
    }
  }

  lemma TotalOne(d: Demand, kind: ResourceType)
    ensures Total([d], kind) == if d.kind == kind then d.amount else 0.0
  {
    assert [d][1..] == [];
  }

  /** What the network demands add up to that are met in turn: those that, with
      the ones met before, stay within the limit. */
  function Granted(network: real, limit: real, ds: seq<Demand>): (sum: real)
    ensures sum >= 0.0
    decreases |ds|
  {
    if ds == [] then 0.0
    else if ds[0].kind.Network? && network + ds[0].amount <= limit
    then ds[0].amount + Granted(Min(1.0, network + ds[0].amount), limit, ds[1..])
    else Granted(network, limit, ds[1..])
  }

  /** Charges add up: a node that stays up through them has used exactly their
      sums, capped at 1, of cpu and memory, and of the network what was met. */
  lemma {:induction false} ChargesAddUp(s: Levels, cfg: ResourceConfig, ds: seq<Demand>, now: real)
    requires Sound(s, cfg) && !ChargeAll(s, cfg, ds, now).isDown
    ensures !s.isDown
    ensures ChargeAll(s, cfg, ds, now).cpu == Min(1.0, s.cpu + Total(ds, Cpu))
    ensures ChargeAll(s, cfg, ds, now).memory == Min(1.0, s.memory + Total(ds, Memory))
    ensures ChargeAll(s, cfg, ds, now).network == Min(1.0, s.network + Granted(s.network, cfg.networkLimit, ds))
    decreases |ds|
  {
    ChargeAllSound(s, cfg, ds, now);
    if ds != [] {
      var s' := Charge(s, cfg, ds[0].kind, ds[0].amount, now).0;
      StepsSound(s, cfg, ds[0].kind, ds[0].amount, now);
      ChargesAddUp(s', cfg, ds[1..], now);
    }
  }

  /** An up node dies of its charges exactly when their memory passes the limit. */
  lemma {:induction false} DiesExactly(s: Levels, cfg: ResourceConfig, ds: seq<Demand>, now: real)
    requires Sound(s, cfg) && !s.isDown
    ensures ChargeAll(s, cfg, ds, now).isDown <==> Min(1.0, s.memory + Total(ds, Memory)) > cfg.memoryLimit
    decreases |ds|
  {
    if ds != [] {
      var s' := Charge(s, cfg, ds[0].kind, ds[0].amount, now).0;
      StepsSound(s, cfg, ds[0].kind, ds[0].amount, now);
      if s'.isDown { ChargeAllSound(s', cfg, ds[1..], now); } else { DiesExactly(s', cfg, ds[1..], now); }
    }
  }

  /** Ticks k+1 .. k+n bring no charges, after tick k's refresh. */
  ghost predicate Idle(work: seq<TickWork>, k: nat, n: nat)
    requires k + n < |work|
  {
    forall i :: k < i <= k + n ==> Still(work, i)
  }

  predicate Still(work: seq<TickWork>, i: int) {
    0 < i < |work| && work[i - 1].after == [] && work[i].before == []
  }

  function Decayed(x: real, rate: real, n: nat): real {
    Max(0.0, x - n as real * rate)
  }

  lemma DecayOnce(x: real, rate: real, n: nat)
    requires rate >= 0.0
    ensures x >= 0.0 ==> Decayed(x, rate, 0) == x
    ensures Max(0.0, Decayed(x, rate, n) - rate) == Decayed(x, rate, n + 1)
  {
    OneMore(n, rate);
  }

  lemma IdleTick(cfg: ResourceConfig, work: seq<TickWork>, start: int, k: nat)
    requires Still(work, k + 1)
    ensures Recorded(cfg, work, start, k + 1) == Refresh(Recorded(cfg, work, start, k), cfg, (start + k + 1) as real)
  {
    assert AtTick(cfg, work, start, k + 1) == Recorded(cfg, work, start, k);
    assert BeforeRefresh(cfg, work, start, k + 1) == AtTick(cfg, work, start, k + 1);
  }

  /** An up node that is left alone decays: after n ticks each level has lost n
      times its own rate, down to zero. */
  lemma {:induction false} IdleLevels(cfg: ResourceConfig, work: seq<TickWork>, start: int, k: nat, n: nat)
    requires k + n < |work| && Idle(work, k, n) && !Recorded(cfg, work, start, k).isDown
    ensures !Recorded(cfg, work, start, k + n).isDown
    ensures var s, e := Recorded(cfg, work, start, k), Recorded(cfg, work, start, k + n);
            && e.cpu == Decayed(s.cpu, cfg.cpuDecayRate, n)
            && e.memory == Decayed(s.memory, cfg.memoryDecayRate, n)
            && e.network == Decayed(s.network, cfg.networkDecayRate, n)
    decreases n
  {
    hide Recorded, Decayed;
    var s, m: nat := Recorded(cfg, work, start, k), if n == 0 then 0 else n - 1;
    DecayOnce(s.cpu, cfg.cpuDecayRate, m);
    DecayOnce(s.memory, cfg.memoryDecayRate, m);
    DecayOnce(s.network, cfg.networkDecayRate, m);
    if n == 0 {
      RunSound(cfg, work, start, k);
    } else {
      IdleLevels(cfg, work, start, k, m);
      IdleTick(cfg, work, start, k + m);
    }
  }

  /** The histories show the decay of each level at its own rate. */
  lemma IdleDecays(cfg: ResourceConfig, work: seq<TickWork>, start: int, k: nat, n: nat)
    requires k + n < |work| && Idle(work, k, n) && !Recorded(cfg, work, start, k).isDown
    ensures History(cfg, work, start, Cpu)[k + n]
         == Max(0.0, History(cfg, work, start, Cpu)[k] - n as real * cfg.cpuDecayRate)
    ensures History(cfg, work, start, Memory)[k + n]
         == Max(0.0, History(cfg, work, start, Memory)[k] - n as real * cfg.memoryDecayRate)
    ensures History(cfg, work, start, Network)[k + n]
         == Max(0.0, History(cfg, work, start, Network)[k] - n as real * cfg.networkDecayRate)
  {
    hide Recorded;
    IdleLevels(cfg, work, start, k, n);
  }

  /** So its memory reads 0 after ceil(level / rate) ticks. */
  lemma IdleForgets(cfg: ResourceConfig, work: seq<TickWork>, start: int, k: nat, n: nat)
    requires k + n < |work| && Idle(work, k, n) && !Recorded(cfg, work, start, k).isDown
    requires cfg.memoryDecayRate > 0.0 && n >= Ceil(History(cfg, work, start, Memory)[k] / cfg.memoryDecayRate)
    ensures History(cfg, work, start, Memory)[k + n] == 0.0
  {
    hide Recorded;
    IdleDecays(cfg, work, start, k, n);
    var m, rate := History(cfg, work, start, Memory)[k], cfg.memoryDecayRate;
    Scale(m / rate, n as real, rate);
    assert m / rate * rate == m;
  }

  /** Every record of every run is sound. */
  lemma {:induction false} RunSound(cfg: ResourceConfig, work: seq<TickWork>, start: int, k: nat)
    requires k <= |work|
    ensures Sound(AtTick(cfg, work, start, k), cfg)
    ensures k < |work| ==> Sound(BeforeRefresh(cfg, work, start, k), cfg)
    ensures k < |work| ==> Sound(Recorded(cfg, work, start, k), cfg)
  {
    if k > 0 {
      RunSound(cfg, work, start, k - 1);
      ChargeAllSound(Recorded(cfg, work, start, k - 1), cfg, work[k - 1].after, (start + k - 1) as real);
    }
    if k < |work| {
      ChargeAllSound(AtTick(cfg, work, start, k), cfg, work[k].before, (start + k) as real);
    }
  }

  /** The memory history exceeds the limit at exactly the ticks recorded down. */
  lemma HistoryShowsOutages(cfg: ResourceConfig, work: seq<TickWork>, start: int, k: nat)
    requires k < |work|
    ensures History(cfg, work, start, Memory)[k] > cfg.memoryLimit <==> Recorded(cfg, work, start, k).isDown
  {
    RunSound(cfg, work, start, k);
  }

  /** Tick k kills the node before (early) or after (late) its refresh. */
  ghost predicate KilledEarly(cfg: ResourceConfig, work: seq<TickWork>, start: int, k: nat)
    requires k < |work|
  {
    !AtTick(cfg, work, start, k).isDown && BeforeRefresh(cfg, work, start, k).isDown
  }

  ghost predicate KilledLate(cfg: ResourceConfig, work: seq<TickWork>, start: int, k: nat)
    requires k < |work|
  {
    !Recorded(cfg, work, start, k).isDown && AtTick(cfg, work, start, k + 1).isDown
  }

  /** The record a kill in tick k leaves, and the first refresh that sees it. */
  ghost function Corpse(cfg: ResourceConfig, work: seq<TickWork>, start: int, k: nat): Levels
    requires k < |work|
  {
    if KilledEarly(cfg, work, start, k) then BeforeRefresh(cfg, work, start, k) else AtTick(cfg, work, start, k + 1)
  }

  ghost function FirstDownEntry(cfg: ResourceConfig, work: seq<TickWork>, start: int, k: nat): nat
    requires k < |work|
  {
    if KilledEarly(cfg, work, start, k) then k else k + 1
  }

  /** A record that is down is met unchanged by every refresh up to the one
      that revives it. */
  lemma {:induction false} Frozen(cfg: ResourceConfig, work: seq<TickWork>, start: int,
                                  first: nat, dead: Levels, i: nat)
    requires first <= i < |work| && Sound(dead, cfg) && dead.isDown
    requires BeforeRefresh(cfg, work, start, first) == dead
    requires i > first ==> (start + i - 1) as real < dead.downUntil
    ensures BeforeRefresh(cfg, work, start, i) == dead
  {
    if i > first {
      Frozen(cfg, work, start, first, dead, i - 1);
      assert Recorded(cfg, work, start, i - 1) == dead;
      ChargeAllSound(dead, cfg, work[i - 1].after, (start + i - 1) as real);
      ChargeAllSound(dead, cfg, work[i].before, (start + i) as real);
    }
  }

  lemma CorpseFacts(cfg: ResourceConfig, work: seq<TickWork>, start: int, k: nat)
    requires k < |work| && (KilledEarly(cfg, work, start, k) || KilledLate(cfg, work, start, k))
    ensures var dead := Corpse(cfg, work, start, k);
            && Sound(dead, cfg) && dead.isDown
            && dead.downUntil == (start + k) as real + cfg.memoryRecoveryMs
    ensures FirstDownEntry(cfg, work, start, k) < |work| ==>
              BeforeRefresh(cfg, work, start, FirstDownEntry(cfg, work, start, k)) == Corpse(cfg, work, start, k)
  {
    var now := (start + k) as real;
    RunSound(cfg, work, start, k);
    ChargeAllSound(AtTick(cfg, work, start, k), cfg, work[k].before, now);
    ChargeAllSound(Recorded(cfg, work, start, k), cfg, work[k].after, now);
    if !KilledEarly(cfg, work, start, k) && k + 1 < |work| {
      ChargeAllSound(AtTick(cfg, work, start, k + 1), cfg, work[k + 1].before, now + 1.0);
    }
  }

  /** The entry recorded by the refresh that revives a node killed in tick k. */
  ghost function RevivalEntry(cfg: ResourceConfig, work: seq<TickWork>, start: int, k: nat): nat
    requires k < |work|
  {
    var first := FirstDownEntry(cfg, work, start, k);
    if k + Ceil(cfg.memoryRecoveryMs) > first then k + Ceil(cfg.memoryRecoveryMs) else first
  }

  /** The history reads back the outage of a kill in tick k: over-limit, frozen
      entries from the first refresh after it up to the reviving one, which
      records all zeros. With a recovery time R > 0 that is ceil(R) over-limit
      entries for an early kill and ceil(R) - 1 for a late one; with R <= 0, none. */
  lemma OutageReadBack(cfg: ResourceConfig, work: seq<TickWork>, start: int, k: nat, i: nat)
    requires k < |work|
    requires KilledEarly(cfg, work, start, k) || KilledLate(cfg, work, start, k)
    requires FirstDownEntry(cfg, work, start, k) <= i <= RevivalEntry(cfg, work, start, k) && i < |work|
    ensures i < RevivalEntry(cfg, work, start, k) ==>
              && Recorded(cfg, work, start, i) == Corpse(cfg, work, start, k)
              && History(cfg, work, start, Memory)[i] == Corpse(cfg, work, start, k).memory > cfg.memoryLimit
    ensures i == RevivalEntry(cfg, work, start, k) ==>
              Recorded(cfg, work, start, i) == FRESH.(downUntil := (start + k) as real + cfg.memoryRecoveryMs)
    ensures cfg.memoryRecoveryMs > 0.0 ==>
              RevivalEntry(cfg, work, start, k) - FirstDownEntry(cfg, work, start, k)
              == Ceil(cfg.memoryRecoveryMs) - (if KilledEarly(cfg, work, start, k) then 0 else 1)
    ensures cfg.memoryRecoveryMs <= 0.0 ==>
              RevivalEntry(cfg, work, start, k) == FirstDownEntry(cfg, work, start, k)
  {
    CorpseFacts(cfg, work, start, k);
    CeilIsLeastAbove(cfg.memoryRecoveryMs);
    Frozen(cfg, work, start, FirstDownEntry(cfg, work, start, k), Corpse(cfg, work, start, k), i);
  }

  // ----- What the runner's charges make of a record -----

  /** Alike but for the network, which calls from other nodes charge at any time. */
  predicate Same(x: Levels, y: Levels) {
    x == y.(network := x.network)
  }

  predicate NoNetwork(bill: seq<Demand>) {
    forall i :: 0 <= i < |bill| ==> !bill[i].kind.Network?
  }

  lemma SameSteps(x: Levels, y: Levels, cfg: ResourceConfig, kind: ResourceType, amount: Cost, now: real)
    requires Same(x, y)
    ensures Same(Refresh(x, cfg, now), Refresh(y, cfg, now))
    ensures !kind.Network? ==> Charge(x, cfg, kind, amount, now).1 == Charge(y, cfg, kind, amount, now).1
    ensures !kind.Network? ==> Same(Charge(x, cfg, kind, amount, now).0, Charge(y, cfg, kind, amount, now).0)
    ensures Sound(x, cfg) && kind.Network? ==> Same(Charge(x, cfg, kind, amount, now).0, y)
  {}

  lemma {:induction false} SameChargeAll(x: Levels, y: Levels, cfg: ResourceConfig, bill: seq<Demand>, now: real)
    requires Same(x, y) && NoNetwork(bill)
    ensures Same(ChargeAll(x, cfg, bill, now), ChargeAll(y, cfg, bill, now))
    decreases |bill|
  {
    if bill != [] {
      var d := bill[0];
      SameSteps(x, y, cfg, d.kind, d.amount, now);
      SameChargeAll(Charge(x, cfg, d.kind, d.amount, now).0, Charge(y, cfg, d.kind, d.amount, now).0,
                    cfg, bill[1..], now);
    }
  }

  /** The refresh after the first i charges of the bill. */
  function RefreshedAt(s: Levels, cfg: ResourceConfig, bill: seq<Demand>, i: nat, now: real): Levels
    requires i <= |bill|
  {
    ChargeAll(Refresh(ChargeAll(s, cfg, bill[..i], now), cfg, now), cfg, bill[i..], now)
  }

  /** Network apart, the record went from s to e by the charges of the bill and
      nothing else but, if refreshed, the tick's refresh somewhere among them. */
  ghost predicate Paid(s: Levels, e: Levels, refreshed: bool, bill: seq<Demand>, cfg: ResourceConfig, now: real) {
    if refreshed then exists i: nat :: i <= |bill| && Same(e, RefreshedAt(s, cfg, bill, i, now))
    else Same(e, ChargeAll(s, cfg, bill, now))
  }

  lemma PaidConcat(s: Levels, m: Levels, e: Levels, r1: bool, r2: bool, b1: seq<Demand>, b2: seq<Demand>,
                   cfg: ResourceConfig, now: real)
    requires Paid(s, m, r1, b1, cfg, now) && Paid(m, e, r2, b2, cfg, now) && !(r1 && r2)
    requires NoNetwork(b1) && NoNetwork(b2)
    ensures Paid(s, e, r1 || r2, b1 + b2, cfg, now) && NoNetwork(b1 + b2)
  {
    if r1 {
      var i: nat :| i <= |b1| && Same(m, RefreshedAt(s, cfg, b1, i, now));
      RefreshedBefore(s, m, cfg, b1, b2, i, now);
      assert Same(e, RefreshedAt(s, cfg, b1 + b2, i, now));
    } else if r2 {
      var i: nat :| i <= |b2| && Same(e, RefreshedAt(m, cfg, b2, i, now));
      RefreshedAfter(s, m, cfg, b1, b2, i, now);
      assert Same(e, RefreshedAt(s, cfg, b1 + b2, |b1| + i, now));
    } else {
      SameChargeAll(m, ChargeAll(s, cfg, b1, now), cfg, b2, now);
      ChargeAllConcat(s, cfg, b1, b2, now);
    }
  }

  lemma RefreshedBefore(s: Levels, m: Levels, cfg: ResourceConfig, b1: seq<Demand>, b2: seq<Demand>, i: nat, now: real)
    requires i <= |b1| && Same(m, RefreshedAt(s, cfg, b1, i, now)) && NoNetwork(b2)
    ensures Same(ChargeAll(m, cfg, b2, now), RefreshedAt(s, cfg, b1 + b2, i, now))
  {
    var t := Refresh(ChargeAll(s, cfg, b1[..i], now), cfg, now);
    SameChargeAll(m, RefreshedAt(s, cfg, b1, i, now), cfg, b2, now);
    ChargeAllConcat(t, cfg, b1[i..], b2, now);
    assert (b1 + b2)[..i] == b1[..i] && (b1 + b2)[i..] == b1[i..] + b2;
  }

  lemma RefreshedAfter(s: Levels, m: Levels, cfg: ResourceConfig, b1: seq<Demand>, b2: seq<Demand>, i: nat, now: real)
    requires i <= |b2| && Same(m, ChargeAll(s, cfg, b1, now)) && NoNetwork(b2)
    ensures Same(RefreshedAt(m, cfg, b2, i, now), RefreshedAt(s, cfg, b1 + b2, |b1| + i, now))
  {
    var x, y := ChargeAll(m, cfg, b2[..i], now), ChargeAll(s, cfg, b1 + b2[..i], now);
    SameChargeAll(m, ChargeAll(s, cfg, b1, now), cfg, b2[..i], now);
    ChargeAllConcat(s, cfg, b1, b2[..i], now);
    SameSteps(x, y, cfg, Cpu, 0.0, now);
    SameChargeAll(Refresh(x, cfg, now), Refresh(y, cfg, now), cfg, b2[i..], now);
    assert (b1 + b2)[..|b1| + i] == b1 + b2[..i] && (b1 + b2)[|b1| + i..] == b2[i..];
  }

  lemma PaidOne(s: Levels, cfg: ResourceConfig, kind: ResourceType, amount: Cost, now: real)
    requires Sound(s, cfg)
    ensures Paid(s, Charge(s, cfg, kind, amount, now).0, false,
                 if kind.Network? then [] else [Demand(kind, amount)], cfg, now)
  {
    var bill := [Demand(kind, amount)];
    assert bill[1..] == [];
    assert ChargeAll(s, cfg, bill, now) == ChargeAll(Charge(s, cfg, kind, amount, now).0, cfg, bill[1..], now);
    SameSteps(s, s, cfg, kind, amount, now);
  }

  lemma PaidRefresh(s: Levels, cfg: ResourceConfig, now: real)
    ensures Paid(s, Refresh(s, cfg, now), true, [], cfg, now)
  {
    var none: seq<Demand> := [];
    assert none[..0] == none && none[0..] == none;
    assert Same(Refresh(s, cfg, now), RefreshedAt(s, cfg, none, 0, now));
  }

  /** What a bill leaves on a node that is still up and was not refreshed. */
  lemma PaidAddsUp(s: Levels, e: Levels, bill: seq<Demand>, cfg: ResourceConfig, now: real)
    requires Sound(s, cfg) && Paid(s, e, false, bill, cfg, now) && !e.isDown
    ensures e.cpu == Min(1.0, s.cpu + Total(bill, Cpu)) && e.memory == Min(1.0, s.memory + Total(bill, Memory))
  {
    ChargesAddUp(s, cfg, bill, now);
  }

  // ----- The record itself -----

  datatype ResourceState = ResourceState(current: real, limit: real, historical: seq<real>)

  class NodeResources {
    var cpu: ResourceState
    var memory: ResourceState
    var network: ResourceState
    var isDown: bool
    var downUntil: real
    var pendingWork: seq<Call>
    const config: ResourceConfig
    ghost var trace: seq<Levels>  // every state the record has been left in, the present one last

    constructor (config: ResourceConfig)
      ensures this.config == config && Valid() && State() == FRESH && pendingWork == []
      ensures memory.historical == cpu.historical == network.historical == []
    {
      this.config := config;
      cpu := ResourceState(0.0, config.cpuLimit, []);
      memory := ResourceState(0.0, config.memoryLimit, []);
      network := ResourceState(0.0, config.networkLimit, []);
      isDown, downUntil := false, 0.0;
      pendingWork := [];
      trace := [FRESH];
    }

    predicate Limits()
      reads this
    {
      cpu.limit == config.cpuLimit && memory.limit == config.memoryLimit && network.limit == config.networkLimit
    }

    ghost predicate Valid()
      reads this
    {
      Limits() && Sound(State(), config) && trace != [] && trace[|trace| - 1] == State()
    }

    ghost function State(): Levels
      reads this
    {
      Levels(cpu.current, memory.current, network.current, isDown, downUntil)
    }

    ghost function Histories(): (seq<real>, seq<real>, seq<real>)
      reads this
    {
      (cpu.historical, memory.historical, network.historical)
    }

    predicate IsAvailable()
      reads this
    {
      !isDown
    }

    method ConsumeResources(kind: ResourceType, amount: Cost, now: real) returns (err: Option<ResourceError>)
      requires Valid()
      modifies this
      ensures Valid() && Histories() == old(Histories())
      ensures (State(), err) == Charge(old(State()), config, kind, amount, now)
      ensures pendingWork == if err == Some(NodeDownMem) then [] else old(pendingWork)
      ensures trace == old(trace) + [State()]
    {
      StepsSound(State(), config, kind, amount, now);
      trace := trace + [Charge(State(), config, kind, amount, now).0];
      if isDown {
        return Some(NodeDown);
      }
      match kind {
        case Cpu =>
          cpu := cpu.(current := Min(1.0, cpu.current + amount));
        case Memory =>
          memory := memory.(current := Min(1.0, memory.current + amount));
        case Network =>
          if network.current + amount > network.limit {
            return Some(NodeDownNetwork);
          }
          network := network.(current := Min(1.0, network.current + amount));
      }
      err := None;
      if memory.current > memory.limit {
        isDown := true;
        downUntil := now + config.memoryRecoveryMs;
        pendingWork := [];
        err := Some(NodeDownMem);
      }
    }

    /** updateResources up to its unlock; the caller runs the full cleanup on true. */
    method UpdateResources(now: real) returns (needsRecovery: bool)
      requires Valid()
      modifies this
      ensures Valid() && State() == Refresh(old(State()), config, now)
      ensures needsRecovery <==> old(isDown) && !isDown
      ensures Histories() == (old(cpu.historical) + [cpu.current], old(memory.historical) + [memory.current],
                              old(network.historical) + [network.current])
      ensures pendingWork == old(pendingWork)
      ensures trace == old(trace) + [State()]
    {
      StepsSound(State(), config, Cpu, 0.0, now);
      trace := trace + [Refresh(State(), config, now)];
      needsRecovery := false;
      if isDown && now >= downUntil {
        isDown := false;
        cpu, memory, network := cpu.(current := 0.0), memory.(current := 0.0), network.(current := 0.0);
        needsRecovery := true;
      }
      if !isDown {
        cpu := cpu.(current := Max(0.0, cpu.current - config.cpuDecayRate));
        memory := memory.(current := Max(0.0, memory.current - config.memoryDecayRate));
        network := network.(current := Max(0.0, network.current - config.networkDecayRate));
      }
      cpu := cpu.(historical := cpu.historical + [cpu.current]);
      memory := memory.(historical := memory.historical + [memory.current]);
      network := network.(historical := network.historical + [network.current]);
    }

    function CalculateCPUDelay(): (delay: real)
      reads this
      ensures delay > 0.0 <==> cpu.current > cpu.limit && config.cpuDelayFactor > 0.0
      ensures Limits() ==> delay == CpuDelay(State(), config)
      ensures Valid() && config.cpuDelayFactor >= 0.0 ==>
                0.0 <= delay <= Saturation(1.0, config.cpuLimit, config.cpuDelayFactor)
    {
      SaturationSign(cpu.current, cpu.limit, config.cpuDelayFactor);
      SaturationGrows(cpu.current, 1.0, cpu.limit, config.cpuDelayFactor);
      Saturation(cpu.current, cpu.limit, config.cpuDelayFactor)
    }
  }

  method ConsumeAll(res: NodeResources, ds: seq<Demand>, now: real)
    requires res.Valid()
    modifies res
    ensures res.Valid() && res.Histories() == old(res.Histories())
    ensures res.State() == ChargeAll(old(res.State()), res.config, ds, now)
  {
    var i := 0;
    while i < |ds|
      invariant 0 <= i <= |ds| && res.Valid() && res.Histories() == old(res.Histories())
      invariant ChargeAll(res.State(), res.config, ds[i..], now) == ChargeAll(old(res.State()), res.config, ds, now)
    {
      assert ds[i..][1..] == ds[i + 1..];
      var _ := res.ConsumeResources(ds[i].kind, ds[i].amount, now);
      i := i + 1;
    }
  }

  /** One node's share of Loop.Run: one refresh per tick, charges around it. */
  method RunNode(res: NodeResources, work: seq<TickWork>, start: int)
    requires res.Valid() && res.State() == FRESH && res.Histories() == ([], [], [])
    modifies res
    ensures res.Valid() && res.State() == AtTick(res.config, work, start, |work|)
    ensures res.Histories() == (History(res.config, work, start, Cpu), History(res.config, work, start, Memory),
                                History(res.config, work, start, Network))
  {
    FreshSound(res.config);
    var t := 0;
    while t < |work|
      invariant 0 <= t <= |work| && res.Valid()
      invariant res.State() == AtTick(res.config, work, start, t)
      invariant res.cpu.historical == History(res.config, work, start, Cpu)[..t]
      invariant res.memory.historical == History(res.config, work, start, Memory)[..t]
      invariant res.network.historical == History(res.config, work, start, Network)[..t]
    {
      var now := (start + t) as real;
      ConsumeAll(res, work[t].before, now);
      assert res.State() == BeforeRefresh(res.config, work, start, t);
      var _ := res.UpdateResources(now);
      assert res.State() == Recorded(res.config, work, start, t);
      ConsumeAll(res, work[t].after, now);
      assert res.State() == AtTick(res.config, work, start, t + 1);
      t := t + 1;
    }
    assert History(res.config, work, start, Cpu)[..t] == History(res.config, work, start, Cpu);
    assert History(res.config, work, start, Memory)[..t] == History(res.config, work, start, Memory);
    assert History(res.config, work, start, Network)[..t] == History(res.config, work, start, Network);
  }
}
