/** The search for a pair of adjacent UDP ports, an even one for RTP and the next
    for RTCP: from a random start upwards in steps of two, around to the lowest
    port, and up to the start again. The port of the loop has 16 bits: past an upper
    bound of 65534 or 65535 it can run over to 0, where a bind takes any port. */
module PortSearch {
  import opened Integers
  import opened Wrappers

  const MAX_PORT := 65535
  const LOWEST_USER_PORT := 1025

  type Port = UInt16

  /** How the rest of the machine answers the t-th bind of a search: whether a port is
      free, and which port a bind of port 0 is given, if any. */
  datatype Machine = Machine(free: (nat, Port) -> bool, ephemeral: nat -> Option<Port>)

  /** What a search goes by: the machine, the ports this process holds already, the range
      and the random first port. */
  datatype Search = Search(machine: Machine, busy: set<Port>, min: Port, max: Port, start: Port)

  datatype Pair = Pair(rtp: Port, rtcp: Port)

  function EffectiveMin(minPort: Port): Port { if minPort < LOWEST_USER_PORT then LOWEST_USER_PORT else minPort }

  function EffectiveMax(maxPort: Port): Port { if maxPort == 0 then MAX_PORT else maxPort }

  /** A port of the caller's range: one a normal user can open, from minPort up to maxPort,
      which at 0 sets no bound. */
  predicate Given(p: int, minPort: Port, maxPort: Port) {
    1024 < p <= 65535 && minPort <= p && (maxPort == 0 || p <= maxPort)
  }

  ghost predicate TwoGiven(minPort: Port, maxPort: Port) {
    exists p: int, q: int :: Given(p, minPort, maxPort) && Given(q, minPort, maxPort) && p != q
  }

  /** The search goes over the caller's range, and there is none when it has not two ports. */
  lemma SearchesGivenRange(minPort: Port, maxPort: Port)
    ensures forall p: int :: EffectiveMin(minPort) <= p <= EffectiveMax(maxPort) <==> Given(p, minPort, maxPort)
    ensures EffectiveMin(minPort) < EffectiveMax(maxPort) <==> TwoGiven(minPort, maxPort)
  {
    var min, max := EffectiveMin(minPort), EffectiveMax(maxPort);
    if min < max {
      assert Given(min, minPort, maxPort) && Given(max, minPort, maxPort);
    }
  }

  predicate InRange(p: int, min: Port, max: Port) { min <= p <= max }

  function Partner(p: Port): Port { if p % 2 == 1 then p - 1 else p + 1 }

  // ---- One attempt ----

  /** The port a bind ends up on. */
  function Bind(machine: Machine, busy: set<Port>, t: nat, p: Port): (r: Option<Port>)
    ensures r.Some? ==> r.value !in busy && r.value != 0 && (p != 0 ==> r.value == p)
  {
    if p != 0 then (if machine.free(t, p) && p !in busy then Some(p) else None)
    else
      match machine.ephemeral(t)
      case None => None
      case Some(q) => if q == 0 || q in busy then None else Some(q)
  }

  /** What an attempt returns, how many binds have been tried by its end, and the port the
      loop goes on from. */
  datatype Attempt = Attempt(pair: Option<Pair>, binds: nat, port: Port)

  function Try(s: Search, t: nat, p: Port): Attempt {
    match Bind(s.machine, s.busy, t, p)
    case None => Attempt(None, t + 1, p)
    case Some(port1) =>
      var port2 := Partner(port1);
      if !InRange(port2, s.min, s.max) then Attempt(None, t + 1, port1)
      else if Bind(s.machine, s.busy + {port1}, t + 1, port2).None? then Attempt(None, t + 2, port1)
      else Attempt(Some(if port1 < port2 then Pair(port1, port2) else Pair(port2, port1)), t + 2, port1)
  }

  // ---- The loop ----

  datatype Loop = Loop(port: Port, maxReached: bool, allChecked: bool)

  /** Addition in 16 bits. */
  function Add2(p: Port): Port { if p + 2 > MAX_PORT then p + 2 - (MAX_PORT + 1) else p + 2 }

  function Increment(l: Loop, min: Port, max: Port, start: Port): Loop {
    var next := Add2(l.port);
    var maxReached := l.maxReached || next > max;
    var port := if next > max then min else next;
    Loop(port, maxReached, l.allChecked || (maxReached && port + 1 >= start))
  }

  function First(s: Search): Loop { Loop(s.start, false, false) }

  /** The loop variable after an attempt that failed. */
  function Next(s: Search, t: nat, l: Loop): Loop {
    Increment(l.(port := Try(s, t, l.port).port), s.min, s.max, s.start)
  }

  /** What the loop returns if it takes no more than n attempts. */
  function Find(s: Search, t: nat, l: Loop, n: nat): Option<Pair>
    decreases n
  {
    if l.allChecked || n == 0 then None
    else
      var a := Try(s, t, l.port);
      if a.pair.Some? then a.pair else Find(s, a.binds, Next(s, t, l), n - 1)
  }

  /** The loop stops within n attempts, with or without a pair. */
  predicate Ends(s: Search, t: nat, l: Loop, n: nat)
    decreases n
  {
    l.allChecked
    || (n > 0 && (Try(s, t, l.port).pair.Some? || Ends(s, Try(s, t, l.port).binds, Next(s, t, l), n - 1)))
  }

  ghost predicate Terminates(s: Search, t: nat) { exists n: nat :: Ends(s, t, First(s), n) }

  ghost predicate Finds(s: Search, t: nat) { exists n: nat :: Find(s, t, First(s), n).Some? }

  predicate ValidRange(min: Port, max: Port, start: Port) { 1024 < min < max && min <= start <= max }

  predicate Valid(s: Search) { ValidRange(s.min, s.max, s.start) }

  /** The wrap flag is raised before the 16-bit port runs over. */
  predicate Halts(max: Port, start: Port) {
    max <= 65533 || (max == 65534 && start % 2 == 1)
  }

  lemma {:induction false} EndsLater(s: Search, t: nat, l: Loop, n: nat, m: nat)
    requires Ends(s, t, l, n) && n <= m
    ensures Ends(s, t, l, m) && Find(s, t, l, m) == Find(s, t, l, n)
    decreases n
  {
    if !l.allChecked && Try(s, t, l.port).pair.None? {
      EndsLater(s, Try(s, t, l.port).binds, Next(s, t, l), n - 1, m - 1);
    }
  }

  // ---- Searches whose port does not run over ----

  /** p, p + 2, p + 4 and so on up to a limit. */
  function Up(p: Port, limit: int): (r: seq<Port>)
    requires limit <= MAX_PORT
    ensures forall x: Port :: x in r <==> p <= x <= limit && x % 2 == p % 2
    decreases limit - p
  {
    if p > limit then []
    else if p + 2 > MAX_PORT then [p]
    else [p] + Up(p + 2, limit)
  }

  /** The ports such a search tries, in order. */
  function Candidates(min: Port, max: Port, start: Port): seq<Port> {
    Up(start, max) + Up(min, start - 2)
  }

  /** The reference: try the candidates in order until one yields a pair. */
  function Scan(s: Search, t: nat, ports: seq<Port>): Option<Pair>
    decreases |ports|
  {
    if ports == [] then None
    else
      var a := Try(s, t, ports[0]);
      if a.pair.Some? then a.pair else Scan(s, a.binds, ports[1..])
  }

  /** The ports still to be tried from a loop state that has not finished. */
  function Remaining(l: Loop, min: Port, max: Port, start: Port): seq<Port> {
    if l.allChecked then []
    else if l.maxReached then Up(l.port, start - 2)
    else Up(l.port, max) + Up(min, start - 2)
  }

  /** Loop states such a search goes through. */
  predicate OnTrack(l: Loop, min: Port, max: Port, start: Port) {
    if l.maxReached then min <= l.port && (l.allChecked <==> l.port + 1 >= start)
    else start <= l.port <= max && l.port % 2 == start % 2 && !l.allChecked
  }

  lemma IncrementRemaining(l: Loop, min: Port, max: Port, start: Port)
    requires ValidRange(min, max, start) && OnTrack(l, min, max, start) && !l.allChecked && Halts(max, start)
    ensures var l' := Increment(l, min, max, start);
            && OnTrack(l', min, max, start) && min <= l.port <= max
            && Remaining(l, min, max, start) == [l.port] + Remaining(l', min, max, start)
  {
    if l.maxReached {
      assert Up(l.port, start - 2) == [l.port] + Up(l.port + 2, start - 2);
    } else if l.port + 2 <= max {
      assert Up(l.port, max) == [l.port] + Up(l.port + 2, max);
    } else {
      assert Up(l.port, max) == [l.port];
    }
  }

  function Left(s: Search, l: Loop): seq<Port> { Remaining(l, s.min, s.max, s.start) }

  /** A failed attempt takes the search exactly one candidate further. */
  lemma FailedAttempt(s: Search, t: nat, l: Loop)
    requires Valid(s) && OnTrack(l, s.min, s.max, s.start) && !l.allChecked && Halts(s.max, s.start)
    ensures OnTrack(Next(s, t, l), s.min, s.max, s.start)
    ensures s.min <= l.port <= s.max && Try(s, t, l.port).port == l.port
    ensures Left(s, l) == [l.port] + Left(s, Next(s, t, l))
  {
    IncrementRemaining(l, s.min, s.max, s.start);
  }

  /** The loop does what the reference does, and ends within as many attempts as there are
      candidates. */
  lemma {:induction false} LoopScans(s: Search, t: nat, l: Loop)
    requires Valid(s) && OnTrack(l, s.min, s.max, s.start) && Halts(s.max, s.start)
    ensures Ends(s, t, l, |Left(s, l)|) && Find(s, t, l, |Left(s, l)|) == Scan(s, t, Left(s, l))
    decreases |Left(s, l)|
  {
    if !l.allChecked {
      FailedAttempt(s, t, l);
      LoopScans(s, Try(s, t, l.port).binds, Next(s, t, l));
      assert Left(s, l)[1..] == Left(s, Next(s, t, l));
    }
  }

  lemma {:induction false} UpLength(p: Port, limit: int)
    requires limit <= MAX_PORT
    ensures |Up(p, limit)| == if p > limit then 0 else (limit - p) / 2 + 1
    decreases limit - p
  {
    if p + 2 <= limit {
      UpLength(p + 2, limit);
    }
  }

  /** The loop ends within (max - min) / 2 + 1 attempts, and its result is that of trying the
      candidates in order. */
  lemma AttemptBound(s: Search, t: nat)
    requires Valid(s) && Halts(s.max, s.start)
    ensures var n := (s.max - s.min) / 2 + 1;
            && |Candidates(s.min, s.max, s.start)| <= n && Ends(s, t, First(s), n)
            && Find(s, t, First(s), n) == Scan(s, t, Candidates(s.min, s.max, s.start))
  {
    UpLength(s.start, s.max);
    UpLength(s.min, s.start - 2);
    LoopScans(s, t, First(s));
    EndsLater(s, t, First(s), |Left(s, First(s))|, (s.max - s.min) / 2 + 1);
  }

  // ---- Termination ----

  /** A machine without a single free port. */
  function Full(): Machine { Machine((t, p) => false, t => None) }

  lemma {:induction false} NeverEnds(s: Search, t: nat, l: Loop, n: nat)
    requires Valid(s) && !Halts(s.max, s.start) && s.machine == Full()
    requires !l.maxReached && !l.allChecked && l.port % 2 == s.start % 2
    ensures !Ends(s, t, l, n)
    decreases n
  {
    if n > 0 {
      NeverEnds(s, t + 1, Next(s, t, l), n - 1);
    }
  }

  /** The loop ends on every machine if and only if Halts: with the default upper bound of
      65535 it does not on a machine without free ports. */
  lemma EndsExactly(min: Port, max: Port, start: Port)
    requires ValidRange(min, max, start)
    ensures (forall machine: Machine, busy: set<Port>, t: nat ::
               Terminates(Search(machine, busy, min, max, start), t)) <==> Halts(max, start)
  {
    if Halts(max, start) {
      forall machine: Machine, busy: set<Port>, t: nat
        ensures Terminates(Search(machine, busy, min, max, start), t)
      {
        AttemptBound(Search(machine, busy, min, max, start), t);
      }
    } else {
      var s := Search(Full(), {}, min, max, start);
      forall n: nat
        ensures !Ends(s, 0, First(s), n)
      {
        NeverEnds(s, 0, First(s), n);
      }
      assert !Terminates(s, 0);
    }
  }

  // ---- Completeness ----

  ghost predicate PairFree(machine: Machine, busy: set<Port>, e: Port)
    requires e < MAX_PORT
  {
    e !in busy && e + 1 !in busy && forall t: nat :: machine.free(t, e) && machine.free(t, e + 1)
  }

  predicate PairInRange(e: Port, min: Port, max: Port) { e % 2 == 0 && min <= e && e + 1 <= max }

  lemma PairIsTaken(s: Search, t: nat, p: Port, e: Port)
    requires 0 < s.min && PairInRange(e, s.min, s.max) && PairFree(s.machine, s.busy, e)
    requires p == e || p == e + 1
    ensures Try(s, t, p).pair.Some?
  {
    assert s.machine.free(t, e) && s.machine.free(t, e + 1);
    assert s.machine.free(t + 1, e) && s.machine.free(t + 1, e + 1);
  }

  lemma {:induction false} ScanFinds(s: Search, t: nat, ports: seq<Port>, e: Port)
    requires 0 < s.min && PairInRange(e, s.min, s.max) && PairFree(s.machine, s.busy, e)
    requires e in ports || e + 1 in ports
    ensures Scan(s, t, ports).Some?
    decreases |ports|
  {
    var a := Try(s, t, ports[0]);
    if ports[0] == e || ports[0] == e + 1 {
      PairIsTaken(s, t, ports[0], e);
    } else if a.pair.None? {
      assert ports == [ports[0]] + ports[1..];
      ScanFinds(s, a.binds, ports[1..], e);
    }
  }

  /** The pair a search whose port does not run over can overlook: the one just below an even
      start, when the second lap goes over the odd ports. */
  predicate Overlooked(min: Port, start: Port, e: Port) {
    min % 2 == 1 && start % 2 == 0 && e == start - 2
  }

  /** The pairs a search can miss: where the port runs over from an even start, a bind of
      port 0 may take it back to where it was, past every pair below the start. */
  predicate Missable(min: Port, max: Port, start: Port, e: Port) {
    if Halts(max, start) then Overlooked(min, start, e) else start % 2 == 0 && e < start
  }

  lemma VisitedPairs(min: Port, max: Port, start: Port, e: Port)
    requires ValidRange(min, max, start) && PairInRange(e, min, max)
    ensures (e in Candidates(min, max, start) || e + 1 in Candidates(min, max, start)) <==> !Overlooked(min, start, e)
  {
    assert e in Candidates(min, max, start) <==> e in Up(start, max) || e in Up(min, start - 2);
    assert e + 1 in Candidates(min, max, start) <==> e + 1 in Up(start, max) || e + 1 in Up(min, start - 2);
  }

  /** How many steps of two lead from p to q, around 65536 if need be. */
  function Ahead(p: Port, q: Port): nat { if p <= q then (q - p) / 2 else (q + (MAX_PORT + 1) - p) / 2 }

  ghost predicate NoEphemeral(machine: Machine) { forall t: nat :: machine.ephemeral(t).None? }

  /** The loop goes from p up to target without raising its flag and without a port given by
      a bind of port 0. */
  ghost predicate Leads(s: Search, p: Port, target: Port) {
    && p % 2 == target % 2
    && (|| 0 < p <= target <= s.max
        || (s.max == MAX_PORT && (p % 2 == 1 || NoEphemeral(s.machine)))
        || (target == 0 && p % 2 == 0 && s.max >= 65534))
  }

  lemma LeadsOn(s: Search, t: nat, p: Port, target: Port)
    requires Leads(s, p, target) && p != target && Try(s, t, p).pair.None?
    ensures var l := Next(s, t, Loop(p, false, false));
            && l == Loop(Add2(p), false, false)
            && Leads(s, l.port, target) && Ahead(p, target) == Ahead(l.port, target) + 1
  {
    assert Try(s, t, p).port == p;
  }

  lemma {:induction false} Reaches(s: Search, t: nat, p: Port, target: Port)
    requires Leads(s, p, target) && forall u: nat :: Try(s, u, target).pair.Some?
    ensures Find(s, t, Loop(p, false, false), Ahead(p, target) + 1).Some?
    decreases Ahead(p, target)
  {
    var a := Try(s, t, p);
    if p == target {
      assert Try(s, t, target).pair.Some?;
    } else if a.pair.None? {
      LeadsOn(s, t, p, target);
      Reaches(s, a.binds, Add2(p), target);
    }
  }

  lemma FoundRunningOver(s: Search, t: nat, e: Port)
    requires Valid(s) && !Halts(s.max, s.start) && PairInRange(e, s.min, s.max)
    requires PairFree(s.machine, s.busy, e) && (s.start % 2 == 1 || e >= s.start)
    ensures Finds(s, t)
  {
    var target := if s.start % 2 == 1 then e + 1 else e;
    forall u: nat
      ensures Try(s, u, target).pair.Some?
    {
      PairIsTaken(s, u, target, e);
    }
    Reaches(s, t, s.start, target);
    assert Find(s, t, First(s), Ahead(s.start, target) + 1).Some?;
  }

  /** Only these ports are free, and these are given by binds of port 0. */
  function Only(free: set<Port>, ephemeral: Option<Port>): Machine {
    Machine((t, p) => p in free, t => ephemeral)
  }

  lemma {:induction false} OverlookedForGood(s: Search, t: nat, l: Loop, e: Port, n: nat)
    requires Valid(s) && OnTrack(l, s.min, s.max, s.start) && Halts(s.max, s.start) && PairInRange(e, s.min, s.max)
    requires s.machine == Only({e, e + 1}, None) && e !in Left(s, l) && e + 1 !in Left(s, l)
    ensures Find(s, t, l, n).None?
    decreases n
  {
    if !l.allChecked && n > 0 {
      FailedAttempt(s, t, l);
      assert l.port in Left(s, l);
      OverlookedForGood(s, t + 1, Next(s, t, l), e, n - 1);
    }
  }

  /** With a bind of port 0 that always gives the start, whose partner is taken, the search
      goes round for ever above the pair. */
  lemma {:induction false} PassedForGood(s: Search, t: nat, p: Port, e: Port, n: nat)
    requires Valid(s) && !Halts(s.max, s.start) && s.start % 2 == 0 && e < s.start && PairInRange(e, s.min, s.max)
    requires s.machine == Only({e, e + 1, s.start}, Some(s.start)) && s.busy == {}
    requires p % 2 == 0 && (p == 0 || s.start <= p)
    ensures Find(s, t, Loop(p, false, false), n).None?
    decreases n
  {
    if n > 0 {
      var a := Try(s, t, p);
      var bound := if p == 0 then s.start else p;
      assert a.pair.None? && a.port == bound;
      assert Next(s, t, Loop(p, false, false)) == Loop(Add2(bound), false, false);
      PassedForGood(s, a.binds, Add2(bound), e, n - 1);
    }
  }

  lemma MissedOnSome(min: Port, max: Port, start: Port, e: Port) returns (machine: Machine)
    requires ValidRange(min, max, start) && PairInRange(e, min, max) && Missable(min, max, start, e)
    ensures PairFree(machine, {}, e) && !Finds(Search(machine, {}, min, max, start), 0)
  {
    if Halts(max, start) {
      machine := Only({e, e + 1}, None);
      VisitedPairs(min, max, start, e);
      var s := Search(machine, {}, min, max, start);
      forall n: nat
        ensures Find(s, 0, First(s), n).None?
      {
        OverlookedForGood(s, 0, First(s), e, n);
      }
    } else {
      machine := Only({e, e + 1, start}, Some(start));
      var s := Search(machine, {}, min, max, start);
      forall n: nat
        ensures Find(s, 0, First(s), n).None?
      {
        PassedForGood(s, 0, start, e, n);
      }
    }
  }

  lemma FoundOnAll(s: Search, t: nat, e: Port)
    requires Valid(s) && PairInRange(e, s.min, s.max) && !Missable(s.min, s.max, s.start, e)
    requires PairFree(s.machine, s.busy, e)
    ensures Finds(s, t)
  {
    if Halts(s.max, s.start) {
      VisitedPairs(s.min, s.max, s.start, e);
      ScanFinds(s, t, Candidates(s.min, s.max, s.start), e);
      AttemptBound(s, t);
    } else {
      FoundRunningOver(s, t, e);
    }
  }

  /** A pair that stays free for the whole search guarantees success, whatever the other
      ports do, if and only if it is not one the search can miss. */
  lemma CompleteExactly(min: Port, max: Port, start: Port, e: Port)
    requires ValidRange(min, max, start) && PairInRange(e, min, max)
    ensures (forall machine: Machine, busy: set<Port>, t: nat | PairFree(machine, busy, e) ::
               Finds(Search(machine, busy, min, max, start), t))
       <==> !Missable(min, max, start, e)
  {
    if Missable(min, max, start, e) {
      var machine := MissedOnSome(min, max, start, e);
      assert !Finds(Search(machine, {}, min, max, start), 0);
    } else {
      forall machine: Machine, busy: set<Port>, t: nat | PairFree(machine, busy, e)
        ensures Finds(Search(machine, busy, min, max, start), t)
      {
        FoundOnAll(Search(machine, busy, min, max, start), t, e);
      }
    }
  }

  /** The same in the arguments of a call: the guarantee fails for an even start alone, and then
      for the pair just below it if the range starts at an odd port, or for every pair below
      it if the port can run over. */
  lemma CallCompleteExactly(minPort: Port, maxPort: Port, start: Port, e: Port)
    requires Given(start, minPort, maxPort)
    requires e % 2 == 0 && Given(e, minPort, maxPort) && Given(e + 1, minPort, maxPort)
    ensures (forall machine: Machine, busy: set<Port>, t: nat | PairFree(machine, busy, e) ::
               Finds(Search(machine, busy, EffectiveMin(minPort), EffectiveMax(maxPort), start), t))
       <==> !(&& start % 2 == 0
              && if 0 < maxPort <= 65533 then e == start - 2 && (minPort <= 1024 || minPort % 2 == 1) else e < start)
  {
    var min, max := EffectiveMin(minPort), EffectiveMax(maxPort);
    SearchesGivenRange(minPort, maxPort);
    assert min <= start <= max && min <= e && e + 1 <= max;
    CompleteExactly(min, max, start, e);
  }

  // ---- Results ----

  predicate Within(pair: Pair, min: Port, max: Port) { min <= pair.rtp && pair.rtcp <= max }

  /** An even port and the next, neither held before, at most one of them out of range. */
  predicate WellFormed(pair: Pair, busy: set<Port>, min: Port, max: Port) {
    && pair.rtp % 2 == 0 && pair.rtcp == pair.rtp + 1
    && pair.rtp !in busy && pair.rtcp !in busy
    && (Within(pair, min, max) || pair.rtcp == min || pair.rtp == max)
  }

  lemma {:induction false} FindResult(s: Search, t: nat, l: Loop, n: nat)
    requires Valid(s)
    ensures Find(s, t, l, n).Some? ==> WellFormed(Find(s, t, l, n).value, s.busy, s.min, s.max)
    decreases n
  {
    if !l.allChecked && n > 0 {
      FindResult(s, Try(s, t, l.port).binds, Next(s, t, l), n - 1);
    }
  }

  lemma {:induction false} FindWithin(s: Search, t: nat, l: Loop, n: nat)
    requires Valid(s) && OnTrack(l, s.min, s.max, s.start) && Halts(s.max, s.start)
    ensures Find(s, t, l, n).Some? ==> Within(Find(s, t, l, n).value, s.min, s.max)
    decreases n
  {
    if !l.allChecked && n > 0 {
      FailedAttempt(s, t, l);
      FindWithin(s, Try(s, t, l.port).binds, Next(s, t, l), n - 1);
    }
  }

  lemma {:induction false} OddWithin(s: Search, t: nat, l: Loop, n: nat)
    requires Valid(s) && s.max == MAX_PORT && l.port % 2 == 1 && !l.maxReached && !l.allChecked
    ensures Find(s, t, l, n).Some? ==> Within(Find(s, t, l, n).value, s.min, s.max)
    decreases n
  {
    if n > 0 {
      OddWithin(s, Try(s, t, l.port).binds, Next(s, t, l), n - 1);
    }
  }

  /** Searches that return only pairs of the range. */
  predicate Safe(min: Port, max: Port, start: Port) {
    Halts(max, start) || (max == MAX_PORT && (start % 2 == 1 || min % 2 == 0))
  }

  lemma SafeIsWithin(s: Search, t: nat, n: nat)
    requires Valid(s) && Safe(s.min, s.max, s.start) && Find(s, t, First(s), n).Some?
    ensures Within(Find(s, t, First(s), n).value, s.min, s.max)
  {
    FindResult(s, t, First(s), n);
    if Halts(s.max, s.start) {
      FindWithin(s, t, First(s), n);
    } else if s.start % 2 == 1 {
      OddWithin(s, t, First(s), n);
    }
  }

  lemma {:induction false} FindUses(s: Search, t: nat, l: Loop, n: nat, free: set<Port>, ephemeral: Option<Port>)
    requires s.machine == Only(free, ephemeral) && (ephemeral.Some? ==> ephemeral.value in free) && Valid(s)
    ensures Find(s, t, l, n).Some? ==> Find(s, t, l, n).value.rtp in free && Find(s, t, l, n).value.rtcp in free
    decreases n
  {
    if !l.allChecked && n > 0 {
      FindUses(s, Try(s, t, l.port).binds, Next(s, t, l), n - 1, free, ephemeral);
    }
  }

  /** A machine on which an unsafe search returns a pair that leaves the range: the pair below
      an odd lower bound, reached by running over, or the pair above 65534, given by a bind of
      port 0. */
  lemma LeavesRange(min: Port, max: Port, start: Port) returns (s: Search, n: nat)
    requires ValidRange(min, max, start) && !Safe(min, max, start)
    ensures s.min == min && s.max == max && s.start == start
    ensures Find(s, 0, First(s), n).Some? && !Within(Find(s, 0, First(s), n).value, min, max)
  {
    if max == MAX_PORT {
      s := Search(Only({min - 1, min}, None), {}, min, max, start);
      n := Ahead(start, min - 1) + 1;
      Reaches(s, 0, start, min - 1);
      FindUses(s, 0, First(s), n, {min - 1, min}, None);
    } else {
      s := Search(Only({65534, 65535}, Some(65535)), {}, min, max, start);
      n := Ahead(start, 0) + 1;
      Reaches(s, 0, start, 0);
      FindUses(s, 0, First(s), n, {65534, 65535}, Some(65535));
    }
    FindResult(s, 0, First(s), n);
  }

  /** Every pair a search can return lies in the range, if and only if the search is safe. */
  lemma WithinExactly(min: Port, max: Port, start: Port)
    requires ValidRange(min, max, start)
    ensures (forall machine: Machine, busy: set<Port>, t: nat, n: nat ::
               var r := Find(Search(machine, busy, min, max, start), t, Loop(start, false, false), n);
               r.Some? ==> Within(r.value, min, max))
       <==> Safe(min, max, start)
  {
    if Safe(min, max, start) {
      forall machine: Machine, busy: set<Port>, t: nat, n: nat
        ensures var r := Find(Search(machine, busy, min, max, start), t, Loop(start, false, false), n);
                r.Some? ==> Within(r.value, min, max)
      {
        var s := Search(machine, busy, min, max, start);
        if Find(s, t, First(s), n).Some? {
          SafeIsWithin(s, t, n);
        }
      }
    } else {
      var s, n := LeavesRange(min, max, start);
      assert s == Search(s.machine, s.busy, min, max, start);
    }
  }

  /** In the arguments of a call: both ports are always of the caller's range if and only if the
      port cannot run over, or the start is odd, or the range has no upper bound and begins at
      an even port. */
  lemma CallWithinExactly(minPort: Port, maxPort: Port, start: Port)
    requires Given(start, minPort, maxPort) && TwoGiven(minPort, maxPort)
    ensures (forall machine: Machine, busy: set<Port>, t: nat, n: nat ::
               var r := Find(Search(machine, busy, EffectiveMin(minPort), EffectiveMax(maxPort), start), t,
                             Loop(start, false, false), n);
               r.Some? ==> Given(r.value.rtp, minPort, maxPort) && Given(r.value.rtcp, minPort, maxPort))
       <==> (0 < maxPort <= 65533 || start % 2 == 1 || (maxPort != 65534 && minPort > 1024 && minPort % 2 == 0))
  {
    var min, max := EffectiveMin(minPort), EffectiveMax(maxPort);
    SearchesGivenRange(minPort, maxPort);
    WithinExactly(min, max, start);
    if Safe(min, max, start) {
      forall machine: Machine, busy: set<Port>, t: nat, n: nat
        ensures var r := Find(Search(machine, busy, min, max, start), t, Loop(start, false, false), n);
                r.Some? ==> Given(r.value.rtp, minPort, maxPort) && Given(r.value.rtcp, minPort, maxPort)
      {
        var s := Search(machine, busy, min, max, start);
        FindResult(s, t, First(s), n);
      }
    }
  }

  // ---- The search itself, with its sockets ----

  /** The sockets this process holds, and how many binds it has tried. */
  class SocketTable {
    var open: set<Port>
    var binds: nat

    constructor ()
      ensures open == {} && binds == 0
    {
      open, binds := {}, 0;
    }

    /** The port the new socket is bound to, or None. */
    method Open(machine: Machine, port: Port) returns (bound: Option<Port>)
      modifies this
      ensures bound == Bind(machine, old(open), old(binds), port)
      ensures open == if bound.Some? then old(open) + {bound.value} else old(open)
      ensures binds == old(binds) + 1
    {
      if port != 0 {
        bound := if machine.free(binds, port) && port !in open then Some(port) else None;
      } else {
        bound := machine.ephemeral(binds);
        if bound.Some? && (bound.value == 0 || bound.value in open) {
          bound := None;
        }
      }
      if bound.Some? {
        open := open + {bound.value};
      }
      binds := binds + 1;
    }

    method Finalize(port: Port)
      modifies this`open
      ensures open == old(open) - {port}
    {
      open := open - {port};
    }
  }

  /** One pass of the loop body: on success both sockets stay open, else neither does. The
      loop goes on from the port the first socket was bound to. */
  method TryPort(machine: Machine, sockets: SocketTable, port: Port, min: Port, max: Port)
    returns (pair: Option<Pair>, port1: Port)
    requires 0 < min
    modifies sockets
    ensures Attempt(pair, sockets.binds, port1)
         == Try(Search(machine, old(sockets.open), min, max, min), old(sockets.binds), port)
    ensures sockets.open == old(sockets.open)
                            + if pair.Some? then {pair.value.rtp, pair.value.rtcp} else {}
  {
    var s1 := sockets.Open(machine, port);
    if s1.None? {
      return None, port;
    }
    port1 := s1.value;
    var port2 := if port1 % 2 == 1 then port1 - 1 else port1 + 1;
    if !InRange(port2, min, max) {
      sockets.Finalize(port1);
      return None, port1;
    }
    var s2 := sockets.Open(machine, port2);
    if s2.None? {
      sockets.Finalize(port1);
      return None, port1;
    }
    pair := Some(if port1 < port2 then Pair(port1, port2) else Pair(port2, port1));
  }

  /** The loop over the ports of a valid range, of which n attempts are enough. */
  method SearchFrom(machine: Machine, sockets: SocketTable, min: Port, max: Port, start: Port, ghost n: nat)
    returns (pair: Option<Pair>)
    requires ValidRange(min, max, start)
    requires var s := Search(machine, sockets.open, min, max, start); Ends(s, sockets.binds, First(s), n)
    modifies sockets
    ensures var s := Search(machine, old(sockets.open), min, max, start);
            pair == Find(s, old(sockets.binds), First(s), n)
    ensures sockets.open == old(sockets.open)
                            + if pair.Some? then {pair.value.rtp, pair.value.rtcp} else {}
    ensures sockets.binds <= old(sockets.binds) + 2 * n
  {
    ghost var s := Search(machine, sockets.open, min, max, start);
    ghost var left := n;
    var l := Loop(start, false, false);
    pair := None;
    while !l.allChecked
      invariant pair.None? && sockets.open == s.busy && 0 <= left <= n
      invariant Ends(s, sockets.binds, l, left)
      invariant Find(s, sockets.binds, l, left) == Find(s, old(sockets.binds), First(s), n)
      invariant sockets.binds + 2 * left <= old(sockets.binds) + 2 * n
      decreases left
    {
      var port1;
      pair, port1 := TryPort(machine, sockets, l.port, min, max);
      if pair.Some? {
        return;
      }
      l := Increment(l.(port := port1), min, max, start);
      left := left - 1;
    }
  }

  /** Gets an RTP and RTCP socket pair; start is the random first port. The call returns
      when n attempts are enough for the loop to end. */
  method GetSockets(machine: Machine, sockets: SocketTable, minPort: Port, maxPort: Port, start: Port, ghost n: nat)
    returns (pair: Option<Pair>)
    requires TwoGiven(minPort, maxPort) ==>
               && Given(start, minPort, maxPort)
               && var s := Search(machine, sockets.open, EffectiveMin(minPort), EffectiveMax(maxPort), start);
                  Ends(s, sockets.binds, First(s), n)
    modifies sockets
    ensures !TwoGiven(minPort, maxPort) ==> pair == None && sockets.binds == old(sockets.binds)
    ensures TwoGiven(minPort, maxPort) ==>
              var s := Search(machine, old(sockets.open), EffectiveMin(minPort), EffectiveMax(maxPort), start);
              pair == Find(s, old(sockets.binds), First(s), n) && sockets.binds <= old(sockets.binds) + 2 * n
    ensures pair.Some? ==>
              && pair.value.rtp % 2 == 0 && pair.value.rtcp == pair.value.rtp + 1
              && pair.value.rtp !in old(sockets.open) && pair.value.rtcp !in old(sockets.open)
              && (Given(pair.value.rtp, minPort, maxPort) || Given(pair.value.rtcp, minPort, maxPort))
              && (Safe(EffectiveMin(minPort), EffectiveMax(maxPort), start) ==>
                    Given(pair.value.rtp, minPort, maxPort) && Given(pair.value.rtcp, minPort, maxPort))
    ensures sockets.open == old(sockets.open)
                            + if pair.Some? then {pair.value.rtp, pair.value.rtcp} else {}
  {
    var min, max := EffectiveMin(minPort), EffectiveMax(maxPort);
    SearchesGivenRange(minPort, maxPort);
    if min >= max {
      return None;
    }
    ghost var s := Search(machine, sockets.open, min, max, start);
    FindResult(s, sockets.binds, First(s), n);
    if Find(s, sockets.binds, First(s), n).Some? && Safe(min, max, start) {
      SafeIsWithin(s, sockets.binds, n);
    }
    pair := SearchFrom(machine, sockets, min, max, start, n);
  }
}
