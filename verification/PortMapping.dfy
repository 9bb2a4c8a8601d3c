/** The life cycle of a port mapping: probe, map, renew, notice a loss, retry, and remove. */
module PortMapping {
  import opened Option

  const LEASE_SECONDS: nat := 3600
  const RETRY_SECONDS: nat := 60
  const SECOND: nat := 1_000_000   // microseconds

  datatype Report = Trying | Failed | Mapped(port: nat) | Lost | Removed

  datatype Method = NoMethod | Pcp | NatPmp | Upnp

  datatype Grant = Grant(port: nat, lease: nat)

  /** One turn of the loop: the clock, and what each attempt would yield at that time. */
  datatype Turn = Turn(now: nat, pcp: Option<Grant>, natPmp: Option<Grant>, upnp: Option<nat>)

  datatype Mapper = Mapper(
    reports: seq<Report>, isMapped: bool, externalPort: nat,
    activeMethod: Method, mappedExternalPort: nat,
    nextAttempt: nat, everMapped: bool, currentlyMapped: bool,
    attempts: seq<nat>, grants: seq<(nat, nat)>)   // times of attempts; time and lease of each grant

  const FRESH := Mapper([], false, 0, NoMethod, 0, 0, false, false, [], [])

  function Reported(m: Mapper, r: Report): Mapper {
    m.(reports := m.reports + [r], isMapped := r.Mapped?,
       externalPort := if r.Mapped? then r.port else if r.Trying? then m.externalPort else 0)
  }

  /** The first attempt that succeeds: PCP, NAT-PMP, then UPnP. */
  function Outcome(t: Turn, gatewayKnown: bool): (r: (Method, Grant))
  {
    if gatewayKnown && t.pcp.Some? then (Pcp, t.pcp.value)
    else if gatewayKnown && t.natPmp.Some? then (NatPmp, t.natPmp.value)
    else if t.upnp.Some? then (Upnp, Grant(t.upnp.value, LEASE_SECONDS))
    else (NoMethod, Grant(0, LEASE_SECONDS))
  }

  function RenewIn(lease: nat): nat { if lease > 60 then lease / 2 else 30 }

  function Renewed(m: Mapper, now: nat, how: Method, grant: Grant): Mapper {
    Reported(m.(activeMethod := how, mappedExternalPort := grant.port), Mapped(grant.port))
    .(everMapped := true, currentlyMapped := true,
      nextAttempt := now + RenewIn(grant.lease) * SECOND,
      grants := m.grants + [(now, grant.lease)])
  }

  function GivenUp(m: Mapper, now: nat): Mapper {
    if m.currentlyMapped then
      Reported(m.(currentlyMapped := false, activeMethod := NoMethod, mappedExternalPort := 0), Lost)
      .(nextAttempt := now + RETRY_SECONDS * SECOND)
    else
      (if m.everMapped then m else Reported(m, Failed)).(nextAttempt := now + RETRY_SECONDS * SECOND)
  }

  function OneTurn(m: Mapper, t: Turn, gatewayKnown: bool): Mapper {
    if t.now < m.nextAttempt then m
    else
      var (how, grant) := Outcome(t, gatewayKnown);
      var n := m.(attempts := m.attempts + [t.now]);
      if how != NoMethod then Renewed(n, t.now, how, grant) else GivenUp(n, t.now)
  }

  /** Every turn so far, from a fresh mapper. */
  function Looped(turns: seq<Turn>, gatewayKnown: bool): Mapper {
    if turns == [] then Reported(FRESH, Trying)
    else OneTurn(Looped(turns[..|turns| - 1], gatewayKnown), turns[|turns| - 1], gatewayKnown)
  }

  function Stopped(m: Mapper): Mapper {
    if m.everMapped then Reported(m, Removed) else m
  }

  // ----- the object

  class PortMapper {
    var reports: seq<Report>
    var isMapped: bool
    var externalPort: nat
    var activeMethod: Method
    var mappedExternalPort: nat
    var nextAttempt: nat
    var everMapped: bool
    var currentlyMapped: bool
    var unmapped: Method
    ghost var attempts: seq<nat>
    ghost var grants: seq<(nat, nat)>

    ghost function View(): Mapper
      reads this
    {
      Mapper(reports, isMapped, externalPort, activeMethod, mappedExternalPort, nextAttempt, everMapped,
             currentlyMapped, attempts, grants)
    }

    constructor ()
      ensures View() == FRESH
    {
      reports, isMapped, externalPort, activeMethod, mappedExternalPort := [], false, 0, NoMethod, 0;
      nextAttempt, everMapped, currentlyMapped, unmapped := 0, false, false, NoMethod;
      attempts, grants := [], [];
    }

    method Report(r: Report)
      modifies this`reports, this`isMapped, this`externalPort
      ensures View() == Reported(old(View()), r)
    {
      isMapped := r.Mapped?;
      if isMapped {
        externalPort := r.port;
      } else if r.Removed? || r.Failed? || r.Lost? {
        externalPort := 0;
      }
      reports := reports + [r];
    }

    method Renew(now: nat, how: Method, grant: Grant)
      modifies this
      ensures View() == Renewed(old(View()), now, how, grant) && unmapped == old(unmapped)
    {
      hide RenewIn;
      activeMethod := how;
      mappedExternalPort := grant.port;
      Report(Mapped(grant.port));
      everMapped, currentlyMapped := true, true;
      nextAttempt := now + RenewIn(grant.lease) * SECOND;
      grants := grants + [(now, grant.lease)];
    }

    method GiveUp(now: nat)
      modifies this
      ensures View() == GivenUp(old(View()), now) && unmapped == old(unmapped)
    {
      if currentlyMapped {
        currentlyMapped := false;
        activeMethod := NoMethod;
        mappedExternalPort := 0;
        Report(Lost);
      } else if !everMapped {
        Report(Failed);
      }
      nextAttempt := now + RETRY_SECONDS * SECOND;
    }

    method Attempt(t: Turn, gatewayKnown: bool)
      requires t.now >= nextAttempt
      modifies this
      ensures View() == OneTurn(old(View()), t, gatewayKnown) && unmapped == old(unmapped)
    {
      hide Renewed, GivenUp;
      attempts := attempts + [t.now];
      if gatewayKnown && t.pcp.Some? {
        Renew(t.now, Pcp, t.pcp.value);
      } else if gatewayKnown && t.natPmp.Some? {
        Renew(t.now, NatPmp, t.natPmp.value);
      } else if t.upnp.Some? {
        Renew(t.now, Upnp, Grant(t.upnp.value, LEASE_SECONDS));
      } else {
        GiveUp(t.now);
      }
    }

    /** The loop runs for as many turns as it is let to. */
    method ThreadLoop(turns: seq<Turn>, gatewayKnown: bool)
      requires View() == FRESH
      modifies this
      ensures View() == Stopped(Looped(turns, gatewayKnown))
      ensures unmapped == Looped(turns, gatewayKnown).activeMethod
    {
      hide OneTurn;
      Report(Trying);
      for i := 0 to |turns|
        invariant View() == Looped(turns[..i], gatewayKnown)
      {
        assert turns[..i + 1][..i] == turns[..i];
        if turns[i].now >= nextAttempt {
          Attempt(turns[i], gatewayKnown);
        } else {
          NotYet(View(), turns[i], gatewayKnown);
        }
      }
      assert turns[..|turns|] == turns;
      unmapped := activeMethod;
      if everMapped {
        Report(Removed);
      }
    }
  }

  lemma NotYet(m: Mapper, t: Turn, gatewayKnown: bool)
    requires t.now < m.nextAttempt
    ensures OneTurn(m, t, gatewayKnown) == m
  {
  }

  // ----- the sequence of reports

  /** What may come after a report: the automaton of TRYING FAILED* (MAPPED+ LOST)* MAPPED* with a
      REMOVED allowed at the end once something was mapped. */
  predicate Follows(r: Report, next: Report) {
    match r
    case Trying => next.Failed? || next.Mapped?
    case Failed => next.Failed? || next.Mapped?
    case Mapped(_) => next.Mapped? || next.Lost? || next.Removed?
    case Lost => next.Mapped? || next.Removed?
    case Removed => false
  }

  ghost predicate Regular(r: seq<Report>) {
    r != [] && r[0] == Trying && forall i :: 0 < i < |r| ==> Follows(r[i - 1], r[i])
  }

  ghost predicate ReportsMapping(r: seq<Report>) {
    exists i :: 0 <= i < |r| && r[i].Mapped?
  }

  function Last(r: seq<Report>): Report
    requires r != []
  {
    r[|r| - 1]
  }

  lemma {:induction false} OneMore(r: seq<Report>, next: Report)
    requires Regular(r) && Follows(Last(r), next)
    ensures Regular(r + [next])
    ensures ReportsMapping(r + [next]) <==> ReportsMapping(r) || next.Mapped?
  {
    var s := r + [next];
    if ReportsMapping(r) {
      var i :| 0 <= i < |r| && r[i].Mapped?;
      assert s[i].Mapped?;
    }
    if next.Mapped? {
      assert s[|r|].Mapped?;
    }
  }

  ghost predicate Inv(m: Mapper) {
    && Regular(m.reports) && !Last(m.reports).Removed?
    && (m.everMapped <==> ReportsMapping(m.reports))
    && (m.everMapped <==> Last(m.reports).Mapped? || Last(m.reports).Lost?)
    && (m.currentlyMapped <==> m.isMapped) && (m.currentlyMapped <==> m.activeMethod != NoMethod)
    && (m.currentlyMapped <==> Last(m.reports).Mapped?)
    && (m.currentlyMapped ==> m.mappedExternalPort == m.externalPort == Last(m.reports).port)
    && (!m.currentlyMapped ==> m.externalPort == 0 && m.mappedExternalPort == 0)
  }

  lemma OneTurnKeeps(m: Mapper, t: Turn, gatewayKnown: bool)
    requires Inv(m)
    ensures Inv(OneTurn(m, t, gatewayKnown))
  {
    hide Regular, ReportsMapping, Outcome, RenewIn;
    var n := OneTurn(m, t, gatewayKnown);
    if n.reports != m.reports {
      var last := Last(n.reports);
      OneMore(m.reports, last);
    }
  }

  lemma {:induction false} LoopKeeps(turns: seq<Turn>, gatewayKnown: bool)
    ensures Inv(Looped(turns, gatewayKnown))
    decreases |turns|
  {
    hide Inv, OneTurn;
    if turns == [] {
      StartInv();
    } else {
      LoopKeeps(turns[..|turns| - 1], gatewayKnown);
      OneTurnKeeps(Looped(turns[..|turns| - 1], gatewayKnown), turns[|turns| - 1], gatewayKnown);
    }
  }

  lemma StartInv()
    ensures Inv(Reported(FRESH, Trying))
  {
  }

  /** From a fresh mapper to its end the reports are TRYING FAILED* (MAPPED+ LOST)* MAPPED* and then
      REMOVED, exactly when MAPPED was ever reported. */
  lemma ReportsAreRegular(turns: seq<Turn>, gatewayKnown: bool)
    ensures var whole := Stopped(Looped(turns, gatewayKnown)).reports;
            && Regular(whole) && (Last(whole).Removed? <==> ReportsMapping(whole))
  {
    hide OneTurn, Regular, ReportsMapping;
    LoopKeeps(turns, gatewayKnown);
    var m := Looped(turns, gatewayKnown);
    if m.everMapped {
      OneMore(m.reports, Removed);
    }
  }

  /** At every loop head the three records of being mapped agree, and so do the ports. */
  lemma RecordsAgree(turns: seq<Turn>, gatewayKnown: bool)
    ensures var m := Looped(turns, gatewayKnown);
            && m.currentlyMapped == m.isMapped == (m.activeMethod != NoMethod)
            && m.externalPort == m.mappedExternalPort
            && m.reports != [] && (m.isMapped <==> Last(m.reports).Mapped?)
            && (m.isMapped ==> m.externalPort == Last(m.reports).port)
  {
    hide OneTurn;
    LoopKeeps(turns, gatewayKnown);
  }

  // ----- what one turn of the loop answers, from what the attempts yield

  lemma LastTurn(turns: seq<Turn>, t: Turn, gatewayKnown: bool)
    ensures Looped(turns + [t], gatewayKnown) == OneTurn(Looped(turns, gatewayKnown), t, gatewayKnown)
  {
    assert (turns + [t])[..|turns|] == turns;
  }

  /** PCP comes first and NAT-PMP second, both only with a known gateway; UPnP is asked when neither
      is to be had, and then for an hour. Whichever answers, its port is reported and its lease
      halved for the renewal, or renewed after 30 s when it is at most a minute. */
  lemma FirstAnswerIsReported(turns: seq<Turn>, t: Turn, gatewayKnown: bool)
    requires t.now >= Looped(turns, gatewayKnown).nextAttempt
    ensures var m := Looped(turns + [t], gatewayKnown);
            && (gatewayKnown && t.pcp.Some? ==> Renews(m, t.now, Pcp, t.pcp.value.port, t.pcp.value.lease))
            && (gatewayKnown && t.pcp.None? && t.natPmp.Some? ==>
                  Renews(m, t.now, NatPmp, t.natPmp.value.port, t.natPmp.value.lease))
            && ((!gatewayKnown || (t.pcp.None? && t.natPmp.None?)) && t.upnp.Some? ==>
                  Renews(m, t.now, Upnp, t.upnp.value, 3600))
  {
    LastTurn(turns, t, gatewayKnown);
  }

  ghost predicate Renews(m: Mapper, now: nat, how: Method, port: nat, lease: nat) {
    && m.reports != [] && Last(m.reports) == Mapped(port)
    && m.activeMethod == how && m.isMapped && m.externalPort == port && m.mappedExternalPort == port
    && m.nextAttempt == now + (if lease > 60 then lease / 2 else 30) * 1_000_000
    && m.grants != [] && m.grants[|m.grants| - 1] == (now, lease)
  }

  /** When none answers, a mapping that was held is reported lost, a first one as failed, and nothing
      is reported between; the next attempt comes a minute later. */
  lemma NoAnswerIsReported(turns: seq<Turn>, t: Turn, gatewayKnown: bool)
    requires t.now >= Looped(turns, gatewayKnown).nextAttempt
    requires t.upnp.None? && (gatewayKnown ==> t.pcp.None? && t.natPmp.None?)
    ensures var m, n := Looped(turns, gatewayKnown), Looped(turns + [t], gatewayKnown);
            && n.reports == m.reports + (if m.isMapped then [Lost] else if ReportsMapping(m.reports) then [] else [Failed])
            && !n.isMapped && n.activeMethod == NoMethod && n.externalPort == 0
            && n.nextAttempt == t.now + 60_000_000
  {
    LastTurn(turns, t, gatewayKnown);
    LoopKeeps(turns, gatewayKnown);
    LoopKeeps(turns + [t], gatewayKnown);
    var m := Looped(turns, gatewayKnown);
    assert m.reports + [] == m.reports;
    hide Looped, Regular, ReportsMapping;
  }

  /** The loop begins unmapped, having reported that it tries, and with an attempt due at once. */
  lemma FirstTurnIsDue(gatewayKnown: bool)
    ensures var m := Looped([], gatewayKnown);
            m.reports == [Trying] && !m.isMapped && m.activeMethod == NoMethod && m.nextAttempt == 0 && m.attempts == []
  {
  }

  /** A turn before the scheduled time does nothing. */
  lemma EarlyTurnDoesNothing(turns: seq<Turn>, t: Turn, gatewayKnown: bool)
    requires t.now < Looped(turns, gatewayKnown).nextAttempt
    ensures Looped(turns + [t], gatewayKnown) == Looped(turns, gatewayKnown)
  {
    LastTurn(turns, t, gatewayKnown);
  }

  // ----- leases

  /** The renewal of a grant is due before it expires exactly when the lease is over 30 s. */
  lemma RenewalBeforeExpiryIff(lease: nat)
    ensures RenewIn(lease) * SECOND < lease * SECOND <==> lease > 30
  {
  }

  ghost predicate Scheduled(m: Mapper) {
    && (m.currentlyMapped ==>
          m.grants != [] && var (at, lease) := m.grants[|m.grants| - 1]; m.nextAttempt == at + RenewIn(lease) * SECOND)
    && (m.attempts != [] ==> m.nextAttempt >= m.attempts[|m.attempts| - 1] + 30 * SECOND)
    && (forall i :: 0 < i < |m.attempts| ==> m.attempts[i] >= m.attempts[i - 1] + 30 * SECOND)
  }

  /** While a lease over 30 s is held, the next attempt is scheduled before it expires; and no
      two attempts are ever closer than 30 s. */
  lemma {:induction false} LeasesAreRenewedInTime(turns: seq<Turn>, gatewayKnown: bool)
    ensures var m := Looped(turns, gatewayKnown);
            && (m.currentlyMapped ==> m.grants != [])
            && (m.currentlyMapped && m.grants[|m.grants| - 1].1 > 30 ==>
                  m.nextAttempt < m.grants[|m.grants| - 1].0 + m.grants[|m.grants| - 1].1 * SECOND)
            && (forall i :: 0 < i < |m.attempts| ==> m.attempts[i] >= m.attempts[i - 1] + 30 * SECOND)
  {
    LoopSchedules(turns, gatewayKnown);
    var m := Looped(turns, gatewayKnown);
    if m.currentlyMapped {
      RenewalBeforeExpiryIff(m.grants[|m.grants| - 1].1);
    }
  }

  lemma {:induction false} LoopSchedules(turns: seq<Turn>, gatewayKnown: bool)
    ensures Scheduled(Looped(turns, gatewayKnown))
    decreases |turns|
  {
    hide OneTurn, Scheduled;
    if turns != [] {
      LoopSchedules(turns[..|turns| - 1], gatewayKnown);
      TurnSchedules(Looped(turns[..|turns| - 1], gatewayKnown), turns[|turns| - 1], gatewayKnown);
    } else {
      StartScheduled();
    }
  }

  lemma StartScheduled()
    ensures Scheduled(Reported(FRESH, Trying))
  {
  }

  lemma TurnSchedules(m: Mapper, t: Turn, gatewayKnown: bool)
    requires Scheduled(m)
    ensures Scheduled(OneTurn(m, t, gatewayKnown))
  {
    hide Outcome;
  }
}
