/** Exactly which requests are safe, in runs of clients and servers together and in all runs of the media
    servers. */
module JointCondition {
  import opened Sfu
  import opened Signaling
  import opened Handshake
  import opened HandshakeCondition
  import opened JointRuns
  import opened JointLosses
  import opened JointSessions
  import opened JointScene
  import opened JointWitnesses
  import opened JointDrops

  // ---------------------------------------------------------------- switches, leaves and closes

  ghost predicate ConnectedOnceUnder(rules: Rules) {
    forall trace: seq<Joint>, moves: seq<Move> :: RuledRun(trace, moves, rules) ==> ConnectedOnce(trace[|moves|].net)
  }

  ghost predicate AgreeUnder(rules: Rules) {
    forall trace: seq<Joint>, moves: seq<Move> :: RuledRun(trace, moves, rules) ==> EndsAgree(trace[|moves|].net)
  }

  /** Nobody joins a room from within a room or leaves another room than its own, and no server closes
      that still serves a room when its peers are gone. */
  predicate Harmless(rules: Rules) {
    rules.switches == {} && (forall d :: d in rules.leaves ==> d.0 == Some(d.1)) && rules.closes == {}
  }

  lemma HarmlessMove(s: State, m: Move, rules: Rules)
    requires Follows(s, m, rules) && Harmless(rules)
    ensures FromOutside(s, m) && Forsakes(s, m) == {}
  {
  }

  lemma HarmlessKeeps(trace: seq<Joint>, moves: seq<Move>, rules: Rules)
    requires RuledRun(trace, moves, rules) && Harmless(rules)
    ensures forall i :: 0 <= i < |moves| ==> FromOutside(trace[i].s, moves[i])
    ensures trace[|moves|].net.h.lost == {}
  {
    forall i | 0 <= i < |moves| ensures FromOutside(trace[i].s, moves[i]) && Forsakes(trace[i].s, moves[i]) == {} {
      HarmlessMove(trace[i].s, moves[i], rules);
    }
    forall r | r in trace[|moves|].net.h.lost ensures false {
      LostIff(trace, moves, |moves|, r);
    }
  }

  lemma HarmlessIsSafe(trace: seq<Joint>, moves: seq<Move>, rules: Rules)
    requires RuledRun(trace, moves, rules) && Harmless(rules)
    ensures ConnectedOnce(trace[|moves|].net) && EndsAgree(trace[|moves|].net)
  {
    HarmlessKeeps(trace, moves, rules);
    OutsidersAreSafe(trace, moves, |moves|);
    ReachIsAll(trace[|moves|].net);
  }

  lemma NoRole(closes: set<bool>)
    requires true !in closes && false !in closes
    ensures closes == {}
  {
    forall isEgress: bool ensures isEgress !in closes {
      assert isEgress || !isEgress;
    }
    assert forall isEgress: bool :: isEgress !in closes;
  }

  lemma HarmIsUnsafe(rules: Rules) returns (trace: seq<Joint>, moves: seq<Move>)
    requires !Harmless(rules)
    ensures RuledRun(trace, moves, rules)
    ensures !ConnectedOnce(trace[|moves|].net) && !EndsAgree(trace[|moves|].net)
  {
    var j, p: Naming;
    if rules.switches != {} {
      var switch :| switch in rules.switches;
      p := (switch.0, if switch.0 == switch.1 then switch.0 + 1 else switch.1);
      j := SwitchIsUnsafe(p.0, p.1, rules);
    } else if true in rules.closes || false in rules.closes {
      p := (0, 0);
      j := CloseIsUnsafe(0, true in rules.closes, rules);
    } else {
      NoRole(rules.closes);
      var d :| d in rules.leaves && d.0 != Some(d.1);
      p := (d.1, d.1);
      j := LeaveIsUnsafe(d, rules);
    }
    trace, moves :| RuledRun(trace, moves, rules) && NamingRun(trace, moves, {p}) && Ends(trace, moves, j);
  }

  /** In all runs of clients and servers each pipe transport is connected at most once exactly if nobody
      joins a room, be it the same one again, without leaving the one before, nobody leaves a room that it
      is not in, and no server closes that a room still lists when the server's peers are gone; and exactly
      then the ends always agree. */
  lemma SafeIff(rules: Rules)
    ensures ConnectedOnceUnder(rules) <==> Harmless(rules)
    ensures AgreeUnder(rules) <==> Harmless(rules)
  {
    if Harmless(rules) {
      forall trace: seq<Joint>, moves: seq<Move> | RuledRun(trace, moves, rules)
        ensures ConnectedOnce(trace[|moves|].net) && EndsAgree(trace[|moves|].net)
      {
        HarmlessIsSafe(trace, moves, rules);
      }
    } else {
      var trace, moves := HarmIsUnsafe(rules);
    }
  }

  // ---------------------------------------------------------------- namings and drops

  /** In all joint runs with such producer requests in which no other rooms than `drops` are dropped
      untold. */
  ghost predicate ConnectedOnceNaming(namings: set<Naming>, drops: set<Room>) {
    forall trace: seq<Joint>, moves: seq<Move> ::
      NamingRun(trace, moves, namings) && trace[|moves|].net.h.lost <= drops ==> ConnectedOnce(trace[|moves|].net)
  }

  ghost predicate AgreeNaming(namings: set<Naming>, drops: set<Room>) {
    forall trace: seq<Joint>, moves: seq<Move> ::
      NamingRun(trace, moves, namings) && trace[|moves|].net.h.lost <= drops ==> EndsAgree(trace[|moves|].net)
  }

  lemma {:induction false} ReachAll(net: Net, actions: seq<Action>, namings: set<Naming>)
    requires Reachable(net, namings) && AllEnabled(net, actions) && forall a :: a in actions ==> !a.ServeAction?
    ensures Reachable(ApplyAll(net, actions), namings)
    decreases |actions|
  {
    if actions != [] {
      assert actions[0] in actions && forall a :: a in actions[1..] ==> a in actions;
      ReachNext(net, actions[0], namings);
      ReachAll(Apply(net, actions[0]), actions[1..], namings);
    }
  }

  lemma MoveIsWide(j: Joint, m: Move, namings: set<Naming>)
    requires Reachable(j.net, namings) && Allowed(j, m) && ObeysMove(j.net, m, namings)
    ensures Reachable(After(j, m).net, namings)
  {
    if m.Media? {
      OneOrder(j.net, m.action);
      ReachNext(j.net, m.action, namings);
    } else {
      OrdersFit(j, m);
      ReachAll(j.net, Orders(j.s, m), namings);
    }
  }

  /** The network of a joint run is that of a run in the wide sense. */
  lemma {:induction false} JointIsWide(trace: seq<Joint>, moves: seq<Move>, namings: set<Naming>, k: nat)
    requires NamingRun(trace, moves, namings) && k < |trace|
    ensures Reachable(trace[k].net, namings)
  {
    if k == 0 {
      assert ObedientRun([trace[0].net], [], namings) && [trace[0].net][0] == trace[0].net;
    } else {
      JointIsWide(trace, moves, namings, k - 1);
      assert ObeysMove(trace[k - 1].net, moves[k - 1], namings);
      MoveIsWide(trace[k - 1], moves[k - 1], namings);
      assert trace[(k - 1) + 1] == After(trace[k - 1], moves[k - 1]);
    }
  }

  lemma MoreNamings(trace: seq<Joint>, moves: seq<Move>, p: Naming, namings: set<Naming>)
    requires NamingRun(trace, moves, {p}) && p in namings
    ensures NamingRun(trace, moves, namings)
  {
    forall k | 0 <= k < |moves| ensures ObeysMove(trace[k].net, moves[k], namings) {
      assert ObeysMove(trace[k].net, moves[k], {p});
    }
  }

  /** What requests may name and which rooms may be dropped untold, for pipes to be safe. */
  ghost predicate SafelyNamed(namings: set<Naming>, drops: set<Room>) {
    OwnRoomOnly(namings) && Spared(namings, drops)
  }

  /** A request that names another room than that of its transport, and one that names its own room,
      if that can be dropped untold, lets server 0 connect a pipe twice. */
  lemma NamingIsUnsafe(namings: set<Naming>, drops: set<Room>) returns (trace: seq<Joint>, moves: seq<Move>)
    requires !SafelyNamed(namings, drops)
    ensures NamingRun(trace, moves, namings) && Reachable(trace[|moves|].net, namings)
    ensures trace[|moves|].net.h.lost <= drops
    ensures !ConnectedOnce(trace[|moves|].net) && !EndsAgree(trace[|moves|].net)
  {
    var j, p: Naming, rules;
    if q :| q in namings && q.0 != q.1 {
      p, rules := q, Rules({q}, {}, {});
      assert q == (q.0, q.1);
      j := SwitchIsUnsafe(q.0, q.1, rules);
    } else {
      var room :| room in drops && (room, room) in namings;
      p, rules := (room, room), Rules({}, {(None, room)}, {});
      j := LeaveIsUnsafe((None, room), rules);
    }
    trace, moves :| RuledRun(trace, moves, rules) && NamingRun(trace, moves, {p}) && Ends(trace, moves, j);
    MoreNamings(trace, moves, p, namings);
    JointIsWide(trace, moves, namings, |moves|);
  }

  /** Each pipe transport is connected at most once, in all runs, exactly if producer requests can only
      name the room that the peer's transport is in, and no room that they can name can be dropped
      untold; and exactly then the ends always agree.  Whether requests come with any contents or from
      clients by way of the signaling server makes no difference. */
  lemma SafeIffOwnRooms(namings: set<Naming>, drops: set<Room>)
    ensures AlwaysConnectedOnce(namings, drops) <==> SafelyNamed(namings, drops)
    ensures AlwaysAgree(namings, drops) <==> SafelyNamed(namings, drops)
    ensures ConnectedOnceNaming(namings, drops) <==> SafelyNamed(namings, drops)
    ensures AgreeNaming(namings, drops) <==> SafelyNamed(namings, drops)
  {
    if SafelyNamed(namings, drops) {
      forall net | Reachable(net, namings) && net.h.lost <= drops ensures ConnectedOnce(net) && EndsAgree(net) {
        OwnRoomsAreSafe(net, namings);
      }
      forall trace: seq<Joint>, moves: seq<Move> |
        NamingRun(trace, moves, namings) && trace[|moves|].net.h.lost <= drops
        ensures ConnectedOnce(trace[|moves|].net) && EndsAgree(trace[|moves|].net)
      {
        JointIsWide(trace, moves, namings, |moves|);
        OwnRoomsAreSafe(trace[|moves|].net, namings);
      }
    } else {
      var trace, moves := NamingIsUnsafe(namings, drops);
    }
  }
}
