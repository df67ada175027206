/** The `ConnectionManager` of the server: two lists of live WebSocket
    connections, public displays and moderator consoles, and best-effort
    fan-out of a message to every connection of one list. Connections are
    opaque ids; whether a send fails is an oracle, the set of ids whose
    send raises. Every attempted send is recorded in a delivery log. */
module Connections {

  type ConnId = nat

  /** One attempted `send_json`, and whether it went through. */
  datatype Delivery<M> = Delivery(conn: ConnId, message: M, delivered: bool)

  /** The sends a loop over `conns` attempts, in list order. */
  function Attempts<M>(conns: seq<ConnId>, message: M, failing: set<ConnId>): seq<Delivery<M>> {
    if conns == [] then []
    else [Delivery(conns[0], message, conns[0] !in failing)] + Attempts(conns[1..], message, failing)
  }

  /** One attempt per connection, in order, carrying the message, and a
      failure at one connection affects only that connection's attempt. */
  lemma {:induction false} AttemptsAt<M>(conns: seq<ConnId>, message: M, failing: set<ConnId>, i: nat)
    requires i < |conns|
    ensures |Attempts(conns, message, failing)| == |conns|
    ensures Attempts(conns, message, failing)[i] == Delivery(conns[i], message, conns[i] !in failing)
  {
    if i > 0 {
      AttemptsAt(conns[1..], message, failing, i - 1);
    } else if |conns| > 1 {
      AttemptsAt(conns[1..], message, failing, 0);
    }
  }

  /** Every connection whose send does not fail receives the message. */
  lemma EveryHealthyConnectionReached<M>(conns: seq<ConnId>, message: M, failing: set<ConnId>, c: ConnId)
    requires c in conns && c !in failing
    ensures Delivery(c, message, true) in Attempts(conns, message, failing)
  {
    var i :| 0 <= i < |conns| && conns[i] == c;
    AttemptsAt(conns, message, failing, i);
  }

  /** `list.remove(x)`: drops the first occurrence of `x`, if any. */
  function RemoveFirst(s: seq<ConnId>, x: ConnId): (r: seq<ConnId>)
    ensures x !in s ==> r == s
    ensures x in s ==> |r| == |s| - 1
    ensures multiset(r) == multiset(s) - multiset{x}
  {
    if s == [] then []
    else if s[0] == x then
      assert s == [s[0]] + s[1..];
      s[1..]
    else
      assert s == [s[0]] + s[1..];
      [s[0]] + RemoveFirst(s[1..], x)
  }

  /** What RemoveFirst keeps: the elements before the first occurrence and
      those after it, in their order. */
  lemma {:induction false} RemoveFirstSplits(s: seq<ConnId>, x: ConnId, i: nat)
    requires i < |s| && s[i] == x && x !in s[..i]
    ensures RemoveFirst(s, x) == s[..i] + s[i + 1..]
  {
    var t := s[1..];
    if i == 0 {
      assert s[..0] + t == t;
    } else {
      assert s[..i][0] == s[0];
      assert s[..i] == [s[0]] + t[..i - 1];
      RemoveFirstSplits(t, x, i - 1);
      assert t[i..] == s[i + 1..];
    }
  }

  class ConnectionManager<M> {
    /** `active_connections`: the viewers' displays. */
    var active: seq<ConnId>
    /** `moderator_connections`. */
    var moderators: seq<ConnId>
    /** Every send attempted so far. */
    var deliveries: seq<Delivery<M>>

    constructor ()
      ensures active == [] && moderators == [] && deliveries == []
    {
      active := [];
      moderators := [];
      deliveries := [];
    }

    /** `connect`: appends to the list for the role; duplicates are kept. */
    method Connect(ws: ConnId, isModerator: bool)
      modifies this
      ensures isModerator ==> moderators == old(moderators) + [ws] && active == old(active)
      ensures !isModerator ==> active == old(active) + [ws] && moderators == old(moderators)
      ensures deliveries == old(deliveries)
    {
      if isModerator {
        moderators := moderators + [ws];
      } else {
        active := active + [ws];
      }
    }

    /** `disconnect`: removes one occurrence from the role's list only, and
      does nothing if the connection is not there. */
    method Disconnect(ws: ConnId, isModerator: bool)
      modifies this
      ensures isModerator ==> moderators == RemoveFirst(old(moderators), ws) && active == old(active)
      ensures !isModerator ==> active == RemoveFirst(old(active), ws) && moderators == old(moderators)
      ensures deliveries == old(deliveries)
    {
      if isModerator {
        if ws in moderators {
          moderators := RemoveFirst(moderators, ws);
        }
      } else {
        if ws in active {
          active := RemoveFirst(active, ws);
        }
      }
    }

    /** The loop body shared by both fan-outs: try each connection in turn,
      a failed send being logged and skipped. */
    method SendEach(conns: seq<ConnId>, message: M, failing: set<ConnId>)
      modifies this`deliveries
      ensures deliveries == old(deliveries) + Attempts(conns, message, failing)
    {
      var i := 0;
      while i < |conns|
        invariant 0 <= i <= |conns|
        invariant deliveries == old(deliveries) + Attempts(conns[..i], message, failing)
      {
        var connection := conns[i];
        AttemptsSnoc(conns[..i], connection, message, failing);
        assert conns[..i + 1] == conns[..i] + [connection];
        deliveries := deliveries + [Delivery(connection, message, connection !in failing)];
        i := i + 1;
      }
      assert conns[..i] == conns;
    }

    /** `broadcast`: a send to every viewer, in list order; no list changes. */
    method Broadcast(message: M, failing: set<ConnId>)
      modifies this
      ensures deliveries == old(deliveries) + Attempts(old(active), message, failing)
      ensures active == old(active) && moderators == old(moderators)
    {
      SendEach(active, message, failing);
    }

    /** `notify_moderators`: a send to every moderator, in list order. */
    method NotifyModerators(message: M, failing: set<ConnId>)
      modifies this
      ensures deliveries == old(deliveries) + Attempts(old(moderators), message, failing)
      ensures active == old(active) && moderators == old(moderators)
    {
      SendEach(moderators, message, failing);
    }
  }

  /** Attempts over a list extended by one connection. */
  lemma {:induction false} AttemptsSnoc<M>(conns: seq<ConnId>, c: ConnId, message: M, failing: set<ConnId>)
    ensures Attempts(conns + [c], message, failing)
         == Attempts(conns, message, failing) + [Delivery(c, message, c !in failing)]
  {
    if conns != [] {
      assert (conns + [c])[1..] == conns[1..] + [c];
      AttemptsSnoc(conns[1..], c, message, failing);
    }
  }
}
