/** What block_server and the traversal of a user's servers guarantee. */
module ServerProperties {
  import opened DisputeTypes
  import opened Reconciliation

  /** Blocking a server twice is blocking it once: the second call meets the guard. */
  lemma BlockServerIdempotent(s: State, sid: ServerId, f: set<Call>, g: set<Call>)
    requires sid in s.reasons && sid in s.tables.ownerOf
    requires BlockServer(s, sid, f).1.Normal?
    ensures BlockServer(BlockServer(s, sid, f).0, sid, g) == BlockServer(s, sid, f)
  {
  }

  /** A quarantine interrupted after the shutdown leaves the reason at 0, so a later
      block_server shuts the server down again: quarantine is at least once. */
  lemma InterruptedQuarantineIsRepeated(s: State, sid: ServerId)
    requires sid in s.reasons && sid in s.tables.ownerOf && s.reasons[sid] == 0
    ensures var first := BlockServer(s, sid, {UpdateValidationReason(sid)});
            var u := s.tables.ownerOf[sid];
            first.1 == Abrupt(Raised(UpdateValidationReason(sid))) &&
            first.0.reasons == s.reasons &&
            BlockServer(first.0, sid, {}).0.events ==
              s.events + QuarantineEvents(u, sid)[..2] + QuarantineEvents(u, sid)
  {
  }

  /** Only the block_server calls of a server matter to blocking it. */
  lemma BlockServerSeesOnlyItsCalls(s: State, sid: ServerId, f: set<Call>, g: set<Call>)
    requires sid in s.reasons && sid in s.tables.ownerOf
    requires BlockCalls(sid) * f == BlockCalls(sid) * g
    ensures BlockServer(s, sid, f) == BlockServer(s, sid, g)
  {
    assert ShutdownServer(sid) in f <==> ShutdownServer(sid) in BlockCalls(sid) * g;
    assert CreateShutdownActivity(sid) in f <==> CreateShutdownActivity(sid) in BlockCalls(sid) * g;
    assert UpdateValidationReason(sid) in f <==> UpdateValidationReason(sid) in BlockCalls(sid) * g;
    assert CreateValidationActivity(sid) in f <==> CreateValidationActivity(sid) in BlockCalls(sid) * g;
  }

  /** Only the block_server calls of the listed servers matter to blocking them. */
  lemma {:induction false} BlockAllSeesOnlyBlockCalls(s: State, sids: seq<ServerId>, f: set<Call>, g: set<Call>)
    requires forall i :: 0 <= i < |sids| ==> sids[i] in s.reasons && sids[i] in s.tables.ownerOf
    requires forall i :: 0 <= i < |sids| ==> BlockCalls(sids[i]) * f == BlockCalls(sids[i]) * g
    ensures BlockAll(s, sids, f) == BlockAll(s, sids, g)
    decreases |sids|
  {
    if sids != [] {
      BlockServerSeesOnlyItsCalls(s, sids[0], f, g);
      var t := BlockServer(s, sids[0], f).0;
      BlockAllSeesOnlyBlockCalls(t, sids[1..], f, g);
    }
  }

  /** A traversal that completes leaves every listed server under validation. */
  lemma {:induction false} BlockAllQuarantinesAll(s: State, sids: seq<ServerId>, f: set<Call>)
    requires forall i :: 0 <= i < |sids| ==> sids[i] in s.reasons && sids[i] in s.tables.ownerOf
    ensures BlockAll(s, sids, f).1.Normal? ==> AllQuarantined(BlockAll(s, sids, f).0, sids)
    decreases |sids|
  {
    if sids != [] {
      var (t, c) := BlockServer(s, sids[0], f);
      BlockAllQuarantinesAll(t, sids[1..], f);
      if c.Normal? && BlockAll(t, sids[1..], f).1.Normal? {
        var r := BlockAll(t, sids[1..], f).0;
        forall i | 0 <= i < |sids|
          ensures sids[i] in r.reasons && r.reasons[sids[i]] > 0
        {
          if i > 0 {
            assert sids[i] == sids[1..][i - 1];
          } else {
            assert t.reasons[sids[0]] > 0 && Quarantines(t, r);
          }
        }
      }
    }
  }

  /** A traversal none of whose block_server calls raises completes. */
  lemma {:induction false} BlockAllWithoutFaults(s: State, sids: seq<ServerId>, f: set<Call>)
    requires forall i :: 0 <= i < |sids| ==> sids[i] in s.reasons && sids[i] in s.tables.ownerOf
    requires forall i :: 0 <= i < |sids| ==> BlockCalls(sids[i]) !! f
    ensures BlockAll(s, sids, f).1.Normal?
    decreases |sids|
  {
    if sids != [] {
      var t := BlockServer(s, sids[0], f).0;
      BlockAllWithoutFaults(t, sids[1..], f);
    }
  }

  /** A server that is not listed keeps its validation reason. */
  lemma {:induction false} BlockAllKeepsUnlisted(s: State, sids: seq<ServerId>, f: set<Call>, x: ServerId)
    requires forall i :: 0 <= i < |sids| ==> sids[i] in s.reasons && sids[i] in s.tables.ownerOf
    requires x in s.reasons && x !in sids
    ensures BlockAll(s, sids, f).0.reasons[x] == s.reasons[x]
    decreases |sids|
  {
    if sids != [] {
      var (t, c) := BlockServer(s, sids[0], f);
      if c.Normal? {
        BlockAllKeepsUnlisted(t, sids[1..], f, x);
      }
    }
  }

  /** When every listed server is under validation already, the traversal does nothing. */
  lemma {:induction false} BlockAllSkipsQuarantined(s: State, sids: seq<ServerId>, f: set<Call>)
    requires forall i :: 0 <= i < |sids| ==> sids[i] in s.reasons && sids[i] in s.tables.ownerOf
    requires AllQuarantined(s, sids)
    ensures BlockAll(s, sids, f) == (s, Normal)
    decreases |sids|
  {
    if sids != [] {
      assert s.reasons[sids[0]] > 0;
      assert AllQuarantined(s, sids[1..]) by {
        forall i | 0 <= i < |sids[1..]|
          ensures sids[1..][i] in s.reasons && s.reasons[sids[1..][i]] > 0
        {
          assert sids[1..][i] == sids[i + 1];
        }
      }
      BlockAllSkipsQuarantined(s, sids[1..], f);
    }
  }

  /** A server list with no server twice, as a user's association lists them. */
  predicate Distinct(sids: seq<ServerId>)
  {
    forall i, j :: 0 <= i < j < |sids| ==> sids[i] != sids[j]
  }

  /** The effects block_server records for one server: its quarantine if it is not yet
      under validation, nothing otherwise (a server missing from the tables, which a
      coherent state never lists, adds nothing). */
  function QuarantineOf(ownerOf: map<ServerId, UserId>, reasons: map<ServerId, int>, sid: ServerId): seq<Event>
  {
    if sid in reasons && sid in ownerOf && reasons[sid] <= 0 then QuarantineEvents(ownerOf[sid], sid) else []
  }

  /** The effects of quarantining, in order, each listed server not yet under validation. */
  function QuarantineTrace(ownerOf: map<ServerId, UserId>, reasons: map<ServerId, int>, sids: seq<ServerId>): seq<Event>
    decreases |sids|
  {
    if sids == [] then []
    else QuarantineOf(ownerOf, reasons, sids[0]) + QuarantineTrace(ownerOf, reasons, sids[1..])
  }

  /** The quarantine trace reads the reasons of the listed servers only. */
  lemma {:induction false} QuarantineTraceFrame(ownerOf: map<ServerId, UserId>, r1: map<ServerId, int>,
                                                r2: map<ServerId, int>, sids: seq<ServerId>)
    requires forall i :: 0 <= i < |sids| ==> sids[i] in r1 && sids[i] in r2
    requires forall i :: 0 <= i < |sids| ==> r1[sids[i]] == r2[sids[i]]
    ensures QuarantineTrace(ownerOf, r1, sids) == QuarantineTrace(ownerOf, r2, sids)
    decreases |sids|
  {
    if sids != [] {
      QuarantineTraceFrame(ownerOf, r1, r2, sids[1..]);
    }
  }

  /** The tail of a distinct list is distinct and avoids its head. */
  lemma DistinctTail(sids: seq<ServerId>)
    requires sids != [] && Distinct(sids)
    ensures Distinct(sids[1..])
    ensures forall i :: 0 <= i < |sids[1..]| ==> sids[1..][i] != sids[0]
  {
    forall i, j | 0 <= i < j < |sids[1..]|
      ensures sids[1..][i] != sids[1..][j]
    {
      assert sids[1..][i] == sids[i + 1] && sids[1..][j] == sids[j + 1];
    }
    forall i | 0 <= i < |sids[1..]|
      ensures sids[1..][i] != sids[0]
    {
      assert sids[1..][i] == sids[i + 1];
    }
  }

  /** The first step of a completed traversal of distinct servers: block_server completed,
      recorded the first server's quarantine effects, and left the reasons of the remaining
      servers, hence their quarantine trace, as they were. */
  lemma BlockAllHead(s: State, sids: seq<ServerId>, f: set<Call>)
    requires forall i :: 0 <= i < |sids| ==> sids[i] in s.reasons && sids[i] in s.tables.ownerOf
    requires sids != [] && Distinct(sids) && BlockAll(s, sids, f).1.Normal?
    ensures var t := BlockServer(s, sids[0], f).0;
            var rest := sids[1..];
            BlockAll(s, sids, f) == BlockAll(t, rest, f) &&
            t.events == s.events + QuarantineOf(s.tables.ownerOf, s.reasons, sids[0]) &&
            t.tables == s.tables && Distinct(rest) &&
            (forall i :: 0 <= i < |rest| ==> rest[i] in t.reasons && rest[i] in t.tables.ownerOf) &&
            t.events + QuarantineTrace(t.tables.ownerOf, t.reasons, rest) ==
              s.events + QuarantineTrace(s.tables.ownerOf, s.reasons, sids)
  {
    DistinctTail(sids);
    var t := BlockServer(s, sids[0], f).0;
    var o := s.tables.ownerOf;
    QuarantineTraceFrame(o, t.reasons, s.reasons, sids[1..]);
    assert s.events + QuarantineOf(o, s.reasons, sids[0]) + QuarantineTrace(o, s.reasons, sids[1..]) ==
           s.events + QuarantineTrace(o, s.reasons, sids);
  }

  /** A completed traversal of distinct servers records, in order, exactly the quarantine of
      every listed server that was not under validation: shutdown, shutdown activity and
      validation activity with reason 4, owned by the server's user; a server under
      validation already adds nothing. */
  lemma {:induction false} BlockAllTrace(s: State, sids: seq<ServerId>, f: set<Call>)
    requires forall i :: 0 <= i < |sids| ==> sids[i] in s.reasons && sids[i] in s.tables.ownerOf
    requires Distinct(sids) && BlockAll(s, sids, f).1.Normal?
    ensures BlockAll(s, sids, f).0.events == s.events + QuarantineTrace(s.tables.ownerOf, s.reasons, sids)
    decreases |sids|
  {
    if sids != [] {
      BlockAllHead(s, sids, f);
      BlockAllTrace(BlockServer(s, sids[0], f).0, sids[1..], f);
    }
  }
}
