/** Which requests a step of the transport settles: exactly those whose messages it gives up. */
module EndToEndFailures {
  import T = TransportModel
  import O = TransportOutcome
  import U = UmsModel
  import L = LifecycleModel
  import opened EndToEnd

  /** Among these callbacks there is one with an error for a batch of request `r`. */
  predicate FailsIn(ran: seq<T.Ran>, sent: seq<Sent>, r: nat) {
    exists i :: 0 <= i < |ran| && !ran[i].ok && ran[i].batch < |sent| && sent[ran[i].batch].req == r
  }

  /** A request after its message was given up: rejected, if it was still open. */
  function Failed(q: U.Request): U.Request {
    if q.status == U.Unsettled then q.(status := U.Rejected(U.SendFailed)) else q
  }

  lemma FailOneIs(life: L.State, one: T.Ran, sent: seq<Sent>, r: nat)
    requires r < |life.ums.requests|
    ensures var qs := FailOne(life, one, sent).ums.requests;
            && |qs| == |life.ums.requests|
            && qs[r] == (if FailsIn([one], sent, r) then Failed(life.ums.requests[r]) else life.ums.requests[r])
  {
    assert FailsIn([one], sent, r) <==> !one.ok && one.batch < |sent| && sent[one.batch].req == r by {
      if !one.ok && one.batch < |sent| && sent[one.batch].req == r { assert ![one][0].ok; }
    }
  }

  lemma FailsInSplit(ran: seq<T.Ran>, sent: seq<Sent>, r: nat)
    requires ran != []
    ensures FailsIn(ran, sent, r) <==> FailsIn([ran[0]], sent, r) || FailsIn(ran[1..], sent, r)
  {
    if FailsIn([ran[0]], sent, r) { assert !ran[0].ok; }
    if FailsIn(ran[1..], sent, r) {
      var i: nat :| i < |ran[1..]| && !ran[1..][i].ok && ran[1..][i].batch < |sent| && sent[ran[1..][i].batch].req == r;
      assert !ran[i + 1].ok;
    }
    if FailsIn(ran, sent, r) {
      var i: nat :| i < |ran| && !ran[i].ok && ran[i].batch < |sent| && sent[ran[i].batch].req == r;
      if i > 0 { assert !ran[1..][i - 1].ok; } else { assert ![ran[0]][0].ok; }
    }
  }

  lemma {:induction false} FailAllIs(life: L.State, ran: seq<T.Ran>, sent: seq<Sent>, r: nat)
    requires r < |life.ums.requests|
    ensures var qs := FailAll(life, ran, sent).ums.requests;
            && |qs| == |life.ums.requests|
            && qs[r] == (if FailsIn(ran, sent, r) then Failed(life.ums.requests[r]) else life.ums.requests[r])
    decreases |ran|
  {
    if ran != [] {
      FailOneIs(life, ran[0], sent, r);
      FailsInSplit(ran, sent, r);
      FailAllIs(FailOne(life, ran[0], sent), ran[1..], sent, r);
    }
  }

  /** Main result, for every step of the transport in every state: an unsettled request is rejected in the same step if
      a callback of its message runs with an error, and no other request changes. */
  lemma GivenUpIsRejected(s: State, te: T.Event, r: nat)
    requires !te.Send? && r < |s.life.ums.requests|
    ensures var s' := Step(s, Transport(te));
            && s'.tr == T.Step(s.tr, te) && s.tr.hist.ran <= s'.tr.hist.ran
            && |s'.life.ums.requests| == |s.life.ums.requests|
            && s'.life.ums.requests[r]
               == if FailsIn(s'.tr.hist.ran[|s.tr.hist.ran|..], s.sent, r) then Failed(s.life.ums.requests[r])
                  else s.life.ums.requests[r]
  {
    O.StepExtends(s.tr, te);
    FailAllIs(s.life, T.Step(s.tr, te).hist.ran[|s.tr.hist.ran|..], s.sent, r);
  }
}
