/** The memoised resolver against the uncached one. Calls of the uncached resolver are numbered; a cached answer is the
    promise of such a call. Of the memoising library it is assumed that an entry is used for less than `maxAge` after
    the call that made it, and that a failed call's entry is dropped; whether a late failure also drops a newer entry
    of the same key is left open. */
module CachingResolver {
  import opened Wrappers
  import opened CsdsResolver

  // ---------- model ----------

  datatype Outcome = Pending | Failed | Answered(body: Body)

  /** A call of the uncached resolver. */
  datatype Call = Call(options: Options, at: nat, outcome: Outcome)

  /** A call of the caching resolver, with the call whose promise it returned. */
  datatype Reply = Reply(options: Options, at: nat, call: nat)

  datatype State = State(maxAge: nat, now: nat, cache: map<string, nat>, calls: seq<Call>, replies: seq<Reply>)

  function Init(maxAge: nat): State {
    State(maxAge, 0, map[], [], [])
  }

  datatype Event =
    | Resolve(options: Options)
    | Settle(call: nat, answer: Option<Body>, newer: bool)   // None: the call fails; newer: so does a newer entry go
    | Advance(dt: nat)

  predicate Hit(s: State, key: string) {
    && key in s.cache && s.cache[key] < |s.calls|
    && s.now < s.calls[s.cache[key]].at + s.maxAge
  }

  function DoResolve(s: State, o: Options): State {
    var key := CacheKey(o);
    if Hit(s, key) then s.(replies := s.replies + [Reply(o, s.now, s.cache[key])])
    else
      s.(calls := s.calls + [Call(o, s.now, Pending)], cache := s.cache[key := |s.calls|],
         replies := s.replies + [Reply(o, s.now, |s.calls|)])
  }

  function DoSettle(s: State, c: nat, answer: Option<Body>, newer: bool): State
    requires c < |s.calls|
  {
    var key := CacheKey(s.calls[c].options);
    var outcome := if answer.Some? then Answered(answer.value) else Failed;
    s.(calls := s.calls[c := s.calls[c].(outcome := outcome)],
       cache := if answer == None && key in s.cache && (newer || s.cache[key] == c) then s.cache - {key} else s.cache)
  }

  predicate Enabled(s: State, e: Event) {
    match e
    case Resolve(_) => true
    case Settle(c, _, _) => c < |s.calls| && s.calls[c].outcome == Pending
    case Advance(_) => true
  }

  function Step(s: State, e: Event): State {
    if !Enabled(s, e) then s
    else match e
      case Resolve(o) => DoResolve(s, o)
      case Settle(c, answer, newer) => DoSettle(s, c, answer, newer)
      case Advance(dt) => s.(now := s.now + dt)
  }

  function Run(s: State, es: seq<Event>): State
    decreases |es|
  {
    if es == [] then s else Run(Step(s, es[0]), es[1..])
  }

  // ---------- invariant ----------

  ghost predicate CacheOk(s: State) {
    forall key :: key in s.cache ==>
      && s.cache[key] < |s.calls| && CacheKey(s.calls[s.cache[key]].options) == key
      && s.calls[s.cache[key]].outcome != Failed
  }

  ghost predicate ReplyOk(s: State, r: Reply) {
    && r.call < |s.calls| && CacheKey(s.calls[r.call].options) == CacheKey(r.options)
    && s.calls[r.call].at <= r.at
    && (r.at < s.calls[r.call].at + s.maxAge || (r.at == s.calls[r.call].at && r.options == s.calls[r.call].options))
  }

  ghost predicate Inv(s: State) {
    && CacheOk(s)
    && (forall r :: r in s.replies ==> ReplyOk(s, r))
    && (forall i :: 0 <= i < |s.calls| ==> s.calls[i].at <= s.now)
    && (forall i, j :: 0 <= i < j < |s.calls| ==> s.calls[i].at <= s.calls[j].at)
  }

  lemma ResolveInv(s: State, o: Options)
    requires Inv(s)
    ensures Inv(DoResolve(s, o))
  {
    var s' := DoResolve(s, o);
    forall r | r in s'.replies ensures ReplyOk(s', r) {
      if r in s.replies { assert ReplyOk(s, r); }
    }
  }

  lemma SettleInv(s: State, c: nat, answer: Option<Body>, newer: bool)
    requires Inv(s) && c < |s.calls| && s.calls[c].outcome == Pending
    ensures Inv(DoSettle(s, c, answer, newer))
  {
    var s' := DoSettle(s, c, answer, newer);
    forall r | r in s'.replies ensures ReplyOk(s', r) { assert ReplyOk(s, r); }
  }

  lemma StepInv(s: State, e: Event)
    requires Inv(s)
    ensures Inv(Step(s, e))
  {
    if Enabled(s, e) {
      match e
      case Resolve(o) => ResolveInv(s, o);
      case Settle(c, answer, newer) => SettleInv(s, c, answer, newer);
      case Advance(dt) =>
        forall r | r in s.replies ensures ReplyOk(s.(now := s.now + dt), r) { assert ReplyOk(s, r); }
    }
  }

  lemma {:induction false} RunInv(s: State, es: seq<Event>)
    requires Inv(s)
    ensures Inv(Run(s, es))
    decreases |es|
  {
    if es != [] {
      StepInv(s, es[0]);
      RunInv(Step(s, es[0]), es[1..]);
    }
  }

  lemma InitInv(maxAge: nat)
    ensures Inv(Init(maxAge))
  {
  }

  /** Calls keep their options and their time, and a failed one stays failed. */
  ghost predicate CallsKept(s: State, s': State) {
    && |s.calls| <= |s'.calls| && s.now <= s'.now && s'.maxAge == s.maxAge
    && forall k :: 0 <= k < |s.calls| ==>
         && s'.calls[k].options == s.calls[k].options && s'.calls[k].at == s.calls[k].at
         && (s.calls[k].outcome == Failed ==> s'.calls[k].outcome == Failed)
  }

  lemma {:induction false} RunKeepsCalls(s: State, es: seq<Event>)
    ensures CallsKept(s, Run(s, es))
    decreases |es|
  {
    if es != [] {
      assert CallsKept(s, Step(s, es[0]));
      RunKeepsCalls(Step(s, es[0]), es[1..]);
    }
  }

  // ---------- main results ----------

  /** All requests of a run are for one domain, and their account ids contain no '_'. */
  ghost predicate OneDomain(es: seq<Event>, domain: string) {
    forall e :: e in es && e.Resolve? ==>
      e.options.csdsDomain == domain && '_' !in e.options.accountId
  }

  ghost predicate Plain(o: Options, domain: string) {
    o.csdsDomain == domain && '_' !in o.accountId
  }

  ghost predicate AllPlain(s: State, domain: string) {
    (forall c :: c in s.calls ==> Plain(c.options, domain)) && (forall r :: r in s.replies ==> Plain(r.options, domain))
  }

  lemma {:induction false} RunPlain(s: State, es: seq<Event>, domain: string)
    requires AllPlain(s, domain) && OneDomain(es, domain)
    ensures AllPlain(Run(s, es), domain)
    decreases |es|
  {
    if es != [] {
      var s' := Step(s, es[0]);
      forall c | c in s'.calls ensures Plain(c.options, domain) {
        if c !in s.calls && es[0].Settle? { assert s.calls[es[0].call] in s.calls; }
      }
      RunPlain(s', es[1..], domain);
    }
  }

  /** Cache refinement: with one domain and account ids without '_', every answer is that of an uncached call for the
      same account and service, made by this request itself or less than `maxAge` before it. */
  lemma CacheRefinement(maxAge: nat, es: seq<Event>, domain: string, r: Reply)
    requires OneDomain(es, domain) && r in Run(Init(maxAge), es).replies
    ensures var s := Run(Init(maxAge), es);
            && r.call < |s.calls|
            && Url(s.calls[r.call].options) == Url(r.options)
            && s.calls[r.call].options.accountId == r.options.accountId
            && ServiceOf(s.calls[r.call].options) == ServiceOf(r.options)
            && s.calls[r.call].at <= r.at
            && (s.calls[r.call].at == r.at || r.at < s.calls[r.call].at + maxAge)
  {
    var s := Run(Init(maxAge), es);
    InitInv(maxAge);
    RunInv(Init(maxAge), es);
    RunPlain(Init(maxAge), es, domain);
    RunKeepsCalls(Init(maxAge), es);
    assert ReplyOk(s, r);
    var c := s.calls[r.call];
    assert c in s.calls && Plain(c.options, domain) && Plain(r.options, domain);
    KeyDetermines(c.options, r.options);
  }

  // ---------- when the next uncached call is made ----------

  /** Call `i` is the last one with this key. */
  ghost predicate LastCall(s: State, i: nat, key: string) {
    && i < |s.calls| && CacheKey(s.calls[i].options) == key
    && forall j :: i < j < |s.calls| ==> CacheKey(s.calls[j].options) != key
  }

  /** The failure of a call with this key that takes the entry of call `i` with it. */
  predicate Drops(s: State, e: Event, i: nat, key: string) {
    && e.Settle? && e.answer == None && Enabled(s, e)
    && CacheKey(s.calls[e.call].options) == key && (e.call == i || e.newer)
  }

  predicate Dropped(s: State, es: seq<Event>, i: nat, key: string)
    decreases |es|
  {
    es != [] && (Drops(s, es[0], i, key) || Dropped(Step(s, es[0]), es[1..], i, key))
  }

  /** The entry of the key is that of call `i`, or gone. */
  ghost predicate Entry(s: State, i: nat, key: string, gone: bool) {
    && i < |s.calls| && CacheKey(s.calls[i].options) == key
    && if gone then key !in s.cache else key in s.cache && s.cache[key] == i
  }

  lemma EntryStep(s: State, e: Event, i: nat, key: string, gone: bool)
    requires Entry(s, i, key, gone) && LastCall(Step(s, e), i, key)
    ensures Entry(Step(s, e), i, key, gone || Drops(s, e, i, key))
  {
    if e.Resolve? && !Hit(s, CacheKey(e.options)) {
      assert Step(s, e).calls[|s.calls|].options == e.options;
    }
  }

  lemma LastBefore(s: State, s': State, i: nat, key: string)
    requires CallsKept(s, s') && i < |s.calls| && LastCall(s', i, key)
    ensures LastCall(s, i, key)
  {
    forall j | i < j < |s.calls| ensures CacheKey(s.calls[j].options) != key {
      assert s'.calls[j].options == s.calls[j].options;
    }
  }

  lemma {:induction false} EntryRun(s: State, es: seq<Event>, i: nat, key: string, gone: bool)
    requires Entry(s, i, key, gone) && LastCall(Run(s, es), i, key)
    ensures Entry(Run(s, es), i, key, gone || Dropped(s, es, i, key))
    decreases |es|
  {
    if es != [] {
      var s1 := Step(s, es[0]);
      assert CallsKept(s, s1);
      RunKeepsCalls(s1, es[1..]);
      LastBefore(s1, Run(s, es), i, key);
      EntryStep(s, es[0], i, key, gone);
      EntryRun(s1, es[1..], i, key, gone || Drops(s, es[0], i, key));
    }
  }

  /** Main result: exactly when the next uncached call with a key is made. After a miss has made a call, and while it is
      the last one with its key, a request with this key makes another if and only if `maxAge` has passed since, or the
      call has failed, or another call with the key has failed and the library dropped the newer entry as well. */
  lemma NextCallIff(s: State, o: Options, es: seq<Event>, again: Options)
    requires !Hit(s, CacheKey(o)) && CacheKey(again) == CacheKey(o)
    requires LastCall(Run(Step(s, Resolve(o)), es), |s.calls|, CacheKey(o))
    ensures var s1 := Step(s, Resolve(o)); var s2 := Run(s1, es);
            |Step(s2, Resolve(again)).calls| > |s2.calls|
            <==> s2.now >= s.now + s.maxAge || Dropped(s1, es, |s.calls|, CacheKey(o))
  {
    var s1 := Step(s, Resolve(o));
    assert Entry(s1, |s.calls|, CacheKey(o), false);
    EntryRun(s1, es, |s.calls|, CacheKey(o), false);
    RunKeepsCalls(s1, es);
    assert Run(s1, es).calls[|s.calls|].at == s.now;
  }

  // ---------- the distance of any two calls ----------

  lemma {:induction false} RunSplit(s: State, es: seq<Event>, m: nat)
    requires m <= |es|
    ensures Run(s, es) == Run(Run(s, es[..m]), es[m..])
    decreases m
  {
    if m > 0 {
      assert es[1..][..m - 1] == es[..m][1..] && es[1..][m - 1..] == es[m..];
      RunSplit(Step(s, es[0]), es[1..], m - 1);
    }
  }

  /** The stretch of a run behind event `n` and before event `m`. */
  lemma RunBehind(s: State, es: seq<Event>, n: nat, m: nat)
    requires n < m <= |es|
    ensures Run(s, es[..m]) == Run(Step(Run(s, es[..n]), es[n]), es[n + 1..m])
  {
    RunSplit(s, es[..m], n);
    assert es[..m][..n] == es[..n] && es[..m][n..] == es[n..m];
    assert es[n..m][1..] == es[n + 1..m];
  }

  /** Event `n` of a run made call `j`. */
  ghost predicate Makes(s: State, es: seq<Event>, n: nat, j: nat) {
    n < |es| && es[n].Resolve? && |Run(s, es[..n]).calls| == j && !Hit(Run(s, es[..n]), CacheKey(es[n].options))
  }

  lemma {:induction false} MadeAt(s: State, es: seq<Event>, j: nat) returns (n: nat)
    requires |s.calls| <= j < |Run(s, es).calls|
    ensures Makes(s, es, n, j)
    decreases |es|
  {
    var s1 := Step(s, es[0]);
    if |s1.calls| > j {
      n := 0;
    } else {
      var m := MadeAt(s1, es[1..], j);
      n := m + 1;
      assert es[..n][1..] == es[1..][..m];
    }
  }

  /** What call `j` is, by the event that made it. */
  lemma MadeCall(s: State, es: seq<Event>, n: nat, j: nat)
    requires Makes(s, es, n, j)
    ensures var s' := Run(s, es);
            j < |s'.calls| && s'.calls[j].options == es[n].options && s'.calls[j].at == Run(s, es[..n]).now
    ensures CallsKept(Run(s, es[..n]), Run(s, es))
  {
    var sn := Run(s, es[..n]);
    RunSplit(s, es, n);
    RunKeepsCalls(sn, es[n..]);
    RunKeepsCalls(Step(sn, es[n]), es[n..][1..]);
  }

  lemma MadeInOrder(s: State, es: seq<Event>, np: nat, p: nat, nj: nat, j: nat)
    requires Makes(s, es, np, p) && Makes(s, es, nj, j) && p < j
    ensures np < nj
  {
    if nj <= np {
      RunSplit(s, es[..np], nj);
      assert es[..np][..nj] == es[..nj];
      RunKeepsCalls(Run(s, es[..nj]), es[..np][nj..]);
    }
  }

  lemma {:induction false} DroppedAt(s: State, es: seq<Event>, i: nat, key: string) returns (n: nat)
    requires Dropped(s, es, i, key)
    ensures n < |es| && Drops(Run(s, es[..n]), es[n], i, key)
    decreases |es|
  {
    if Drops(s, es[0], i, key) {
      n := 0;
    } else {
      var m := DroppedAt(Step(s, es[0]), es[1..], i, key);
      n := m + 1;
      assert es[..n][1..] == es[1..][..m];
    }
  }

  /** Behind the making of call `p` and before that of call `j`, event `n` drops the entry of call `p`. */
  ghost predicate DropsBetween(s: State, es: seq<Event>, n: nat, p: nat, j: nat, key: string) {
    n < |es| && p < |Run(s, es[..n]).calls| <= j && Drops(Run(s, es[..n]), es[n], p, key)
  }

  /** Call `p` is the last one before call `j` with its key. */
  ghost predicate Consecutive(s: State, p: nat, j: nat) {
    && p < j < |s.calls| && CacheKey(s.calls[p].options) == CacheKey(s.calls[j].options)
    && forall k :: p < k < j ==> CacheKey(s.calls[k].options) != CacheKey(s.calls[j].options)
  }

  /** Of two consecutive calls with one key the second comes `maxAge` after the first, or the entry was dropped. */
  lemma NextIsSpaced(s: State, es: seq<Event>, p: nat, j: nat) returns (n: nat)
    requires |s.calls| <= p && Consecutive(Run(s, es), p, j)
    ensures var s' := Run(s, es);
            s'.calls[j].at >= s'.calls[p].at + s.maxAge || DropsBetween(s, es, n, p, j, CacheKey(s'.calls[j].options))
  {
    var np := MadeAt(s, es, p);
    var nj := MadeAt(s, es, j);
    MadeCall(s, es, np, p);
    MadeCall(s, es, nj, j);
    MadeInOrder(s, es, np, p, nj, j);
    var sp, sj, o := Run(s, es[..np]), Run(s, es[..nj]), es[np].options;
    var s1, mid := Step(sp, es[np]), es[np + 1..nj];
    RunBehind(s, es, np, nj);
    RunKeepsCalls(s, es[..np]);
    StillLast(sj, Run(s, es), s1, mid, p, j);
    NextCallIff(sp, o, mid, es[nj].options);
    n := 0;
    if Dropped(s1, mid, p, CacheKey(o)) {
      n := DropInStretch(s, es, np, nj, p, CacheKey(o));
    }
  }

  lemma DropInStretch(s: State, es: seq<Event>, np: nat, nj: nat, p: nat, key: string) returns (n: nat)
    requires np < nj <= |es| && p < |Step(Run(s, es[..np]), es[np]).calls|
    requires Dropped(Step(Run(s, es[..np]), es[np]), es[np + 1..nj], p, key)
    ensures DropsBetween(s, es, n, p, |Run(s, es[..nj]).calls|, key)
  {
    var s1, mid := Step(Run(s, es[..np]), es[np]), es[np + 1..nj];
    var m := DroppedAt(s1, mid, p, key);
    n := np + 1 + m;
    RunBehind(s, es, np, n);
    RunBehind(s, es, np, nj);
    forall k | 0 <= k < m ensures es[np + 1..n][k] == mid[..m][k] { assert mid[k] == es[np + 1 + k]; }
    assert es[np + 1..n] == mid[..m];
    RunSplit(s1, mid, m);
    RunKeepsCalls(s1, mid[..m]);
    RunKeepsCalls(Run(s1, mid[..m]), mid[m..]);
  }

  lemma StillLast(sj: State, s': State, s1: State, mid: seq<Event>, p: nat, j: nat)
    requires sj == Run(s1, mid) && p < |s1.calls| && |sj.calls| == j && CallsKept(sj, s') && Consecutive(s', p, j)
    ensures LastCall(sj, p, CacheKey(s'.calls[p].options))
  {
    RunKeepsCalls(s1, mid);
    forall k | p < k < |sj.calls| ensures CacheKey(sj.calls[k].options) != CacheKey(s'.calls[p].options) {
      assert sj.calls[k].options == s'.calls[k].options;
    }
  }

  ghost predicate FailedWithKey(s: State, f: nat, key: string) {
    f < |s.calls| && s.calls[f].outcome == Failed && CacheKey(s.calls[f].options) == key
  }

  /** In this run the library drops a failed call's own entry only. */
  ghost predicate OwnOnly(es: seq<Event>) {
    forall e :: e in es && e.Settle? ==> !e.newer
  }

  /** A drop leaves a failed call with the key: call `p` itself, if the library drops a failed call's own entry only. */
  lemma DropLeavesFailed(s: State, es: seq<Event>, n: nat, p: nat, j: nat, key: string) returns (f: nat)
    requires DropsBetween(s, es, n, p, j, key)
    ensures f < j && FailedWithKey(Run(s, es), f, key) && (OwnOnly(es) ==> f == p)
  {
    f := es[n].call;
    var sn := Run(s, es[..n]);
    RunSplit(s, es, n);
    RunKeepsCalls(Step(sn, es[n]), es[n..][1..]);
    assert es[n] in es;
  }

  /** The last call before `j` with its key, not before `i`. */
  lemma {:induction false} LastOf(s: State, i: nat, j: nat, from: nat) returns (p: nat)
    requires i <= from < j < |s.calls| && CacheKey(s.calls[i].options) == CacheKey(s.calls[j].options)
    requires forall k :: from < k < j ==> CacheKey(s.calls[k].options) != CacheKey(s.calls[j].options)
    ensures i <= p && Consecutive(s, p, j)
    decreases from
  {
    if CacheKey(s.calls[from].options) == CacheKey(s.calls[j].options) {
      p := from;
    } else {
      p := LastOf(s, i, j, from - 1);
    }
  }

  /** Two uncached calls with one key are at least `maxAge` apart, unless in between, after the last call `p` before the
      second one was made, its entry was dropped: by its own failure, or by that of another call with the key that took
      the newer entry with it. If the library drops a failed call's own entry only, unless the first of the two
      failed. */
  lemma {:induction false} CallsAreSpaced(maxAge: nat, es: seq<Event>, i: nat, j: nat)
    requires i < j < |Run(Init(maxAge), es).calls|
    requires var s := Run(Init(maxAge), es); CacheKey(s.calls[i].options) == CacheKey(s.calls[j].options)
    ensures var s := Run(Init(maxAge), es); var key := CacheKey(s.calls[i].options);
            && (s.calls[j].at >= s.calls[i].at + maxAge
                || exists p: nat, n: nat ::
                     i <= p && Consecutive(s, p, j) && DropsBetween(Init(maxAge), es, n, p, j, key))
            && (s.calls[j].at >= s.calls[i].at + maxAge || exists f: nat :: f < j && FailedWithKey(s, f, key))
            && (OwnOnly(es) ==> s.calls[j].at >= s.calls[i].at + maxAge || s.calls[i].outcome == Failed)
    decreases j
  {
    var s := Run(Init(maxAge), es);
    InitInv(maxAge);
    RunInv(Init(maxAge), es);
    var p := LastOf(s, i, j, j - 1);
    var n := NextIsSpaced(Init(maxAge), es, p, j);
    if s.calls[j].at < s.calls[i].at + maxAge {
      assert s.calls[i].at <= s.calls[p].at;
      var f := DropLeavesFailed(Init(maxAge), es, n, p, j, CacheKey(s.calls[i].options));
      assert FailedWithKey(s, f, CacheKey(s.calls[i].options));
      if OwnOnly(es) && i < p { CallsAreSpaced(maxAge, es, i, p); }
    }
  }

  /** With a library that drops by key that is all one can say: a late failure makes the third call come too soon. */
  lemma LateFailureDropsNewer(o: Options)
    ensures var s := Run(Init(2), [Resolve(o), Advance(2), Resolve(o), Settle(0, None, true), Resolve(o)]);
            |s.calls| == 3 && s.calls[1].outcome == Pending && s.calls[2].at < s.calls[1].at + 2
  {
    var es := [Resolve(o), Advance(2), Resolve(o), Settle(0, None, true), Resolve(o)];
    var s1 := Step(Init(2), es[0]);
    var s2 := Step(s1, es[1]);
    var s3 := Step(s2, es[2]);
    var s4 := Step(s3, es[3]);
    assert s4.cache == map[];
    var s5 := Step(s4, es[4]);
    assert es[1..][1..] == es[2..] && es[2..][1..] == es[3..] && es[3..][1..] == es[4..] && es[4..][1..] == es[5..];
    assert Run(Init(2), es) == Run(s1, es[1..]) == Run(s2, es[2..]) == Run(s3, es[3..]);
    assert Run(s3, es[3..]) == Run(s4, es[4..]) == Run(s5, es[5..]);
  }

  /** A failed call is never the answer to a later request. */
  lemma FailuresAreNotCached(maxAge: nat, es: seq<Event>, o: Options)
    ensures var s := Run(Init(maxAge), es); var s' := Step(s, Resolve(o));
            && |s'.replies| == |s.replies| + 1 && s'.replies[|s.replies|].options == o
            && s'.replies[|s.replies|].call < |s'.calls| && s'.calls[s'.replies[|s.replies|].call].outcome != Failed
  {
    InitInv(maxAge);
    RunInv(Init(maxAge), es);
    StepInv(Run(Init(maxAge), es), Resolve(o));
  }

  /** A call that settles keeps its outcome: the body it was answered with, or its failure. */
  lemma {:induction false} OutcomeStays(s: State, es: seq<Event>, c: nat)
    requires c < |s.calls| && s.calls[c].outcome != Pending
    ensures c < |Run(s, es).calls| && Run(s, es).calls[c] == s.calls[c]
    decreases |es|
  {
    if es != [] { OutcomeStays(Step(s, es[0]), es[1..], c); }
  }

  /** Every request that was answered with a call gets, in every later state, what this call was settled with. */
  lemma RepliesGetTheBody(maxAge: nat, es: seq<Event>, c: nat, answer: Option<Body>, newer: bool, after: seq<Event>)
    requires var s := Run(Init(maxAge), es); c < |s.calls| && s.calls[c].outcome == Pending
    ensures var s := Run(Init(maxAge), es); var s' := Run(Step(s, Settle(c, answer, newer)), after);
            && s.replies <= s'.replies && c < |s'.calls| && s'.calls[c].options == s.calls[c].options
            && s'.calls[c].outcome == (if answer.Some? then Answered(answer.value) else Failed)
            && forall r :: r in s'.replies && r.call == c && answer == None ==> r in s.replies
  {
    var s := Run(Init(maxAge), es);
    var s1 := Step(s, Settle(c, answer, newer));
    InitInv(maxAge);
    RunInv(Init(maxAge), es);
    StepInv(s, Settle(c, answer, newer));
    OutcomeStays(s1, after, c);
    RepliesGrow(s1, after, c);
  }

  lemma {:induction false} RepliesGrow(s: State, es: seq<Event>, c: nat)
    requires Inv(s) && c < |s.calls|
    ensures s.replies <= Run(s, es).replies
    ensures s.calls[c].outcome == Failed ==> forall r :: r in Run(s, es).replies && r.call == c ==> r in s.replies
    decreases |es|
  {
    if es != [] {
      var s1 := Step(s, es[0]);
      StepInv(s, es[0]);
      RepliesGrow(s1, es[1..], c);
    }
  }

  // ---------- the class ----------

  class CachingCsdsResolver {
    const maxAge: nat
    var cache: map<string, nat>
    ghost var now: nat
    ghost var calls: seq<Call>
    ghost var replies: seq<Reply>
    var times: seq<nat>   // by call: when it was made

    ghost function View(): State
      reads this
    {
      State(maxAge, now, cache, calls, replies)
    }

    ghost predicate Timed()
      reads this
    {
      |times| == |calls| && forall i :: 0 <= i < |calls| ==> times[i] == calls[i].at
    }

    ghost predicate Valid()
      reads this
    {
      Inv(View()) && Timed()
    }

    constructor (maxAge: nat)
      ensures Valid() && View() == Init(maxAge)
    {
      this.maxAge := maxAge;
      cache, now, calls, replies, times := map[], 0, [], [], [];
    }

    /** The memoised function: a fresh entry, or a new call that becomes the entry. */
    method Memoised(o: Options, clock: nat) returns (call: nat, made: bool)
      requires Timed() && clock == now
      modifies this
      ensures Timed() && View() == DoResolve(old(View()), o)
      ensures call == replies[|replies| - 1].call && made == (|calls| > |old(calls)|)
    {
      var key := CacheKey(o);
      if key in cache && cache[key] < |times| && clock < times[cache[key]] + maxAge {
        call, made := cache[key], false;
      } else {
        call, made := |times|, true;
        times := times + [clock];
        calls := calls + [Call(o, clock, Pending)];
        cache := cache[key := call];
      }
      replies := replies + [Reply(o, clock, call)];
    }

    /** Returns the number of the uncached call whose promise is returned, and whether that call was just made. */
    method Resolve(o: Options, clock: nat) returns (call: nat, made: bool)
      requires Valid() && clock == now
      modifies this
      ensures Valid() && View() == Step(old(View()), Event.Resolve(o))
      ensures call == replies[|replies| - 1].call && made == (|calls| > |old(calls)|)
    {
      ResolveInv(View(), o);
      call, made := Memoised(o, clock);
    }

    /** The rejection handler of an uncached call drops its entry, and perhaps a newer one. */
    method Settled(c: nat, key: string, answer: Option<Body>, newer: bool)
      requires Valid() && Enabled(View(), Settle(c, answer, newer)) && key == CacheKey(calls[c].options)
      modifies this
      ensures Valid() && View() == Step(old(View()), Settle(c, answer, newer))
    {
      SettleInv(View(), c, answer, newer);
      if answer == None && key in cache && (newer || cache[key] == c) {
        cache := cache - {key};
      }
      calls := calls[c := calls[c].(outcome := if answer.Some? then Answered(answer.value) else Failed)];
    }
  }
}
