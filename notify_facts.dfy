/**
 * What one run of the periodic check promises, stated on the spec
 * functions that `Notifier.CheckAndNotify` is proved to follow:
 *  - the keys recorded afterwards are those recorded before plus the keys
 *    of the due intervals of subgroups with subscribers, whatever order the
 *    subgroups were visited in;
 *  - each subscriber of such an interval gets exactly one attempt for its
 *    key unless the key was already recorded, and nobody else gets one;
 *  - every key is marked at most once, never when already recorded, and
 *    after all of its attempts;
 *  - failed sends change nothing but their own outcome;
 *  - a second run over the same page and store sends and marks nothing.
 */
module NotifyFacts {
  import opened Wrappers
  import opened Sorting
  import opened Clock
  import opened Store
  import opened Notifier

  // ---------------------------------------------------------------------
  // The recorded keys
  // ---------------------------------------------------------------------

  /** The keys of the due intervals among `ivs`. */
  function DueIn(env: Env, ivs: seq<Interval>): set<string> {
    set iv | iv in ivs && Due(env, iv.start) :: KeyOf(env, iv)
  }

  /** The keys of the due intervals of those subgroups in `sgs` that have subscribers. */
  function DueKeys(env: Env, users: map<int, User>, ivs: seq<Interval>, sgs: set<string>): set<string> {
    set iv | iv in ivs && iv.sg in sgs && SubscriberSet(users, iv.sg) != {} && Due(env, iv.start) :: KeyOf(env, iv)
  }

  lemma {:induction false} OfSubgroupMembers(ivs: seq<Interval>, sg: string)
    ensures forall iv :: iv in OfSubgroup(ivs, sg) <==> iv in ivs && iv.sg == sg
    decreases |ivs|
  {
    if ivs != [] {
      var init := ivs[..|ivs| - 1];
      OfSubgroupMembers(init, sg);
      assert ivs == init + [ivs[|ivs| - 1]];
    }
  }

  /** Subscribers come back empty exactly when nobody is subscribed. */
  lemma SubscribersEmpty(users: map<int, User>, sg: string)
    ensures Subscribers(users, sg) == [] <==> SubscriberSet(users, sg) == {}
  {
    ElemsEmpty(Subscribers(users, sg));
  }

  lemma ElemsSnoc<T>(s: seq<T>)
    requires s != []
    ensures Elems(s) == Elems(s[..|s| - 1]) + {s[|s| - 1]}
  {
    assert s == s[..|s| - 1] + [s[|s| - 1]];
  }

  lemma DueInSnoc(env: Env, ivs: seq<Interval>)
    requires ivs != []
    ensures DueIn(env, ivs) == DueIn(env, ivs[..|ivs| - 1]) +
      (if Due(env, ivs[|ivs| - 1].start) then {KeyOf(env, ivs[|ivs| - 1])} else {})
  {
    assert ivs == ivs[..|ivs| - 1] + [ivs[|ivs| - 1]];
  }

  lemma DueKeysUnion(env: Env, users: map<int, User>, ivs: seq<Interval>, a: set<string>, b: set<string>)
    ensures DueKeys(env, users, ivs, a + b) == DueKeys(env, users, ivs, a) + DueKeys(env, users, ivs, b)
  {
  }

  lemma {:induction false} RunIntervalsSeen(env: Env, ids: seq<int>, ivs: seq<Interval>, p: Progress)
    ensures RunIntervals(env, ids, ivs, p).seen == p.seen + DueIn(env, ivs)
    decreases |ivs|
  {
    if ivs != [] {
      var init, last := ivs[..|ivs| - 1], ivs[|ivs| - 1];
      RunIntervalsSeen(env, ids, init, p);
      DueInSnoc(env, ivs);
    }
  }

  lemma StepSubgroupSeen(env: Env, users: map<int, User>, ivs: seq<Interval>, sg: string, p: Progress)
    ensures StepSubgroup(env, users, ivs, sg, p).seen == p.seen + DueKeys(env, users, ivs, {sg})
  {
    SubscribersEmpty(users, sg);
    if Subscribers(users, sg) != [] {
      var mine := OfSubgroup(ivs, sg);
      RunIntervalsSeen(env, Subscribers(users, sg), mine, p);
      OfSubgroupMembers(ivs, sg);
      assert DueIn(env, mine) == DueKeys(env, users, ivs, {sg});
    } else {
      assert DueKeys(env, users, ivs, {sg}) == {};
    }
  }

  lemma {:induction false} RunSubgroupsSeen(env: Env, users: map<int, User>, ivs: seq<Interval>, order: seq<string>, p: Progress)
    ensures RunSubgroups(env, users, ivs, order, p).seen == p.seen + DueKeys(env, users, ivs, Elems(order))
    decreases |order|
  {
    if order != [] {
      var init, last := order[..|order| - 1], order[|order| - 1];
      RunSubgroupsSeen(env, users, ivs, init, p);
      StepSubgroupSeen(env, users, ivs, last, RunSubgroups(env, users, ivs, init, p));
      ElemsSnoc(order);
      DueKeysUnion(env, users, ivs, Elems(init), {last});
    }
  }

  /** The keys `check_and_notify` leaves recorded, whatever order it visits the subgroups in. */
  lemma RecordedKeys(env: Env, users: map<int, User>, ivs: seq<Interval>, order: seq<string>, seen0: set<string>)
    requires Elems(order) == SubgroupsOf(ivs)
    ensures RunSubgroups(env, users, ivs, order, Progress([], seen0)).seen ==
      seen0 + set iv | iv in ivs && SubscriberSet(users, iv.sg) != {} && Due(env, iv.start) :: KeyOf(env, iv)
  {
    RunSubgroupsSeen(env, users, ivs, order, Progress([], seen0));
    assert forall iv | iv in ivs :: iv.sg in SubgroupsOf(ivs);
  }

  // ---------------------------------------------------------------------
  // Marks and attempts
  // ---------------------------------------------------------------------

  /** The keys marked, in order. */
  function MarkKeys(es: seq<Event>): seq<string> {
    if es == [] then []
    else MarkKeys(es[..|es| - 1]) + (if es[|es| - 1].Mark? then [es[|es| - 1].key] else [])
  }

  /** The (chat id, key) of every send attempt, in order. */
  function Attempts(es: seq<Event>): seq<(int, string)> {
    if es == [] then []
    else Attempts(es[..|es| - 1]) + (if es[|es| - 1].Send? then [(es[|es| - 1].chat, es[|es| - 1].key)] else [])
  }

  lemma {:induction false} MarkKeysAppend(a: seq<Event>, b: seq<Event>)
    ensures MarkKeys(a + b) == MarkKeys(a) + MarkKeys(b)
    decreases |b|
  {
    if b != [] {
      var init := b[..|b| - 1];
      MarkKeysAppend(a, init);
      assert (a + b)[..|a + b| - 1] == a + init;
      assert (a + b)[|a + b| - 1] == b[|b| - 1];
    } else {
      assert a + b == a;
    }
  }

  lemma {:induction false} AttemptsAppend(a: seq<Event>, b: seq<Event>)
    ensures Attempts(a + b) == Attempts(a) + Attempts(b)
    decreases |b|
  {
    if b != [] {
      var init := b[..|b| - 1];
      AttemptsAppend(a, init);
      assert (a + b)[..|a + b| - 1] == a + init;
      assert (a + b)[|a + b| - 1] == b[|b| - 1];
    } else {
      assert a + b == a;
    }
  }

  /** The attempts of one fan-out. */
  function Pairs(ids: seq<int>, key: string): (r: seq<(int, string)>)
    ensures |r| == |ids| && forall k | 0 <= k < |ids| :: r[k] == (ids[k], key)
  {
    seq(|ids|, k requires 0 <= k < |ids| => (ids[k], key))
  }

  /** One attempt per chat id, in their order, each with its own outcome. */
  lemma {:induction false} SendsAt(ids: seq<int>, key: string, f: set<(int, string)>)
    ensures |Sends(ids, key, f)| == |ids|
    ensures forall k | 0 <= k < |ids| :: Sends(ids, key, f)[k] == Send(ids[k], key, (ids[k], key) !in f)
    decreases |ids|
  {
    if ids != [] {
      SendsAt(ids[..|ids| - 1], key, f);
    }
  }

  lemma {:induction false} SendsLists(ids: seq<int>, key: string, f: set<(int, string)>)
    ensures MarkKeys(Sends(ids, key, f)) == [] && Attempts(Sends(ids, key, f)) == Pairs(ids, key)
    decreases |ids|
  {
    if ids != [] {
      var init := ids[..|ids| - 1];
      SendsLists(init, key, f);
      var s := Sends(ids, key, f);
      SendsAt(init, key, f);
      assert s[..|s| - 1] == Sends(init, key, f);
      assert Pairs(ids, key) == Pairs(init, key) + [(ids[|ids| - 1], key)];
    }
  }

  lemma FanoutLists(ids: seq<int>, key: string, f: set<(int, string)>)
    ensures MarkKeys(Fanout(ids, key, f)) == [key] && Attempts(Fanout(ids, key, f)) == Pairs(ids, key)
  {
    SendsLists(ids, key, f);
    MarkKeysAppend(Sends(ids, key, f), [Mark(key)]);
    AttemptsAppend(Sends(ids, key, f), [Mark(key)]);
    assert MarkKeys([Mark(key)]) == [key] by {
      assert [Mark(key)][..0] == [];
    }
    assert Attempts([Mark(key)]) == [] by {
      assert [Mark(key)][..0] == [];
    }
  }

  lemma {:induction false} MarkListed(es: seq<Event>, j: nat)
    requires j < |es| && es[j].Mark?
    ensures es[j].key in MarkKeys(es)
    decreases |es|
  {
    if j < |es| - 1 {
      MarkListed(es[..|es| - 1], j);
    }
  }

  lemma {:induction false} AttemptListed(es: seq<Event>, i: nat)
    requires i < |es| && es[i].Send?
    ensures (es[i].chat, es[i].key) in Attempts(es)
    decreases |es|
  {
    if i < |es| - 1 {
      AttemptListed(es[..|es| - 1], i);
    }
  }

  /** Every attempt is followed by the mark of its key, and no mark of its key comes before it. */
  predicate MarkedAfter(es: seq<Event>) {
    (forall i | 0 <= i < |es| && es[i].Send? :: exists j :: i < j < |es| && es[j] == Mark(es[i].key)) &&
    (forall i, j | 0 <= i < |es| && 0 <= j < |es| && es[i].Send? && es[j] == Mark(es[i].key) :: i < j)
  }

  /**
   * The log of a run that started from the recorded keys `seen0`: keys are
   * marked at most once and never when already recorded, the recorded keys
   * are those plus the marked ones, no (chat, key) is attempted twice, every
   * attempt is for a key marked in this run, and marks follow attempts.
   */
  predicate Log(seen0: set<string>, p: Progress) {
    NoDup(MarkKeys(p.events)) && Elems(MarkKeys(p.events)) !! seen0 &&
    p.seen == seen0 + Elems(MarkKeys(p.events)) &&
    NoDup(Attempts(p.events)) &&
    (forall a | a in Attempts(p.events) :: a.1 in MarkKeys(p.events)) &&
    MarkedAfter(p.events)
  }

  lemma MarkedAfterFanout(e: seq<Event>, ids: seq<int>, key: string, f: set<(int, string)>)
    requires MarkedAfter(e)
    requires forall i | 0 <= i < |e| && e[i].Send? :: e[i].key != key
    requires forall j | 0 <= j < |e| :: e[j] != Mark(key)
    ensures MarkedAfter(e + Fanout(ids, key, f))
  {
    SendsAt(ids, key, f);
    var es := e + Fanout(ids, key, f);
    var m := |es| - 1;
    assert es[m] == Mark(key);
    forall i | 0 <= i < |es| && es[i].Send?
      ensures exists j :: i < j < |es| && es[j] == Mark(es[i].key)
    {
      if i < |e| {
        var j :| i < j < |e| && e[j] == Mark(e[i].key);
        assert es[j] == e[j];
      } else {
        assert es[i] == Sends(ids, key, f)[i - |e|];
      }
    }
    forall i, j | 0 <= i < |es| && 0 <= j < |es| && es[i].Send? && es[j] == Mark(es[i].key)
      ensures i < j
    {
      if i < |e| {
        if j >= |e| {
          assert j == m;
        }
      } else {
        assert es[i] == Sends(ids, key, f)[i - |e|];
        assert j >= |e| ==> es[j] == Fanout(ids, key, f)[j - |e|];
        assert j == m;
      }
    }
  }

  lemma NoDupAsc(ids: seq<int>)
    requires Ascending(ids)
    ensures NoDup(ids)
  {
  }

  lemma NoDupAppend<T>(a: seq<T>, b: seq<T>)
    requires NoDup(a) && NoDup(b) && Elems(a) !! Elems(b)
    ensures NoDup(a + b)
  {
    forall i, j | 0 <= i < j < |a + b| ensures (a + b)[i] != (a + b)[j] {
      if i < |a| && j >= |a| {
        assert (a + b)[i] in Elems(a) && (a + b)[j] == b[j - |a|] && b[j - |a|] in Elems(b);
      }
    }
  }

  lemma MarksFanout(seen0: set<string>, e: seq<Event>, seen: set<string>, ids: seq<int>, key: string, f: set<(int, string)>)
    requires NoDup(MarkKeys(e)) && Elems(MarkKeys(e)) !! seen0 && seen == seen0 + Elems(MarkKeys(e)) && key !in seen
    ensures MarkKeys(e + Fanout(ids, key, f)) == MarkKeys(e) + [key]
    ensures NoDup(MarkKeys(e + Fanout(ids, key, f))) && Elems(MarkKeys(e + Fanout(ids, key, f))) !! seen0
    ensures seen + {key} == seen0 + Elems(MarkKeys(e + Fanout(ids, key, f)))
  {
    FanoutLists(ids, key, f);
    MarkKeysAppend(e, Fanout(ids, key, f));
    var ms := MarkKeys(e) + [key];
    NoDupAppend(MarkKeys(e), [key]);
    ElemsSnoc(ms);
    assert ms[..|ms| - 1] == MarkKeys(e);
  }

  lemma AttemptsFanout(e: seq<Event>, ids: seq<int>, key: string, f: set<(int, string)>)
    requires NoDup(Attempts(e)) && (forall a | a in Attempts(e) :: a.1 in MarkKeys(e))
    requires key !in MarkKeys(e) && NoDup(ids)
    ensures NoDup(Attempts(e + Fanout(ids, key, f)))
    ensures forall a | a in Attempts(e + Fanout(ids, key, f)) :: a.1 in MarkKeys(e) + [key]
  {
    FanoutLists(ids, key, f);
    AttemptsAppend(e, Fanout(ids, key, f));
    var ps := Pairs(ids, key);
    assert NoDup(ps);
    forall a | a in Elems(Attempts(e)) ensures a !in Elems(ps) {
      assert a.1 in MarkKeys(e);
    }
    NoDupAppend(Attempts(e), ps);
  }

  /** One fan-out for a key not yet recorded keeps the log. */
  lemma LogFanout(seen0: set<string>, e: seq<Event>, seen: set<string>, ids: seq<int>, key: string, f: set<(int, string)>)
    requires Log(seen0, Progress(e, seen)) && key !in seen && NoDup(ids)
    ensures Log(seen0, Progress(e + Fanout(ids, key, f), seen + {key}))
  {
    MarksFanout(seen0, e, seen, ids, key, f);
    AttemptsFanout(e, ids, key, f);
    forall i | 0 <= i < |e| && e[i].Send? ensures e[i].key != key {
      AttemptListed(e, i);
    }
    forall j | 0 <= j < |e| ensures e[j] != Mark(key) {
      if e[j].Mark? {
        MarkListed(e, j);
      }
    }
    MarkedAfterFanout(e, ids, key, f);
  }

  lemma {:induction false} RunIntervalsLog(seen0: set<string>, env: Env, ids: seq<int>, ivs: seq<Interval>, p: Progress)
    requires Log(seen0, p) && NoDup(ids)
    ensures Log(seen0, RunIntervals(env, ids, ivs, p))
    decreases |ivs|
  {
    if ivs != [] {
      var init, last := ivs[..|ivs| - 1], ivs[|ivs| - 1];
      RunIntervalsLog(seen0, env, ids, init, p);
      var q := RunIntervals(env, ids, init, p);
      var key := KeyOf(env, last);
      if Due(env, last.start) && key !in q.seen {
        LogFanout(seen0, q.events, q.seen, ids, key, env.failures);
      }
    }
  }

  lemma {:induction false} RunSubgroupsLog(seen0: set<string>, env: Env, users: map<int, User>, ivs: seq<Interval>, order: seq<string>, p: Progress)
    requires Log(seen0, p)
    ensures Log(seen0, RunSubgroups(env, users, ivs, order, p))
    decreases |order|
  {
    if order != [] {
      var init, last := order[..|order| - 1], order[|order| - 1];
      RunSubgroupsLog(seen0, env, users, ivs, init, p);
      var ids := Subscribers(users, last);
      if ids != [] {
        NoDupAsc(ids);
        RunIntervalsLog(seen0, env, ids, OfSubgroup(ivs, last), RunSubgroups(env, users, ivs, init, p));
      }
    }
  }

  /**
   * Whatever the order of the subgroups: every key is marked at most once
   * and never when it was recorded before the run, the marked keys are
   * exactly the newly recorded ones, no chat is tried twice for a key, and
   * every attempt precedes the mark of its key.
   */
  lemma MarkedOnce(env: Env, users: map<int, User>, ivs: seq<Interval>, order: seq<string>, seen0: set<string>)
    ensures Log(seen0, RunSubgroups(env, users, ivs, order, Progress([], seen0)))
  {
    RunSubgroupsLog(seen0, env, users, ivs, order, Progress([], seen0));
  }

  // ---------------------------------------------------------------------
  // Who is tried
  // ---------------------------------------------------------------------

  function Cross(chats: set<int>, keys: set<string>): set<(int, string)> {
    set c, k | c in chats && k in keys :: (c, k)
  }

  /** The keys of the due intervals among `ivs` that are not in `s`. */
  function FreshDue(env: Env, ivs: seq<Interval>, s: set<string>): set<string> {
    set iv | iv in ivs && Due(env, iv.start) && KeyOf(env, iv) !in s :: KeyOf(env, iv)
  }

  /** Each subscriber of a due interval of the subgroups `sgs`, with its key, unless the key is in `seen0`. */
  function Wanted(env: Env, users: map<int, User>, ivs: seq<Interval>, sgs: set<string>, seen0: set<string>): set<(int, string)> {
    set iv, c | iv in ivs && iv.sg in sgs && Due(env, iv.start) && KeyOf(env, iv) !in seen0 &&
      c in SubscriberSet(users, iv.sg) :: (c, KeyOf(env, iv))
  }

  lemma FreshDueSnoc(env: Env, ivs: seq<Interval>, s: set<string>)
    requires ivs != []
    ensures FreshDue(env, ivs, s) == FreshDue(env, ivs[..|ivs| - 1], s) +
      (if Due(env, ivs[|ivs| - 1].start) && KeyOf(env, ivs[|ivs| - 1]) !in s then {KeyOf(env, ivs[|ivs| - 1])} else {})
  {
    assert ivs == ivs[..|ivs| - 1] + [ivs[|ivs| - 1]];
  }

  lemma PairsCross(ids: seq<int>, key: string)
    ensures Elems(Pairs(ids, key)) == Cross(Elems(ids), {key})
  {
    forall a | a in Elems(Pairs(ids, key)) ensures a in Cross(Elems(ids), {key}) {
      var k :| 0 <= k < |ids| && Pairs(ids, key)[k] == a;
      var c := ids[k];
      assert c in Elems(ids);
      assert a == (c, key);
      assert (c, key) in Cross(Elems(ids), {key});
    }
    forall a | a in Cross(Elems(ids), {key}) ensures a in Elems(Pairs(ids, key)) {
      var k :| 0 <= k < |ids| && ids[k] == a.0;
      assert Pairs(ids, key)[k] == a;
    }
  }

  lemma CrossUnion(chats: set<int>, a: set<string>, b: set<string>)
    ensures Cross(chats, a + b) == Cross(chats, a) + Cross(chats, b)
  {
  }

  lemma ElemsAppend<T>(a: seq<T>, b: seq<T>)
    ensures Elems(a + b) == Elems(a) + Elems(b)
  {
    assert forall x | x in a + b :: x in a || x in b;
  }

  /** A fan-out adds one attempt per subscriber, for its key. */
  lemma AttemptsFanoutSet(e: seq<Event>, ids: seq<int>, key: string, f: set<(int, string)>)
    ensures Elems(Attempts(e + Fanout(ids, key, f))) == Elems(Attempts(e)) + Cross(Elems(ids), {key})
  {
    FanoutLists(ids, key, f);
    AttemptsAppend(e, Fanout(ids, key, f));
    ElemsAppend(Attempts(e), Pairs(ids, key));
    PairsCross(ids, key);
  }

  /** One more interval adds its key to the fresh ones exactly when the run fans it out. */
  lemma FreshDueStep(env: Env, ivs: seq<Interval>, s: set<string>, seen: set<string>)
    requires ivs != [] && seen == s + DueIn(env, ivs[..|ivs| - 1])
    ensures FreshDue(env, ivs, s) == FreshDue(env, ivs[..|ivs| - 1], s) +
      (if Due(env, ivs[|ivs| - 1].start) && KeyOf(env, ivs[|ivs| - 1]) !in seen then {KeyOf(env, ivs[|ivs| - 1])} else {})
  {
    var init, last := ivs[..|ivs| - 1], ivs[|ivs| - 1];
    FreshDueSnoc(env, ivs, s);
    var key := KeyOf(env, last);
    if Due(env, last.start) && key in seen && key !in s {
      var iv :| iv in init && Due(env, iv.start) && KeyOf(env, iv) == key;
      assert key in FreshDue(env, init, s);
    }
  }

  lemma {:induction false} RunIntervalsAttempts(env: Env, ids: seq<int>, ivs: seq<Interval>, p: Progress)
    ensures Elems(Attempts(RunIntervals(env, ids, ivs, p).events)) ==
      Elems(Attempts(p.events)) + Cross(Elems(ids), FreshDue(env, ivs, p.seen))
    decreases |ivs|
  {
    if ivs != [] {
      var init, last := ivs[..|ivs| - 1], ivs[|ivs| - 1];
      RunIntervalsAttempts(env, ids, init, p);
      RunIntervalsSeen(env, ids, init, p);
      var q := RunIntervals(env, ids, init, p);
      FreshDueStep(env, ivs, p.seen, q.seen);
      var key := KeyOf(env, last);
      if Due(env, last.start) && key !in q.seen {
        AttemptsFanoutSet(q.events, ids, key, env.failures);
        CrossUnion(Elems(ids), FreshDue(env, init, p.seen), {key});
      }
    }
  }

  /** A subgroup not yet visited has none of its keys recorded by the visited ones. */
  lemma OthersKeys(env: Env, users: map<int, User>, ivs: seq<Interval>, sgs: set<string>, iv: Interval)
    requires iv.sg !in sgs
    ensures KeyOf(env, iv) !in DueKeys(env, users, ivs, sgs)
  {
    if KeyOf(env, iv) in DueKeys(env, users, ivs, sgs) {
      var other :| other in ivs && other.sg in sgs && SubscriberSet(users, other.sg) != {} &&
        Due(env, other.start) && KeyOf(env, other) == KeyOf(env, iv);
      KeyInjective(env.date, iv.sg, iv.start, other.sg, other.start);
    }
  }

  lemma StepSubgroupAttempts(env: Env, users: map<int, User>, ivs: seq<Interval>, sg: string, sgs: set<string>,
                             seen0: set<string>, q: Progress)
    requires sg !in sgs && q.seen == seen0 + DueKeys(env, users, ivs, sgs)
    ensures Elems(Attempts(StepSubgroup(env, users, ivs, sg, q).events)) ==
      Elems(Attempts(q.events)) + Wanted(env, users, ivs, {sg}, seen0)
  {
    var ids := Subscribers(users, sg);
    SubscribersEmpty(users, sg);
    if ids == [] {
      assert Wanted(env, users, ivs, {sg}, seen0) == {};
    } else {
      var mine := OfSubgroup(ivs, sg);
      RunIntervalsAttempts(env, ids, mine, q);
      OfSubgroupMembers(ivs, sg);
      forall iv | iv in mine ensures KeyOf(env, iv) !in q.seen <==> KeyOf(env, iv) !in seen0 {
        OthersKeys(env, users, ivs, sgs, iv);
      }
      assert FreshDue(env, mine, q.seen) == FreshDue(env, mine, seen0);
      WantedOne(env, users, ivs, sg, seen0);
    }
  }

  lemma WantedOne(env: Env, users: map<int, User>, ivs: seq<Interval>, sg: string, seen0: set<string>)
    requires forall iv :: iv in OfSubgroup(ivs, sg) <==> iv in ivs && iv.sg == sg
    ensures Wanted(env, users, ivs, {sg}, seen0) == Cross(SubscriberSet(users, sg), FreshDue(env, OfSubgroup(ivs, sg), seen0))
  {
    var mine := OfSubgroup(ivs, sg);
    forall a | a in Cross(SubscriberSet(users, sg), FreshDue(env, mine, seen0))
      ensures a in Wanted(env, users, ivs, {sg}, seen0)
    {
      var iv :| iv in mine && Due(env, iv.start) && KeyOf(env, iv) !in seen0 && KeyOf(env, iv) == a.1;
      assert a == (a.0, KeyOf(env, iv));
    }
  }

  lemma WantedUnion(env: Env, users: map<int, User>, ivs: seq<Interval>, a: set<string>, b: set<string>, seen0: set<string>)
    ensures Wanted(env, users, ivs, a + b, seen0) == Wanted(env, users, ivs, a, seen0) + Wanted(env, users, ivs, b, seen0)
  {
  }

  lemma {:induction false} RunSubgroupsAttempts(env: Env, users: map<int, User>, ivs: seq<Interval>, order: seq<string>, seen0: set<string>)
    requires NoDup(order)
    ensures Elems(Attempts(RunSubgroups(env, users, ivs, order, Progress([], seen0)).events)) ==
      Wanted(env, users, ivs, Elems(order), seen0)
    decreases |order|
  {
    if order == [] {
      assert Wanted(env, users, ivs, {}, seen0) == {};
    } else {
      var init, last := order[..|order| - 1], order[|order| - 1];
      assert NoDup(init);
      ElemsSnoc(order);
      assert last !in Elems(init);
      RunSubgroupsAttempts(env, users, ivs, init, seen0);
      RunSubgroupsSeen(env, users, ivs, init, Progress([], seen0));
      StepSubgroupAttempts(env, users, ivs, last, Elems(init), seen0, RunSubgroups(env, users, ivs, init, Progress([], seen0)));
      WantedUnion(env, users, ivs, Elems(init), {last}, seen0);
    }
  }

  /**
   * Whatever the order of the subgroups, the attempts of a run are exactly:
   * every verified subscriber of every due interval's subgroup, for that
   * interval's key, when the key was not recorded before the run.
   */
  lemma Attempted(env: Env, users: map<int, User>, ivs: seq<Interval>, order: seq<string>, seen0: set<string>)
    requires NoDup(order) && Elems(order) == SubgroupsOf(ivs)
    ensures Elems(Attempts(RunSubgroups(env, users, ivs, order, Progress([], seen0)).events)) ==
      set iv, c | iv in ivs && Due(env, iv.start) && KeyOf(env, iv) !in seen0 && c in SubscriberSet(users, iv.sg) ::
        (c, KeyOf(env, iv))
  {
    RunSubgroupsAttempts(env, users, ivs, order, seen0);
    assert forall iv | iv in ivs :: iv.sg in SubgroupsOf(ivs);
  }

  // ---------------------------------------------------------------------
  // Failed deliveries change nothing else
  // ---------------------------------------------------------------------

  /** The log with every outcome forgotten. */
  function Erase(es: seq<Event>): seq<Event> {
    if es == [] then []
    else Erase(es[..|es| - 1]) + [match es[|es| - 1] case Send(c, k, _) => Send(c, k, true) case Mark(k) => Mark(k)]
  }

  /** The same run where every send succeeds. */
  function Quiet(env: Env): Env {
    env.(failures := {})
  }

  lemma {:induction false} EraseAppend(a: seq<Event>, b: seq<Event>)
    ensures Erase(a + b) == Erase(a) + Erase(b)
    decreases |b|
  {
    if b != [] {
      var init := b[..|b| - 1];
      EraseAppend(a, init);
      assert (a + b)[..|a + b| - 1] == a + init;
      assert (a + b)[|a + b| - 1] == b[|b| - 1];
    } else {
      assert a + b == a;
    }
  }

  lemma {:induction false} EraseSends(ids: seq<int>, key: string, f: set<(int, string)>)
    ensures Erase(Sends(ids, key, f)) == Sends(ids, key, {})
    decreases |ids|
  {
    if ids != [] {
      var init := ids[..|ids| - 1];
      EraseSends(init, key, f);
      var last := Send(ids[|ids| - 1], key, (ids[|ids| - 1], key) !in f);
      EraseAppend(Sends(init, key, f), [last]);
      assert [last][..0] == [];
    }
  }

  lemma EraseFanout(e: seq<Event>, e': seq<Event>, ids: seq<int>, key: string, f: set<(int, string)>)
    requires Erase(e) == e'
    ensures Erase(e + Fanout(ids, key, f)) == e' + Fanout(ids, key, {})
  {
    EraseSends(ids, key, f);
    EraseAppend(e, Fanout(ids, key, f));
    EraseAppend(Sends(ids, key, f), [Mark(key)]);
    assert [Mark(key)][..0] == [];
  }

  lemma {:induction false} RunIntervalsErase(env: Env, ids: seq<int>, ivs: seq<Interval>, p: Progress, p': Progress)
    requires Erase(p.events) == p'.events && p.seen == p'.seen
    ensures Erase(RunIntervals(env, ids, ivs, p).events) == RunIntervals(Quiet(env), ids, ivs, p').events
    ensures RunIntervals(env, ids, ivs, p).seen == RunIntervals(Quiet(env), ids, ivs, p').seen
    decreases |ivs|
  {
    if ivs != [] {
      var init, last := ivs[..|ivs| - 1], ivs[|ivs| - 1];
      RunIntervalsErase(env, ids, init, p, p');
      var q := RunIntervals(env, ids, init, p);
      var key := KeyOf(env, last);
      if Due(env, last.start) && key !in q.seen {
        EraseFanout(q.events, RunIntervals(Quiet(env), ids, init, p').events, ids, key, env.failures);
      }
    }
  }

  lemma {:induction false} RunSubgroupsErase(env: Env, users: map<int, User>, ivs: seq<Interval>, order: seq<string>, p: Progress, p': Progress)
    requires Erase(p.events) == p'.events && p.seen == p'.seen
    ensures Erase(RunSubgroups(env, users, ivs, order, p).events) == RunSubgroups(Quiet(env), users, ivs, order, p').events
    ensures RunSubgroups(env, users, ivs, order, p).seen == RunSubgroups(Quiet(env), users, ivs, order, p').seen
    decreases |order|
  {
    if order != [] {
      var init, last := order[..|order| - 1], order[|order| - 1];
      RunSubgroupsErase(env, users, ivs, init, p, p');
      if Subscribers(users, last) != [] {
        RunIntervalsErase(env, Subscribers(users, last), OfSubgroup(ivs, last),
          RunSubgroups(env, users, ivs, init, p), RunSubgroups(Quiet(env), users, ivs, init, p'));
      }
    }
  }

  lemma {:induction false} EraseLists(es: seq<Event>)
    ensures Attempts(Erase(es)) == Attempts(es) && MarkKeys(Erase(es)) == MarkKeys(es)
    decreases |es|
  {
    if es != [] {
      var init := es[..|es| - 1];
      EraseLists(init);
      var x := es[|es| - 1];
      var y := match x case Send(c, k, _) => Send(c, k, true) case Mark(k) => Mark(k);
      assert Erase(es) == Erase(init) + [y];
      assert Erase(es)[..|Erase(es)| - 1] == Erase(init);
    }
  }

  /**
   * Each send is isolated: whichever deliveries fail, the same chats are
   * tried for the same keys in the same order, and the same keys are marked
   * and recorded, as in the run where every send succeeds.
   */
  lemma Isolated(env: Env, users: map<int, User>, ivs: seq<Interval>, order: seq<string>, seen0: set<string>)
    ensures Attempts(RunSubgroups(env, users, ivs, order, Progress([], seen0)).events) ==
      Attempts(RunSubgroups(Quiet(env), users, ivs, order, Progress([], seen0)).events)
    ensures MarkKeys(RunSubgroups(env, users, ivs, order, Progress([], seen0)).events) ==
      MarkKeys(RunSubgroups(Quiet(env), users, ivs, order, Progress([], seen0)).events)
    ensures RunSubgroups(env, users, ivs, order, Progress([], seen0)).seen ==
      RunSubgroups(Quiet(env), users, ivs, order, Progress([], seen0)).seen
  {
    RunSubgroupsErase(env, users, ivs, order, Progress([], seen0), Progress([], seen0));
    EraseLists(RunSubgroups(env, users, ivs, order, Progress([], seen0)).events);
  }

  // ---------------------------------------------------------------------
  // Dedup across triples and across runs
  // ---------------------------------------------------------------------

  /** A triple repeated later on the page does nothing: its key is already recorded. */
  lemma RepeatIdle(env: Env, ids: seq<int>, ivs: seq<Interval>, iv: Interval, p: Progress)
    requires iv in ivs
    ensures StepInterval(env, ids, iv, RunIntervals(env, ids, ivs, p)) == RunIntervals(env, ids, ivs, p)
  {
    RunIntervalsSeen(env, ids, ivs, p);
  }

  lemma {:induction false} RunIntervalsIdle(env: Env, ids: seq<int>, ivs: seq<Interval>, p: Progress)
    requires DueIn(env, ivs) <= p.seen
    ensures RunIntervals(env, ids, ivs, p) == p
    decreases |ivs|
  {
    if ivs != [] {
      DueInSnoc(env, ivs);
      RunIntervalsIdle(env, ids, ivs[..|ivs| - 1], p);
    }
  }

  lemma {:induction false} RunSubgroupsIdle(env: Env, users: map<int, User>, ivs: seq<Interval>, order: seq<string>, p: Progress)
    requires DueKeys(env, users, ivs, Elems(order)) <= p.seen
    ensures RunSubgroups(env, users, ivs, order, p) == p
    decreases |order|
  {
    if order != [] {
      var init, last := order[..|order| - 1], order[|order| - 1];
      ElemsSnoc(order);
      DueKeysUnion(env, users, ivs, Elems(init), {last});
      RunSubgroupsIdle(env, users, ivs, init, p);
      var ids := Subscribers(users, last);
      if ids != [] {
        SubscribersEmpty(users, last);
        OfSubgroupMembers(ivs, last);
        assert DueIn(env, OfSubgroup(ivs, last)) <= DueKeys(env, users, ivs, {last});
        RunIntervalsIdle(env, ids, OfSubgroup(ivs, last), p);
      }
    }
  }

  /**
   * Checking the same page again with the same store and clock, in any
   * order, sends nothing and marks nothing.
   */
  lemma SecondRunQuiet(env: Env, users: map<int, User>, ivs: seq<Interval>, order1: seq<string>, order2: seq<string>, seen0: set<string>)
    requires Elems(order1) == SubgroupsOf(ivs) && Elems(order2) == SubgroupsOf(ivs)
    ensures var first := RunSubgroups(env, users, ivs, order1, Progress([], seen0));
      RunSubgroups(env, users, ivs, order2, Progress([], first.seen)) == Progress([], first.seen)
  {
    RunSubgroupsSeen(env, users, ivs, order1, Progress([], seen0));
    RunSubgroupsIdle(env, users, ivs, order2, Progress([], RunSubgroups(env, users, ivs, order1, Progress([], seen0)).seen));
  }

  /** A subgroup without verified subscribers gets no attempt and its keys stay as they were. */
  lemma NoSubscribersSkipped(env: Env, users: map<int, User>, ivs: seq<Interval>, order: seq<string>, seen0: set<string>, iv: Interval)
    requires NoDup(order) && Elems(order) == SubgroupsOf(ivs)
    requires iv in ivs && SubscriberSet(users, iv.sg) == {}
    ensures var r := RunSubgroups(env, users, ivs, order, Progress([], seen0));
      (KeyOf(env, iv) in r.seen <==> KeyOf(env, iv) in seen0) &&
      forall a | a in Attempts(r.events) :: a.1 != KeyOf(env, iv)
  {
    var r := RunSubgroups(env, users, ivs, order, Progress([], seen0));
    RecordedKeys(env, users, ivs, order, seen0);
    Attempted(env, users, ivs, order, seen0);
    forall other | other in ivs && SubscriberSet(users, other.sg) != {}
      ensures KeyOf(env, other) != KeyOf(env, iv)
    {
      if KeyOf(env, other) == KeyOf(env, iv) {
        KeyInjective(env.date, other.sg, other.start, iv.sg, iv.start);
      }
    }
    forall a | a in Attempts(r.events) ensures a.1 != KeyOf(env, iv) {
      assert a in Elems(Attempts(r.events));
    }
  }
}
