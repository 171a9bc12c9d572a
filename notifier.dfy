/**
 * The periodic check `check_and_notify` (bot.py:463-521): read the page's
 * triples as clock times, then for every subgroup on the page with
 * verified subscribers, warn each subscriber about every interval that
 * starts within the next N minutes and has not been announced before, and
 * record its key so that it is announced once.
 *
 * The page text, the current time and the outcome of each Telegram send
 * are inputs. The current time is the number of microseconds since
 * midnight of `date` (datetime.now keeps microseconds, so an interval
 * starting at 07:00 is already past at 07:00:00.5). Python iterates a
 * `set` of subgroups in an order the program does not control, so the
 * method picks each next subgroup arbitrarily and reports the order it
 * took; the lemmas show that what is recorded and who is warned do not
 * depend on that order.
 */
module Notifier {
  import opened Wrappers
  import opened Sorting
  import opened Text
  import opened Clock
  import opened Intervals
  import opened Store

  /** NOTIFY_MINUTES_BEFORE when the environment does not set it (bot.py:46). */
  const NotifyMinutesBefore: int := 30
  /** An end time that does not parse becomes start + 2 hours (bot.py:490-491). */
  const FallbackMinutes: nat := 120
  const MicrosPerMinute: int := 60_000_000

  type TimeOfDay = t: nat | t < MinutesPerDay

  /** A triple read as clock times on the check's date; `end` may pass midnight. */
  datatype Interval = Interval(sg: string, start: TimeOfDay, end: nat)

  /**
   * The periodic path's reading of one triple (bot.py:480-492): dropped when
   * the start is not a valid `%H:%M` time, the end replaced by start + 2h
   * when the end is not.
   */
  function IntervalOf(t: Triple): (r: Option<Interval>)
    ensures r.None? <==> ParseClock(t.start).None?
    ensures r.Some? ==> r.value.sg == t.sg && r.value.start == ParseClock(t.start).value
    ensures r.Some? && ParseClock(t.end).Some? ==> r.value.end == ParseClock(t.end).value
    ensures r.Some? && ParseClock(t.end).None? ==> r.value.end == r.value.start + FallbackMinutes
  {
    match ParseClock(t.start)
    case None => None
    case Some(s) =>
      var e := match ParseClock(t.end) case Some(e) => e case None => s + FallbackMinutes;
      Some(Interval(t.sg, s, e))
  }

  function AsSeq(o: Option<Interval>): seq<Interval> {
    if o.Some? then [o.value] else []
  }

  /** The `intervals` list of bot.py:475-492 for the given triples. */
  function Parsed(ts: seq<Triple>): seq<Interval> {
    if ts == [] then [] else Parsed(ts[..|ts| - 1]) + AsSeq(IntervalOf(ts[|ts| - 1]))
  }

  /** The loop of bot.py:475-492 over the page's triples. */
  method ParseIntervals(triples: seq<Triple>) returns (intervals: seq<Interval>)
    ensures intervals == Parsed(triples)
  {
    intervals := [];
    for i := 0 to |triples|
      invariant intervals == Parsed(triples[..i])
    {
      assert triples[..i + 1][..i] == triples[..i];
      var t := triples[i];
      match ParseClock(t.start)
      case None =>
      case Some(s) =>
        var e := match ParseClock(t.end) case Some(e) => e case None => s + FallbackMinutes;
        intervals := intervals + [Interval(t.sg, s, e)];
    }
    assert triples[..|triples|] == triples;
  }

  /** What the check is given: the date, the time, the lead and which sends raise. */
  datatype Env = Env(date: string, nowUs: int, lead: int, failures: set<(int, string)>)

  /** `start_dt <= threshold and start_dt >= now` (bot.py:472-473, bot.py:502). */
  predicate Due(env: Env, start: TimeOfDay) {
    env.nowUs <= start * MicrosPerMinute <= env.nowUs + env.lead * MicrosPerMinute
  }

  /** The dedup key of an interval (bot.py:501). */
  function KeyOf(env: Env, iv: Interval): string {
    Key(env.date, iv.sg, iv.start)
  }

  /** What the check does that can be seen: a send attempt and its outcome, or a `mark_notified`. */
  datatype Event = Send(chat: int, key: string, delivered: bool) | Mark(key: string)

  /** One send attempt per chat id, in order; a failed one is logged and the loop goes on (bot.py:510-518). */
  function Sends(ids: seq<int>, key: string, failures: set<(int, string)>): seq<Event> {
    if ids == [] then []
    else Sends(ids[..|ids| - 1], key, failures) + [Send(ids[|ids| - 1], key, (ids[|ids| - 1], key) !in failures)]
  }

  /** All attempts for a key, then the key is marked, whatever the outcomes (bot.py:510-519). */
  function Fanout(ids: seq<int>, key: string, failures: set<(int, string)>): seq<Event> {
    Sends(ids, key, failures) + [Mark(key)]
  }

  /** What happened so far, and the keys `was_notified` now reports. */
  datatype Progress = Progress(events: seq<Event>, seen: set<string>)

  /** One interval of a subgroup with subscribers `ids` (bot.py:500-519). */
  function StepInterval(env: Env, ids: seq<int>, iv: Interval, p: Progress): Progress {
    var key := KeyOf(env, iv);
    if Due(env, iv.start) && key !in p.seen
    then Progress(p.events + Fanout(ids, key, env.failures), p.seen + {key})
    else p
  }

  function RunIntervals(env: Env, ids: seq<int>, ivs: seq<Interval>, p: Progress): Progress {
    if ivs == [] then p
    else StepInterval(env, ids, ivs[|ivs| - 1], RunIntervals(env, ids, ivs[..|ivs| - 1], p))
  }

  /** `[it for it in intervals if it[0] == sg]` (bot.py:500). */
  function OfSubgroup(ivs: seq<Interval>, sg: string): seq<Interval> {
    if ivs == [] then []
    else OfSubgroup(ivs[..|ivs| - 1], sg) + (if ivs[|ivs| - 1].sg == sg then [ivs[|ivs| - 1]] else [])
  }

  /** One subgroup: skipped without subscribers, otherwise its intervals in page order (bot.py:495-519). */
  function StepSubgroup(env: Env, users: map<int, User>, ivs: seq<Interval>, sg: string, p: Progress): Progress {
    var ids := Subscribers(users, sg);
    if ids == [] then p else RunIntervals(env, ids, OfSubgroup(ivs, sg), p)
  }

  /** The subgroups handled in the given order. */
  function RunSubgroups(env: Env, users: map<int, User>, ivs: seq<Interval>, order: seq<string>, p: Progress): Progress {
    if order == [] then p
    else StepSubgroup(env, users, ivs, order[|order| - 1], RunSubgroups(env, users, ivs, order[..|order| - 1], p))
  }

  /** `set([i[0] for i in intervals])` (bot.py:494). */
  function SubgroupsOf(ivs: seq<Interval>): set<string> {
    set iv | iv in ivs :: iv.sg
  }

  predicate NoDup<T(==)>(s: seq<T>) {
    forall i, j | 0 <= i < j < |s| :: s[i] != s[j]
  }

  /**
   * One run of the check. A missing URL or a page that could not be fetched
   * ends it before anything is read (bot.py:465-466, bot.py:520-521);
   * `stamp` is the time `mark_notified` records.
   */
  method CheckAndNotify(db: Database, url: string, page: Option<string>, env: Env, stamp: int)
    returns (events: seq<Event>, order: seq<string>)
    requires db.Valid()
    modifies db
    ensures db.Valid()
    ensures db.users == old(db.users) && db.addrMap == old(db.addrMap) && db.lastAddrId == old(db.lastAddrId)
    ensures url == "" || page.None? ==> events == [] && order == [] && db.notified == old(db.notified)
    ensures url != "" && page.Some? ==>
      var ivs := Parsed(Extract(page.value));
      NoDup(order) && Elems(order) == SubgroupsOf(ivs) &&
      Progress(events, db.notified.Keys) == RunSubgroups(env, db.users, ivs, order, Progress([], old(db.notified.Keys)))
    ensures Stamped(old(db.notified), db.notified, stamp)
  {
    events, order := [], [];
    if url == "" || page.None? {
      return;
    }
    var triples := ExtractIntervals(page.value);
    var ivs := ParseIntervals(triples);
    events, order := NotifyAll(db, env, ivs, stamp);
  }

  /** The loop over the page's subgroups (bot.py:494-519), in an order of its own choosing. */
  method NotifyAll(db: Database, env: Env, ivs: seq<Interval>, stamp: int)
    returns (events: seq<Event>, order: seq<string>)
    requires db.Valid()
    modifies db
    ensures db.Valid()
    ensures db.users == old(db.users) && db.addrMap == old(db.addrMap) && db.lastAddrId == old(db.lastAddrId)
    ensures NoDup(order) && Elems(order) == SubgroupsOf(ivs)
    ensures Progress(events, db.notified.Keys) == RunSubgroups(env, db.users, ivs, order, Progress([], old(db.notified.Keys)))
    ensures Stamped(old(db.notified), db.notified, stamp)
  {
    events, order := [], [];
    var pending := SubgroupsOf(ivs);
    ghost var all := pending;
    ghost var seen0 := db.notified.Keys;
    while pending != {}
      invariant db.Valid()
      invariant db.users == old(db.users) && db.addrMap == old(db.addrMap) && db.lastAddrId == old(db.lastAddrId)
      invariant pending !! Elems(order) && pending + Elems(order) == all && NoDup(order)
      invariant Progress(events, db.notified.Keys) == RunSubgroups(env, db.users, ivs, order, Progress([], seen0))
      invariant Stamped(old(db.notified), db.notified, stamp)
      decreases |pending|
    {
      if forall x :: x !in pending {
        assert false;
      }
      var sg :| sg in pending;
      MoveOne(pending, Elems(order), sg);
      pending := pending - {sg};
      ghost var mid := db.notified;
      events := NotifySubgroup(db, env, ivs, sg, stamp, events);
      StampedTrans(old(db.notified), mid, db.notified, stamp);
      RunSubgroupsSnoc(env, db.users, ivs, order, sg, Progress([], seen0));
      AppendFresh(order, sg);
      order := order + [sg];
    }
  }

  lemma RunSubgroupsSnoc(env: Env, users: map<int, User>, ivs: seq<Interval>, order: seq<string>, sg: string, p: Progress)
    ensures RunSubgroups(env, users, ivs, order + [sg], p) == StepSubgroup(env, users, ivs, sg, RunSubgroups(env, users, ivs, order, p))
  {
    assert (order + [sg])[..|order|] == order;
  }

  /** Keys already marked keep their timestamp; new ones carry `stamp`. */
  predicate Stamped(before: map<string, int>, after: map<string, int>, stamp: int) {
    (forall k | k in before :: k in after && after[k] == before[k]) &&
    (forall k | k in after && k !in before :: after[k] == stamp)
  }

  lemma StampedTrans(a: map<string, int>, b: map<string, int>, c: map<string, int>, stamp: int)
    requires Stamped(a, b, stamp) && Stamped(b, c, stamp)
    ensures Stamped(a, c, stamp)
  {
  }

  lemma MoveOne<T>(pending: set<T>, done: set<T>, x: T)
    requires x in pending && pending !! done
    ensures (pending - {x}) + (done + {x}) == pending + done && (pending - {x}) !! (done + {x})
  {
  }

  lemma AppendFresh<T>(order: seq<T>, x: T)
    requires NoDup(order) && x !in Elems(order)
    ensures NoDup(order + [x]) && Elems(order + [x]) == Elems(order) + {x}
  {
    assert forall i | 0 <= i < |order| :: order[i] in Elems(order);
  }

  /** The body of the loop over subgroups (bot.py:496-519), after `events`. */
  method NotifySubgroup(db: Database, env: Env, ivs: seq<Interval>, sg: string, stamp: int, events: seq<Event>)
    returns (after: seq<Event>)
    requires db.Valid()
    modifies db
    ensures db.Valid()
    ensures db.users == old(db.users) && db.addrMap == old(db.addrMap) && db.lastAddrId == old(db.lastAddrId)
    ensures Progress(after, db.notified.Keys) == StepSubgroup(env, db.users, ivs, sg, Progress(events, old(db.notified.Keys)))
    ensures Stamped(old(db.notified), db.notified, stamp)
  {
    after := events;
    var ids := db.UsersBySubgroup(sg);
    if ids == [] {
      return;
    }
    var mine := OfSubgroup(ivs, sg);
    ghost var before := Progress(events, db.notified.Keys);
    for j := 0 to |mine|
      invariant db.Valid()
      invariant db.users == old(db.users) && db.addrMap == old(db.addrMap) && db.lastAddrId == old(db.lastAddrId)
      invariant Progress(after, db.notified.Keys) == RunIntervals(env, ids, mine[..j], before)
      invariant Stamped(old(db.notified), db.notified, stamp)
    {
      assert mine[..j + 1][..j] == mine[..j];
      ghost var mid := db.notified;
      after := NotifyInterval(db, env, ids, mine[j], stamp, after);
      StampedTrans(old(db.notified), mid, db.notified, stamp);
    }
    assert mine[..|mine|] == mine;
  }

  /** One interval of the subgroup (bot.py:501-519), after `events`. */
  method NotifyInterval(db: Database, env: Env, ids: seq<int>, iv: Interval, stamp: int, events: seq<Event>)
    returns (after: seq<Event>)
    requires db.Valid()
    modifies db
    ensures db.Valid()
    ensures db.users == old(db.users) && db.addrMap == old(db.addrMap) && db.lastAddrId == old(db.lastAddrId)
    ensures Progress(after, db.notified.Keys) == StepInterval(env, ids, iv, Progress(events, old(db.notified.Keys)))
    ensures Stamped(old(db.notified), db.notified, stamp)
  {
    after := events;
    var key := KeyOf(env, iv);
    if Due(env, iv.start) && !db.WasNotified(key) {
      var sent := SendAll(ids, key, env.failures);
      db.MarkNotified(key, Some(stamp), stamp);
      after := after + sent + [Mark(key)];
    }
  }

  /** The loop over chat ids (bot.py:510-518): every one is tried, failures included. */
  method SendAll(ids: seq<int>, key: string, failures: set<(int, string)>) returns (sent: seq<Event>)
    ensures sent == Sends(ids, key, failures)
  {
    sent := [];
    for k := 0 to |ids|
      invariant sent == Sends(ids[..k], key, failures)
    {
      assert ids[..k + 1][..k] == ids[..k];
      var delivered := (ids[k], key) !in failures;
      sent := sent + [Send(ids[k], key, delivered)];
    }
    assert ids[..|ids|] == ids;
  }
}
