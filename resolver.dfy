/**
 * The `/next` command (bot.py:373-457): which interval of the page to show
 * a user. The fetch and the HTML stripping are left out; the page text
 * arrives as a parameter, `None` when fetching it failed.
 */
module Resolver {
  import opened Wrappers
  import opened Text
  import opened Sorting
  import opened Subgroup
  import opened Intervals
  import opened Store

  /** The replies of `next_cmd`, without their wording. */
  datatype Answer =
    | NotSet                                      // no user, or no subgroup stored
    | NotConfigured                               // the URL is empty
    | FetchError                                  // the page could not be fetched
    | Exact(start: string, end: string)           // an interval of the user's own subgroup
    | Group(sg: string, start: string, end: string) // an interval of another subgroup of the same group
    | NoMatch(subgroups: seq<string>)             // nothing, with the subgroups the page lists

  /** The first triple of subgroup `sg`. */
  function FirstExact(ts: seq<Triple>, sg: string): (r: Option<nat>)
    ensures r.Some? ==> r.value < |ts| && ts[r.value].sg == sg
    ensures r.Some? ==> forall j | 0 <= j < r.value :: ts[j].sg != sg
    ensures r.None? ==> forall j | 0 <= j < |ts| :: ts[j].sg != sg
  {
    if ts == [] then None
    else if ts[0].sg == sg then Some(0)
    else match FirstExact(ts[1..], sg)
      case None => None
      case Some(k) => Some(k + 1)
  }

  /** `sg == group_id or sg.startswith(group_id + ".")` (bot.py:428). */
  predicate InGroup(sg: string, gid: string) {
    sg == gid || StartsWith(sg, gid + ".")
  }

  /** The first triple of a subgroup of group `gid`. */
  function FirstInGroup(ts: seq<Triple>, gid: string): (r: Option<nat>)
    ensures r.Some? ==> r.value < |ts| && InGroup(ts[r.value].sg, gid)
    ensures r.Some? ==> forall j | 0 <= j < r.value :: !InGroup(ts[j].sg, gid)
    ensures r.None? ==> forall j | 0 <= j < |ts| :: !InGroup(ts[j].sg, gid)
  {
    if ts == [] then None
    else if InGroup(ts[0].sg, gid) then Some(0)
    else match FirstInGroup(ts[1..], gid)
      case None => None
      case Some(k) => Some(k + 1)
  }

  /** The subgroup column of the triples. */
  function Subgroups(ts: seq<Triple>): (r: seq<string>)
    ensures Elems(r) == set t | t in ts :: t.sg
  {
    var r := seq(|ts|, i requires 0 <= i < |ts| => ts[i].sg);
    assert forall t | t in ts :: t.sg in Elems(r) by {
      forall t | t in ts ensures t.sg in Elems(r) {
        var i :| 0 <= i < |ts| && ts[i] == t;
        assert r[i] == t.sg;
      }
    }
    r
  }

  /**
   * The matching of bot.py:417-451: the first triple of the user's own
   * subgroup; failing that, when the group id is not empty, the first triple
   * of any subgroup of that group; failing that, the sorted distinct
   * subgroups of the page.
   */
  function Resolve(ts: seq<Triple>, userSg: string, gid: string): (r: Answer)
    ensures r.Exact? || r.Group? || r.NoMatch?
    ensures r.Exact? <==> exists i | 0 <= i < |ts| :: ts[i].sg == userSg
    ensures r.Exact? ==> exists i | 0 <= i < |ts| ::
      (ts[i] == Triple(userSg, r.start, r.end) && forall j | 0 <= j < i :: ts[j].sg != userSg)
    ensures r.Group? <==>
      ((forall i | 0 <= i < |ts| :: ts[i].sg != userSg) && gid != "" && exists i | 0 <= i < |ts| :: InGroup(ts[i].sg, gid))
    ensures r.Group? ==> InGroup(r.sg, gid)
    ensures r.Group? ==> exists i | 0 <= i < |ts| ::
      (ts[i] == Triple(r.sg, r.start, r.end) && forall j | 0 <= j < i :: !InGroup(ts[j].sg, gid))
    ensures r.NoMatch? ==> StrictlySorted(r.subgroups) && Elems(r.subgroups) == set t | t in ts :: t.sg
  {
    var e := FirstExact(ts, userSg);
    if e.Some? then
      assert ts[e.value] == Triple(userSg, ts[e.value].start, ts[e.value].end);
      Exact(ts[e.value].start, ts[e.value].end)
    else if gid != "" && FirstInGroup(ts, gid).Some? then
      var k := FirstInGroup(ts, gid).value;
      assert ts[k] == Triple(ts[k].sg, ts[k].start, ts[k].end);
      Group(ts[k].sg, ts[k].start, ts[k].end)
    else
      NoMatch(SortedSet(Subgroups(ts)))
  }

  /**
   * The stripped subgroup and the group id `next_cmd` matches with
   * (bot.py:391-392): the stored group id, or, when that is blank, the
   * subgroup's text before its first dot.
   */
  function QueryOf(u: User): (string, string) {
    var userSg := Strip(u.subgroup.GetOr(""));
    var stored := Strip(u.groupId.GetOr(""));
    (userSg, if stored != "" then stored else Before(userSg, '.'))
  }

  /** A word starting and ending with non-spaces is its own `.strip()`. */
  lemma StripWord(x: string)
    requires x == [] || (!IsSpace(x[0]) && !IsSpace(x[|x| - 1]))
    ensures Strip(x) == x
  {
    StripPadded([], x, []);
    assert [] + x + [] == x;
  }

  /**
   * For a user the bot registered (a canonical subgroup, its group id
   * stored or left blank), `/next` looks for that subgroup and its group.
   */
  lemma QueryCanonical(u: User, c: string)
    requires Canonical(c) && u.subgroup == Some(c)
    requires u.groupId == Some(GroupIdOf(c)) || u.groupId == None || u.groupId == Some("")
    ensures QueryOf(u) == (c, GroupIdOf(c))
  {
    var g, s := GroupIdOfFormat(c);
    assert IsDigit(c[0]) && IsDigit(c[|c| - 1]) by {
      assert c[0] == g[0];
      assert c[|c| - 1] == s[|s| - 1];
    }
    StripWord(c);
    assert IsDigit(g[0]) && IsDigit(g[|g| - 1]);
    StripWord(g);
    StripWord("");
  }

  /** The reply of `next_cmd`; None when there is no chat to answer. */
  function NextReply(users: map<int, User>, chatId: Option<int>, url: string, page: Option<string>): Option<Answer> {
    if chatId.None? then None
    else if chatId.value !in users || users[chatId.value].subgroup.GetOr("") == "" then Some(NotSet)
    else if url == "" then Some(NotConfigured)
    else if page.None? then Some(FetchError)
    else
      var q := QueryOf(users[chatId.value]);
      Some(Resolve(Extract(page.value), q.0, q.1))
  }

  /** `next_cmd` (bot.py:373-457) on the store. */
  method NextCmd(db: Database, chatId: Option<int>, url: string, page: Option<string>) returns (reply: Option<Answer>)
    requires db.Valid()
    ensures reply == NextReply(db.users, chatId, url, page)
    ensures (chatId.Some? && chatId.value in db.users && page.Some? && url != "" &&
             db.users[chatId.value].subgroup.GetOr("") != "") ==>
      reply.Some? && (reply.value.Exact? || reply.value.Group? || reply.value.NoMatch?)
  {
    if chatId.None? {
      return None;
    }
    var user := db.GetUserByChat(chatId.value);
    if user.None? || user.value.subgroup.GetOr("") == "" {
      return Some(NotSet);
    }
    var q := QueryOf(user.value);
    if url == "" {
      return Some(NotConfigured);
    }
    if page.None? {
      return Some(FetchError);
    }
    var intervals := ExtractIntervals(page.value);
    reply := Some(Resolve(intervals, q.0, q.1));
  }

  /** An exact entry wins even when an entry of the same group comes first. */
  lemma ExactBeforeGroup()
    ensures Resolve([Triple("1.1", "07:00", "09:00"), Triple("1.2", "10:00", "12:00")], "1.2", "1") ==
      Exact("10:00", "12:00")
  {
    var ts := [Triple("1.1", "07:00", "09:00"), Triple("1.2", "10:00", "12:00")];
    assert ts[0].sg != "1.2";
    assert FirstExact(ts, "1.2") == Some(1);
  }

  /** Without an exact entry the first entry of the group is shown. */
  lemma GroupFallback()
    ensures Resolve([Triple("2.1", "05:00", "06:00"), Triple("1.1", "07:00", "09:00")], "1.3", "1") ==
      Group("1.1", "07:00", "09:00")
  {
    var ts := [Triple("2.1", "05:00", "06:00"), Triple("1.1", "07:00", "09:00")];
    assert ts[0].sg != "1.3" && ts[1].sg != "1.3";
    assert !InGroup("2.1", "1") by { assert "2.1"[..2][0] != "1."[0]; }
    assert InGroup("1.1", "1") by { assert "1.1"[..2] == "1."; }
    assert FirstInGroup(ts, "1") == Some(1);
  }

  /** Group 1 does not take in subgroup 10.1: the prefix includes the dot. */
  lemma PrefixNeedsDot()
    ensures Resolve([Triple("10.1", "07:00", "09:00")], "1.3", "1").NoMatch?
  {
    assert !InGroup("10.1", "1") by { assert "10.1"[..2][1] != "1."[1]; }
  }
}
