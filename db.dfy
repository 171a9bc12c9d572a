/**
 * The SQLite store of database/db.py as an in-memory object: the `users`
 * table keyed by `chat_id`, the `notified` table of dedup keys with their
 * timestamps, and the `addr_map` table with its AUTOINCREMENT counter.
 * Each function of db.py that writes is a method that changes these
 * fields; each one that only reads is a function of them. `NULL` columns
 * are `None`.
 */
module Store {
  import opened Wrappers
  import opened Sorting

  /** A row of `users` (database/db.py:165). */
  datatype User = User(chatId: int, username: Option<string>, address: Option<string>,
                       hashedAddress: Option<string>, groupId: Option<string>,
                       subgroup: Option<string>, verified: int)

  /** The columns `list_all_users` selects (database/db.py:200). */
  datatype UserSummary = UserSummary(chatId: int, username: Option<string>, groupId: Option<string>,
                                     subgroup: Option<string>, verified: int)

  function Summary(u: User): UserSummary {
    UserSummary(u.chatId, u.username, u.groupId, u.subgroup, u.verified)
  }

  /** A row of `addr_map` (database/db.py:113). */
  datatype AddrRecord = AddrRecord(id: int, rawAddress: Option<string>, normAddress: Option<string>,
                                   groupId: Option<string>, subgroup: Option<string>,
                                   sourceUrl: Option<string>)

  /** `source_url = ?` in SQL: a NULL on either side never compares equal. */
  predicate SourceIs(r: AddrRecord, url: Option<string>) {
    url.Some? && r.sourceUrl == url
  }

  /** The rows of `m` at the given keys, in that order. */
  function UserRows(ids: seq<int>, m: map<int, User>): (r: seq<UserSummary>)
    requires forall i | 0 <= i < |ids| :: ids[i] in m
    ensures |r| == |ids| && forall i | 0 <= i < |r| :: r[i] == Summary(m[ids[i]])
  {
    if ids == [] then [] else [Summary(m[ids[0]])] + UserRows(ids[1..], m)
  }

  /** The rows of `m` at the given keys, in that order. */
  function AddrRows(ids: seq<int>, m: map<int, AddrRecord>): (r: seq<AddrRecord>)
    requires forall i | 0 <= i < |ids| :: ids[i] in m
    ensures |r| == |ids| && forall i | 0 <= i < |r| :: r[i] == m[ids[i]]
  {
    if ids == [] then [] else [m[ids[0]]] + AddrRows(ids[1..], m)
  }

  /** With ids that match their keys, each row carries the id it was looked up by. */
  lemma AddrRowIds(ids: seq<int>, m: map<int, AddrRecord>)
    requires forall i | 0 <= i < |ids| :: ids[i] in m
    requires forall id | id in m :: m[id].id == id
    ensures forall i | 0 <= i < |ids| :: AddrRows(ids, m)[i].id == ids[i]
  {
  }

  /** Below a member of an ascending list, every smaller member comes earlier. */
  lemma EarlierBelow(ids: seq<int>, c: int, i: nat)
    requires Ascending(ids) && c in Elems(ids) && i < |ids| && c < ids[i]
    ensures exists j :: 0 <= j < i && ids[j] == c
  {
    var j :| 0 <= j < |ids| && ids[j] == c;
    assert j < i;
  }

  /**
   * The chat ids `ORDER BY chat_id LIMIT limit` keeps: the first `limit`
   * keys in ascending order (all of them for a negative limit), none below
   * the last one left out.
   */
  function FirstChatIds(users: map<int, User>, limit: int): (ids: seq<int>)
    ensures |ids| == if 0 <= limit < |users| then limit else |users|
    ensures forall i | 0 <= i < |ids| :: ids[i] in users
    ensures Ascending(ids)
    ensures forall c, i | c in users && 0 <= i < |ids| && c < ids[i] :: exists j :: 0 <= j < i && ids[j] == c
  {
    var all := SortedInts(users.Keys);
    var n := if 0 <= limit < |all| then limit else |all|;
    AscendingPrefix(all, users.Keys, n);
    all[..n]
  }

  /** A prefix of a set's ascending listing holds its least elements, in order. */
  lemma AscendingPrefix(all: seq<int>, keys: set<int>, n: nat)
    requires Ascending(all) && Elems(all) == keys && n <= |all|
    ensures forall i | 0 <= i < n :: all[..n][i] in keys
    ensures Ascending(all[..n])
    ensures forall c, i | c in keys && 0 <= i < n && c < all[..n][i] :: exists j :: 0 <= j < i && all[..n][j] == c
  {
    var pre := all[..n];
    assert forall i | 0 <= i < n :: pre[i] == all[i] && all[i] in Elems(all);
    forall c, i | c in keys && 0 <= i < n && c < pre[i]
      ensures exists j :: 0 <= j < i && pre[j] == c
    {
      EarlierBelow(all, c, i);
      var j :| 0 <= j < i && all[j] == c;
      assert pre[j] == c;
    }
  }

  /** The chat ids `subgroup = ? AND verified = 1` selects. */
  function SubscriberSet(users: map<int, User>, sg: string): set<int> {
    set c | c in users && users[c].subgroup == Some(sg) && users[c].verified == 1
  }

  /**
   * Those chat ids in ascending order, the order SQLite's rowid and
   * `idx_users_subgroup` scans return them.
   */
  function Subscribers(users: map<int, User>, sg: string): (r: seq<int>)
    ensures Ascending(r)
    ensures forall c :: c in r <==> c in users && users[c].subgroup == Some(sg) && users[c].verified == 1
    ensures Elems(r) == SubscriberSet(users, sg)
  {
    var r := SortedInts(SubscriberSet(users, sg));
    assert forall c :: c in r <==> c in Elems(r);
    r
  }

  class Database {
    var users: map<int, User>
    var notified: map<string, int>
    var addrMap: map<int, AddrRecord>
    /** The largest `addr_map` id ever issued (SQLite's `sqlite_sequence`). */
    var lastAddrId: nat

    /** Primary keys agree with the rows; ids never exceed the counter. */
    predicate Valid()
      reads this
    {
      (forall c | c in users :: users[c].chatId == c) &&
      (forall id | id in addrMap :: addrMap[id].id == id && 0 < id <= lastAddrId)
    }

    constructor()
      ensures Valid()
      ensures users == map[] && notified == map[] && addrMap == map[] && lastAddrId == 0
    {
      users := map[];
      notified := map[];
      addrMap := map[];
      lastAddrId := 0;
    }

    /**
     * `save_user_hashed` (database/db.py:152-171): INSERT OR REPLACE keyed by
     * chat_id; `address` is always stored as NULL and `raw_address` is ignored.
     */
    method SaveUserHashed(chatId: int, username: Option<string>, hashedAddress: Option<string>,
                          rawAddress: Option<string>, groupId: Option<string>,
                          subgroup: Option<string>, verified: int)
      requires Valid()
      modifies this
      ensures Valid()
      ensures users == old(users)[chatId := User(chatId, username, None, hashedAddress, groupId, subgroup, verified)]
      ensures notified == old(notified) && addrMap == old(addrMap) && lastAddrId == old(lastAddrId)
    {
      users := users[chatId := User(chatId, username, None, hashedAddress, groupId, subgroup, verified)];
    }

    /** `get_user_by_chat` (database/db.py:174-183): the row, or None when there is none. */
    function GetUserByChat(chatId: int): (r: Option<User>)
      reads this
      requires Valid()
      ensures r.Some? <==> chatId in users
      ensures r.Some? ==> r.value.chatId == chatId && r.value == users[chatId]
    {
      if chatId in users then Some(users[chatId]) else None
    }

    /**
     * `get_users_by_subgroup` (database/db.py:186-193): the chat ids of the
     * verified users with exactly this subgroup, ascending.
     */
    function UsersBySubgroup(sg: string): (r: seq<int>)
      reads this
      ensures Ascending(r)
      ensures forall c :: c in r <==> c in users && users[c].subgroup == Some(sg) && users[c].verified == 1
    {
      Subscribers(users, sg)
    }

    /**
     * `list_all_users(limit)` (database/db.py:196-205): the summaries of the
     * users `FirstChatIds` keeps, in that order.
     */
    function ListAllUsers(limit: int): (r: seq<UserSummary>)
      reads this
      requires Valid()
      ensures |r| == |FirstChatIds(users, limit)|
      ensures forall i | 0 <= i < |r| :: r[i].chatId == FirstChatIds(users, limit)[i]
      ensures forall i | 0 <= i < |r| :: r[i] == Summary(users[FirstChatIds(users, limit)[i]])
    {
      UserRows(FirstChatIds(users, limit), users)
    }

    /** `mark_notified` (database/db.py:211-218): INSERT OR REPLACE; `ts` defaults to the clock. */
    method MarkNotified(key: string, ts: Option<int>, clock: int)
      requires Valid()
      modifies this
      ensures Valid()
      ensures notified == old(notified)[key := ts.GetOr(clock)]
      ensures users == old(users) && addrMap == old(addrMap) && lastAddrId == old(lastAddrId)
    {
      notified := notified[key := ts.GetOr(clock)];
    }

    /** `was_notified` (database/db.py:221-227). */
    function WasNotified(key: string): (r: bool)
      reads this
    {
      key in notified
    }

    /**
     * `insert_addr_map_record` (database/db.py:109-117): the new row gets the
     * id after the largest ever issued (AUTOINCREMENT).
     */
    method InsertAddrMapRecord(rawAddress: Option<string>, normAddress: Option<string>,
                               groupId: Option<string>, subgroup: Option<string>,
                               sourceUrl: Option<string>)
      requires Valid()
      modifies this
      ensures Valid()
      ensures lastAddrId == old(lastAddrId) + 1 && old(lastAddrId) + 1 !in old(addrMap)
      ensures addrMap == old(addrMap)[lastAddrId := AddrRecord(lastAddrId, rawAddress, normAddress, groupId, subgroup, sourceUrl)]
      ensures users == old(users) && notified == old(notified)
    {
      lastAddrId := lastAddrId + 1;
      addrMap := addrMap[lastAddrId := AddrRecord(lastAddrId, rawAddress, normAddress, groupId, subgroup, sourceUrl)];
    }

    /** `clear_addr_map_by_source` (database/db.py:120-125): DELETE WHERE source_url = ?. */
    method ClearAddrMapBySource(sourceUrl: Option<string>)
      requires Valid()
      modifies this
      ensures Valid()
      ensures addrMap == map id | id in old(addrMap) && !SourceIs(old(addrMap)[id], sourceUrl) :: old(addrMap)[id]
      ensures users == old(users) && notified == old(notified) && lastAddrId == old(lastAddrId)
    {
      addrMap := map id | id in addrMap && !SourceIs(addrMap[id], sourceUrl) :: addrMap[id];
    }

    /** `load_addr_map_by_id` (database/db.py:137-146): the row, or None for an absent id. */
    function LoadAddrMapById(id: int): (r: Option<AddrRecord>)
      reads this
      requires Valid()
      ensures r.Some? <==> id in addrMap
      ensures r.Some? ==> r.value.id == id && r.value == addrMap[id]
    {
      if id in addrMap then Some(addrMap[id]) else None
    }

    /**
     * `load_all_addr_map_records` (database/db.py:128-134): every row, in id
     * order (SortedInts lists each id once, ascending).
     */
    function LoadAllAddrMapRecords(): (r: seq<AddrRecord>)
      reads this
      requires Valid()
      ensures |r| == |addrMap|
      ensures forall i | 0 <= i < |r| :: SortedInts(addrMap.Keys)[i] in addrMap
      ensures forall i | 0 <= i < |r| :: r[i].id == SortedInts(addrMap.Keys)[i]
      ensures forall i | 0 <= i < |r| :: r[i] == addrMap[SortedInts(addrMap.Keys)[i]]
    {
      var ids := SortedInts(addrMap.Keys);
      assert forall i | 0 <= i < |ids| :: ids[i] in Elems(ids);
      AddrRowIds(ids, addrMap);
      AddrRows(ids, addrMap)
    }
  }

  /** A key is reported notified exactly after it was marked, and marking again changes nothing visible. */
  method MarkThenCheck(db: Database, key: string, other: string, clock: int)
    requires db.Valid()
    modifies db
    ensures db.WasNotified(key)
    ensures other != key ==> db.WasNotified(other) == old(db.WasNotified(other))
  {
    db.MarkNotified(key, None, clock);
    db.MarkNotified(key, Some(clock + 1), clock + 1);
  }
}
