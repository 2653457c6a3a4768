/**
 * The usage table of the AI assistant: one record per (session, user) pair counting that pair's
 * messages, the per-user daily/global/session limit check, and the cleanup of old records. The
 * table is a sequence of records, newest first (`create_date desc`).
 */
module Usage {
  import opened Wrappers
  import AgentUsage

  /** A usage record; `userId` 0 is a NULL user and an absent `userIdentifier` a NULL identifier. */
  datatype UsageRecord = UsageRecord(
    sessionId: string,
    userId: nat,
    userIdentifier: Option<string>,
    messageCount: int,
    createDate: int)

  /** The columns of the `unique_session_user` constraint. */
  datatype UsageKey = UsageKey(sessionId: string, userId: nat, userIdentifier: Option<string>)

  function Key(r: UsageRecord): UsageKey {
    UsageKey(r.sessionId, r.userId, r.userIdentifier)
  }

  function KeysOf(records: seq<UsageRecord>): set<UsageKey> {
    if records == [] then {} else {Key(records[0])} + KeysOf(records[1..])
  }

  /** A key is among the keys of the records exactly when some record has it. */
  lemma {:induction false} KeysOfHolds(records: seq<UsageRecord>, k: UsageKey)
    ensures k in KeysOf(records) <==> exists i :: 0 <= i < |records| && Key(records[i]) == k
  {
    if records != [] {
      KeysOfHolds(records[1..], k);
      if exists i :: 0 <= i < |records| && Key(records[i]) == k {
        var i :| 0 <= i < |records| && Key(records[i]) == k;
        if i > 0 {
          assert Key(records[1..][i - 1]) == k;
        }
      }
      if exists i :: 0 <= i < |records[1..]| && Key(records[1..][i]) == k {
        var i :| 0 <= i < |records[1..]| && Key(records[1..][i]) == k;
        assert Key(records[i + 1]) == k;
      }
    }
  }

  /** No two records share a (session, user, identifier) triple, NULLs compared as values. */
  predicate Unique(records: seq<UsageRecord>) {
    records == [] || (Key(records[0]) !in KeysOf(records[1..]) && Unique(records[1..]))
  }

  /**
   * The rows the SQL constraint itself rejects as duplicates: SQL never equates NULLs, so two rows
   * conflict only when all three columns are set and equal.
   */
  predicate SqlConflict(a: UsageRecord, b: UsageRecord) {
    a.userId != 0 && a.userIdentifier.Some? && Key(a) == Key(b)
  }

  /**
   * A record holds at most one of the two owner columns, as `get_or_create_usage_record` writes
   * either the user or the identifier.
   */
  predicate OneOwnerColumn(r: UsageRecord) {
    r.userId == 0 || r.userIdentifier.None?
  }

  // ---------------------------------------------------------------------------
  // get_or_create_usage_record

  /** The search domain: the session, and the user when one is given, else the identifier. */
  predicate LookupMatches(r: UsageRecord, sessionId: string, userId: nat, userIdentifier: Option<string>) {
    r.sessionId == sessionId && (if userId != 0 then r.userId == userId else r.userIdentifier == userIdentifier)
  }

  /** The first record the domain matches, as `search(domain, limit=1)` returns it. */
  function FindUsage(records: seq<UsageRecord>, sessionId: string, userId: nat, userIdentifier: Option<string>): (found: Option<nat>)
    ensures found.Some? ==> found.value < |records| && LookupMatches(records[found.value], sessionId, userId, userIdentifier) &&
                            forall j :: 0 <= j < found.value ==> !LookupMatches(records[j], sessionId, userId, userIdentifier)
    ensures found.None? ==> forall j :: 0 <= j < |records| ==> !LookupMatches(records[j], sessionId, userId, userIdentifier)
  {
    if records == [] then None
    else if LookupMatches(records[0], sessionId, userId, userIdentifier) then Some(0)
    else match FindUsage(records[1..], sessionId, userId, userIdentifier)
         case None => None
         case Some(j) => Some(j + 1)
  }

  /** The record created when none matches: the user when given, else the identifier; one message. */
  function NewUsageRecord(sessionId: string, userId: nat, userIdentifier: Option<string>, now: int): (r: UsageRecord)
    ensures r.sessionId == sessionId && r.messageCount == 1 && r.createDate == now && OneOwnerColumn(r)
    ensures LookupMatches(r, sessionId, userId, userIdentifier)
  {
    if userId != 0 then UsageRecord(sessionId, userId, None, 1, now)
    else UsageRecord(sessionId, 0, userIdentifier, 1, now)
  }

  /** The number of messages recorded for a session, over all its records. */
  function SessionMessages(records: seq<UsageRecord>, sessionId: string): int {
    if records == [] then 0
    else (if records[0].sessionId == sessionId then records[0].messageCount else 0) + SessionMessages(records[1..], sessionId)
  }

  /** One more message on record `i` is one more message for its session and no other. */
  lemma {:induction false} SessionMessagesAfterIncrement(records: seq<UsageRecord>, i: nat, sessionId: string)
    requires i < |records|
    ensures SessionMessages(records[i := records[i].(messageCount := records[i].messageCount + 1)], sessionId) ==
            SessionMessages(records, sessionId) + (if records[i].sessionId == sessionId then 1 else 0)
  {
    var r := records[i].(messageCount := records[i].messageCount + 1);
    if i > 0 {
      assert records[i := r][1..] == records[1..][i - 1 := r];
      SessionMessagesAfterIncrement(records[1..], i - 1, sessionId);
    } else {
      assert records[i := r][1..] == records[1..];
    }
  }

  /** Keys are unchanged by a new message count, so the update keeps the table unique. */
  lemma {:induction false} IncrementKeepsUnique(records: seq<UsageRecord>, i: nat)
    requires i < |records| && Unique(records)
    ensures var updated := records[i := records[i].(messageCount := records[i].messageCount + 1)];
            Unique(updated) && KeysOf(updated) == KeysOf(records)
  {
    var r := records[i].(messageCount := records[i].messageCount + 1);
    var updated := records[i := r];
    if i > 0 {
      assert updated[1..] == records[1..][i - 1 := r];
      IncrementKeepsUnique(records[1..], i - 1);
    } else {
      assert updated[1..] == records[1..];
    }
  }

  /**
   * The record store of the usage model. Every record holds at most one owner column and no two
   * records share a key.
   */
  class UsageTable {
    var records: seq<UsageRecord>

    ghost predicate Valid()
      reads this
    {
      Unique(records) && forall i :: 0 <= i < |records| ==> OneOwnerColumn(records[i])
    }

    constructor ()
      ensures records == [] && Valid()
    {
      records := [];
    }

    /**
     * `get_or_create_usage_record`: one more message on the first record matching the session and
     * user (`created` false), or a new one-message record in front (`created` true). Either way the
     * session gets exactly one more message, the table grows by at most one record, and keys stay
     * unique.
     */
    method GetOrCreateUsageRecord(sessionId: string, userId: nat, userIdentifier: Option<string>, now: int)
      returns (index: nat, created: bool)
      requires Valid()
      modifies this
      ensures Valid()
      ensures created <==> FindUsage(old(records), sessionId, userId, userIdentifier).None?
      ensures created ==> index == 0 && records == [NewUsageRecord(sessionId, userId, userIdentifier, now)] + old(records)
      ensures !created ==>
                index == FindUsage(old(records), sessionId, userId, userIdentifier).value &&
                records == old(records)[index := old(records)[index].(messageCount := old(records)[index].messageCount + 1)]
      ensures index < |records| && LookupMatches(records[index], sessionId, userId, userIdentifier)
      ensures |old(records)| <= |records| <= |old(records)| + 1
      ensures SessionMessages(records, sessionId) == SessionMessages(old(records), sessionId) + 1
    {
      var found := FindUsage(records, sessionId, userId, userIdentifier);
      if found.Some? {
        index := found.value;
        SessionMessagesAfterIncrement(records, index, sessionId);
        IncrementKeepsUnique(records, index);
        records := records[index := records[index].(messageCount := records[index].messageCount + 1)];
        created := false;
      } else {
        var record := NewUsageRecord(sessionId, userId, userIdentifier, now);
        NewKeyIsFresh(records, sessionId, userId, userIdentifier, now);
        records := [record] + records;
        assert records[1..] == old(records);
        index := 0;
        created := true;
      }
    }

    /**
     * `cleanup_old_records`: delete the records created before `now` minus `daysToKeep` days and
     * report how many went; the others stay, in order.
     */
    method CleanupOldRecords(daysToKeep: int, now: int) returns (removed: nat)
      requires Valid()
      modifies this
      ensures Valid()
      ensures records == Kept(old(records), now - daysToKeep * AgentUsage.SecondsPerDay)
      ensures removed == |old(records)| - |records|
    {
      var cutoff := now - daysToKeep * AgentUsage.SecondsPerDay;
      var kept := Kept(records, cutoff);
      KeptKeepsValid(records, cutoff);
      removed := |records| - |kept|;
      records := kept;
    }
  }

  /** When nothing matches, the created record's key is in no existing record. */
  lemma NewKeyIsFresh(records: seq<UsageRecord>, sessionId: string, userId: nat, userIdentifier: Option<string>, now: int)
    requires FindUsage(records, sessionId, userId, userIdentifier).None?
    ensures Key(NewUsageRecord(sessionId, userId, userIdentifier, now)) !in KeysOf(records)
  {
    var k := Key(NewUsageRecord(sessionId, userId, userIdentifier, now));
    KeysOfHolds(records, k);
  }

  /** The records created at or after the cutoff, in their order. */
  function Kept(records: seq<UsageRecord>, cutoff: int): (kept: seq<UsageRecord>)
    ensures |kept| <= |records|
    ensures forall r :: r in kept <==> r in records && r.createDate >= cutoff
  {
    if records == [] then []
    else (if records[0].createDate >= cutoff then [records[0]] else []) + Kept(records[1..], cutoff)
  }

  /** Deleting records keeps the remaining keys unique and each record's owner columns. */
  lemma {:induction false} KeptKeepsValid(records: seq<UsageRecord>, cutoff: int)
    requires Unique(records) && forall i :: 0 <= i < |records| ==> OneOwnerColumn(records[i])
    ensures var kept := Kept(records, cutoff);
            Unique(kept) && KeysOf(kept) <= KeysOf(records) &&
            forall i :: 0 <= i < |kept| ==> OneOwnerColumn(kept[i])
  {
    if records != [] {
      KeptKeepsValid(records[1..], cutoff);
      var rest := Kept(records[1..], cutoff);
      if records[0].createDate >= cutoff {
        assert Kept(records, cutoff) == [records[0]] + rest;
        assert ([records[0]] + rest)[1..] == rest;
      } else {
        assert Kept(records, cutoff) == rest;
      }
      forall i | 0 <= i < |Kept(records, cutoff)| ensures OneOwnerColumn(Kept(records, cutoff)[i]) {
        var r := Kept(records, cutoff)[i];
        assert r in records;
      }
    }
  }

  /** Each record of a valid table has a NULL column, so the SQL constraint never fires on it. */
  lemma ValidTableHasNoSqlConflict(t: seq<UsageRecord>, a: UsageRecord, b: UsageRecord)
    requires forall i :: 0 <= i < |t| ==> OneOwnerColumn(t[i])
    requires a in t
    ensures !SqlConflict(a, b)
  {
  }

  /**
   * Looking up a public visitor by a NULL identifier matches every record of the session whose
   * identifier is NULL, including a logged-in user's: the domain has no clause on the user.
   */
  lemma PublicLookupMatchesUserRecord(sessionId: string, userId: nat, now: int)
    requires userId != 0
    ensures FindUsage([UsageRecord(sessionId, userId, None, 1, now)], sessionId, 0, None) == Some(0)
  {
  }

  // ---------------------------------------------------------------------------
  // check_user_limits

  /** The user clause of the counts: by user, by identifier, or none (all records). */
  datatype UserFilter = ByUser(userId: nat) | ByIdentifier(identifier: string) | Everyone

  function UserFilterOf(userId: nat, userIdentifier: Option<string>): (f: UserFilter)
    ensures userId != 0 ==> f == ByUser(userId)
    ensures userId == 0 && userIdentifier.Some? && userIdentifier.value != [] ==> f == ByIdentifier(userIdentifier.value)
    ensures userId == 0 && (userIdentifier.None? || userIdentifier.value == []) ==> f == Everyone
  {
    if userId != 0 then ByUser(userId)
    else if userIdentifier.Some? && userIdentifier.value != [] then ByIdentifier(userIdentifier.value)
    else Everyone
  }

  predicate Selects(f: UserFilter, r: UsageRecord) {
    match f
    case ByUser(u) => r.userId == u
    case ByIdentifier(id) => r.userIdentifier == Some(id)
    case Everyone => true
  }

  /** `search_count` over the user clause, plus `create_date >= since` when a day start is given. */
  function CountRecords(records: seq<UsageRecord>, f: UserFilter, since: Option<int>): (n: nat)
    ensures n <= |records|
  {
    if records == [] then 0
    else
      (if Selects(f, records[0]) && (since.Some? ==> records[0].createDate >= since.value) then 1 else 0) +
      CountRecords(records[1..], f, since)
  }

  /** Counting only since a day start never counts more than counting without it. */
  lemma {:induction false} DailyCountAtMostGlobal(records: seq<UsageRecord>, f: UserFilter, since: int)
    ensures CountRecords(records, f, Some(since)) <= CountRecords(records, f, None)
  {
    if records != [] {
      DailyCountAtMostGlobal(records[1..], f, since);
    }
  }

  datatype LimitReason = DailyLimitExceeded | GlobalLimitExceeded | SessionLimitExceeded

  /** The dictionary `check_user_limits` returns. */
  datatype LimitReport = LimitReport(
    canShowWidget: bool,
    dailyUsage: nat,
    globalUsage: nat,
    sessionUsage: int,
    dailyLimit: int,
    globalLimit: int,
    sessionLimit: int,
    reason: Option<LimitReason>)

  /** A limit that is set (positive) and reached. */
  predicate Reached(usage: int, limit: int) {
    limit > 0 && usage >= limit
  }

  /**
   * `check_user_limits` at time `now`: the user's records today, the user's records overall, and
   * the messages of the session (when one is given); then the first limit reached of daily,
   * global and session, in that order.
   */
  function CheckUserLimits(records: seq<UsageRecord>, now: int, userId: nat, userIdentifier: Option<string>,
                           dailyLimit: int, globalLimit: int, sessionLimit: int, sessionId: Option<string>): (r: LimitReport)
    ensures r.dailyUsage == CountRecords(records, UserFilterOf(userId, userIdentifier), Some(AgentUsage.DayStart(now)))
    ensures r.globalUsage == CountRecords(records, UserFilterOf(userId, userIdentifier), None)
    ensures r.sessionUsage == if sessionId.Some? && sessionId.value != [] then SessionMessages(records, sessionId.value) else 0
    ensures r.dailyLimit == dailyLimit && r.globalLimit == globalLimit && r.sessionLimit == sessionLimit
    ensures r.canShowWidget <==> r.reason.None?
    ensures r.reason == Some(DailyLimitExceeded) <==> Reached(r.dailyUsage, dailyLimit)
    ensures r.reason == Some(GlobalLimitExceeded) <==> !Reached(r.dailyUsage, dailyLimit) && Reached(r.globalUsage, globalLimit)
    ensures r.reason == Some(SessionLimitExceeded) <==>
              !Reached(r.dailyUsage, dailyLimit) && !Reached(r.globalUsage, globalLimit) && Reached(r.sessionUsage, sessionLimit)
  {
    var f := UserFilterOf(userId, userIdentifier);
    var daily := CountRecords(records, f, Some(AgentUsage.DayStart(now)));
    var global := CountRecords(records, f, None);
    var session := if sessionId.Some? && sessionId.value != [] then SessionMessages(records, sessionId.value) else 0;
    var reason :=
      if Reached(daily, dailyLimit) then Some(DailyLimitExceeded)
      else if Reached(global, globalLimit) then Some(GlobalLimitExceeded)
      else if Reached(session, sessionLimit) then Some(SessionLimitExceeded)
      else None;
    LimitReport(reason.None?, daily, global, session, dailyLimit, globalLimit, sessionLimit, reason)
  }

  /** Limits of 0 or less never block, and the daily count never exceeds the global one. */
  lemma UnsetLimitsNeverBlock(records: seq<UsageRecord>, now: int, userId: nat, userIdentifier: Option<string>,
                              dailyLimit: int, globalLimit: int, sessionLimit: int, sessionId: Option<string>)
    ensures var r := CheckUserLimits(records, now, userId, userIdentifier, dailyLimit, globalLimit, sessionLimit, sessionId);
            r.dailyUsage <= r.globalUsage &&
            (dailyLimit <= 0 && globalLimit <= 0 && sessionLimit <= 0 ==> r.canShowWidget)
  {
    DailyCountAtMostGlobal(records, UserFilterOf(userId, userIdentifier), AgentUsage.DayStart(now));
  }
}
