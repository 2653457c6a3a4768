/**
 * The agent usage table: one record per conversation session, owned either by a logged-in user or
 * by a public visitor identified by a hash of their IP address. Daily and global message limits
 * are sums over the active records created since the start of the day. The table is a sequence
 * of records, newest first, as the model's default order (`create_date desc`) returns them.
 */
module AgentUsage {
  import opened Wrappers

  /**
   * A usage record. `userId` 0 means no user is set; `publicUserId` is absent when unset.
   * Timestamps are seconds.
   */
  datatype AgentUsageRecord = AgentUsageRecord(
    sessionId: string,
    userId: nat,
    publicUserId: Option<string>,
    messageCount: int,
    isActive: bool,
    createDate: int,
    sessionEndDate: Option<int>)

  // ---------------------------------------------------------------------------
  // Identification

  /** A public user id that counts as set (an empty text is false in Python). */
  predicate HasPublicUserId(r: AgentUsageRecord) {
    r.publicUserId.Some? && r.publicUserId.value != []
  }

  const MissingIdentification := "Either User or Public User ID must be set."
  const DoubleIdentification := "Cannot set both User and Public User ID."

  /**
   * `_check_user_identification` for one record: the validation error it raises, if any. A
   * record passes exactly when one of the user and the public user id is set.
   */
  function CheckUserIdentification(r: AgentUsageRecord): (error: Option<string>)
    ensures error.None? <==> (r.userId != 0 <==> !HasPublicUserId(r))
    ensures error == Some(MissingIdentification) <==> r.userId == 0 && !HasPublicUserId(r)
    ensures error == Some(DoubleIdentification) <==> r.userId != 0 && HasPublicUserId(r)
  {
    if r.userId == 0 && !HasPublicUserId(r) then Some(MissingIdentification)
    else if r.userId != 0 && HasPublicUserId(r) then Some(DoubleIdentification)
    else None
  }

  /** The first 16 characters of a text, or all of it when shorter (Python `s[:16]`). */
  function Prefix16(s: string): (p: string)
    ensures |p| == if |s| < 16 then |s| else 16
    ensures p == s[..|p|]
  {
    if |s| < 16 then s else s[..16]
  }

  const PublicPrefix := "public_"

  /**
   * `get_or_create_public_user_id`, with the SHA-256 hex digest as a parameter: `public_`
   * followed by the first 16 digest characters of the IP, where a missing or empty IP is hashed
   * as `unknown`.
   */
  function PublicUserId(ipAddress: Option<string>, sha256Hex: string -> string): (id: string)
    ensures |id| >= |PublicPrefix| && id[..|PublicPrefix|] == PublicPrefix
    ensures var key := if ipAddress.None? || ipAddress.value == [] then "unknown" else ipAddress.value;
            id[|PublicPrefix|..] == Prefix16(sha256Hex(key)) &&
            (|sha256Hex(key)| >= 16 ==> |id| == |PublicPrefix| + 16)
  {
    var key := if ipAddress.None? || ipAddress.value == [] then "unknown" else ipAddress.value;
    PublicPrefix + Prefix16(sha256Hex(key))
  }

  /** Visitors without a known IP all share the id of the text `unknown`. */
  lemma UnknownIpsShareOneId(sha256Hex: string -> string)
    ensures PublicUserId(None, sha256Hex) == PublicUserId(Some([]), sha256Hex)
    ensures PublicUserId(None, sha256Hex) == PublicUserId(Some("unknown"), sha256Hex)
  {
  }

  /** A hex SHA-256 digest has 64 characters, so every public id has 23. */
  lemma PublicUserIdLength(ipAddress: Option<string>, sha256Hex: string -> string)
    requires forall s :: |sha256Hex(s)| == 64
    ensures |PublicUserId(ipAddress, sha256Hex)| == 23
  {
    var key := if ipAddress.None? || ipAddress.value == [] then "unknown" else ipAddress.value;
    assert |sha256Hex(key)| == 64;
  }

  /** Records built with a public id (and no user) pass the identification check. */
  lemma PublicRecordIsIdentified(sessionId: string, ipAddress: Option<string>, sha256Hex: string -> string, now: int)
    ensures CheckUserIdentification(
              AgentUsageRecord(sessionId, 0, Some(PublicUserId(ipAddress, sha256Hex)), 1, true, now, None)).None?
  {
    var id := PublicUserId(ipAddress, sha256Hex);
    assert id[..|PublicPrefix|] == PublicPrefix;
  }

  // ---------------------------------------------------------------------------
  // Limits

  const SecondsPerDay: int := 86400

  /** Midnight of the day holding `now` (in the clock's own zone). */
  function DayStart(now: int): (start: int)
    ensures start <= now < start + SecondsPerDay && start % SecondsPerDay == 0
  {
    now - now % SecondsPerDay
  }

  /** Whose messages a daily count covers: a logged-in user, or a public id (absent means NULL). */
  datatype Owner = ByUser(userId: nat) | ByPublicId(publicUserId: Option<string>)

  /** The user clause of `check_daily_limit`: the user id when one is given, else the public id. */
  function OwnerOf(userId: nat, publicUserId: Option<string>): (o: Owner)
    ensures userId != 0 ==> o == ByUser(userId)
    ensures userId == 0 ==> o == ByPublicId(publicUserId)
  {
    if userId != 0 then ByUser(userId) else ByPublicId(publicUserId)
  }

  predicate OwnedBy(r: AgentUsageRecord, owner: Owner) {
    match owner
    case ByUser(u) => r.userId == u
    case ByPublicId(p) => r.publicUserId == p
  }

  /**
   * The search domain of the limit checks: an active record created since `dayStart`, and of
   * `owner` when one is given (the global check gives none).
   */
  predicate Counted(r: AgentUsageRecord, dayStart: int, owner: Option<Owner>) {
    r.createDate >= dayStart && r.isActive && (owner.Some? ==> OwnedBy(r, owner.value))
  }

  /** What one record adds to a total. */
  function Contribution(r: AgentUsageRecord, dayStart: int, owner: Option<Owner>): int {
    if Counted(r, dayStart, owner) then r.messageCount else 0
  }

  /** The sum of `message_count` over the records the domain selects. */
  function Total(records: seq<AgentUsageRecord>, dayStart: int, owner: Option<Owner>): int {
    if records == [] then 0
    else Contribution(records[0], dayStart, owner) + Total(records[1..], dayStart, owner)
  }

  /** A total is never negative when no message count is. */
  lemma {:induction false} TotalNonNegative(records: seq<AgentUsageRecord>, dayStart: int, owner: Option<Owner>)
    requires forall i :: 0 <= i < |records| ==> records[i].messageCount >= 0
    ensures Total(records, dayStart, owner) >= 0
  {
    if records != [] {
      TotalNonNegative(records[1..], dayStart, owner);
    }
  }

  /** With non-negative counts, one owner's daily total never exceeds the global one. */
  lemma {:induction false} OwnerTotalAtMostGlobal(records: seq<AgentUsageRecord>, dayStart: int, owner: Owner)
    requires forall i :: 0 <= i < |records| ==> records[i].messageCount >= 0
    ensures Total(records, dayStart, Some(owner)) <= Total(records, dayStart, None)
  {
    if records != [] {
      OwnerTotalAtMostGlobal(records[1..], dayStart, owner);
    }
  }

  /** Replacing one record changes a total by the difference of the two records' contributions. */
  lemma {:induction false} TotalAfterUpdate(records: seq<AgentUsageRecord>, i: nat, r: AgentUsageRecord,
                                            dayStart: int, owner: Option<Owner>)
    requires i < |records|
    ensures Total(records[i := r], dayStart, owner) ==
            Total(records, dayStart, owner) - Contribution(records[i], dayStart, owner) + Contribution(r, dayStart, owner)
  {
    if i > 0 {
      assert records[i := r][1..] == records[1..][i - 1 := r];
      TotalAfterUpdate(records[1..], i - 1, r, dayStart, owner);
    } else {
      assert records[i := r][1..] == records[1..];
    }
  }

  /** The result dictionary of both limit checks. */
  datatype LimitStatus = LimitStatus(allowed: bool, currentCount: int, remaining: int, limit: int)

  /** No limit configured: always allowed, nothing counted, `remaining` -1 for "unlimited". */
  const Unlimited := LimitStatus(true, 0, -1, 0)

  /**
   * The decision shared by the two checks: a limit of 0 or less allows everything; otherwise the
   * total is allowed while below the limit, and `remaining` is what is left of it, never negative.
   */
  function LimitDecision(total: int, limit: int): (s: LimitStatus)
    ensures limit <= 0 ==> s == Unlimited
    ensures limit > 0 ==> s.currentCount == total && s.limit == limit && s.remaining >= 0 &&
                          (s.allowed <==> total < limit) && (s.allowed <==> s.remaining > 0) &&
                          (s.allowed ==> s.currentCount + s.remaining == limit)
  {
    if limit <= 0 then Unlimited
    else LimitStatus(total < limit, total, if limit - total > 0 then limit - total else 0, limit)
  }

  /** `check_daily_limit`: the owner's active messages of today against the daily limit. */
  function CheckDailyLimit(records: seq<AgentUsageRecord>, now: int, userId: nat, publicUserId: Option<string>,
                           dailyLimit: int): (s: LimitStatus)
    ensures dailyLimit <= 0 ==> s == Unlimited
    ensures dailyLimit > 0 ==> s.limit == dailyLimit &&
                               s.currentCount == Total(records, DayStart(now), Some(OwnerOf(userId, publicUserId))) &&
                               (s.allowed <==> s.currentCount < dailyLimit) &&
                               s.remaining == (if s.allowed then dailyLimit - s.currentCount else 0)
  {
    LimitDecision(Total(records, DayStart(now), Some(OwnerOf(userId, publicUserId))), dailyLimit)
  }

  /** `check_global_limit`: everyone's active messages of today against the global limit. */
  function CheckGlobalLimit(records: seq<AgentUsageRecord>, now: int, globalLimit: int): (s: LimitStatus)
    ensures globalLimit <= 0 ==> s == Unlimited
    ensures globalLimit > 0 ==> s.limit == globalLimit && s.currentCount == Total(records, DayStart(now), None) &&
                                (s.allowed <==> s.currentCount < globalLimit) &&
                                s.remaining == (if s.allowed then globalLimit - s.currentCount else 0)
  {
    LimitDecision(Total(records, DayStart(now), None), globalLimit)
  }

  /**
   * With non-negative counts and equal limits, a visitor over the daily limit is over the global
   * one too, and the global count is never below the visitor's.
   */
  lemma DailyRefusalImpliesGlobalRefusal(records: seq<AgentUsageRecord>, now: int, userId: nat,
                                         publicUserId: Option<string>, limit: int)
    requires forall i :: 0 <= i < |records| ==> records[i].messageCount >= 0
    ensures CheckDailyLimit(records, now, userId, publicUserId, limit).currentCount <=
            CheckGlobalLimit(records, now, limit).currentCount
    ensures !CheckDailyLimit(records, now, userId, publicUserId, limit).allowed ==>
            !CheckGlobalLimit(records, now, limit).allowed
  {
    OwnerTotalAtMostGlobal(records, DayStart(now), OwnerOf(userId, publicUserId));
  }

  // ---------------------------------------------------------------------------
  // Sessions

  /** The record `search([('session_id', '=', id)], limit=1)` returns: the first with that id. */
  function FindSession(records: seq<AgentUsageRecord>, sessionId: string): (found: Option<nat>)
    ensures found.Some? ==> found.value < |records| && records[found.value].sessionId == sessionId &&
                            forall j :: 0 <= j < found.value ==> records[j].sessionId != sessionId
    ensures found.None? ==> forall j :: 0 <= j < |records| ==> records[j].sessionId != sessionId
  {
    if records == [] then None
    else if records[0].sessionId == sessionId then Some(0)
    else match FindSession(records[1..], sessionId)
         case None => None
         case Some(j) => Some(j + 1)
  }

  /**
   * The agent usage records with the operations that update them in place. Every stored record
   * passes the identification check. The table starts empty and no method here inserts a record
   * (creation goes through the ORM's `create`, which is not part of this model), so the invariant
   * is only ever preserved by the in-place updates, never established by an insertion.
   */
  class AgentUsageTable {
    var records: seq<AgentUsageRecord>

    ghost predicate Valid()
      reads this
    {
      forall i :: 0 <= i < |records| ==> CheckUserIdentification(records[i]).None?
    }

    constructor ()
      ensures records == [] && Valid()
    {
      records := [];
    }

    /** `get_session_message_count`: the first matching record's count, or 0 when none matches. */
    function GetSessionMessageCount(sessionId: string): (n: int)
      reads this
      ensures FindSession(records, sessionId).None? ==> n == 0
      ensures FindSession(records, sessionId).Some? ==> n == records[FindSession(records, sessionId).value].messageCount
    {
      match FindSession(records, sessionId)
      case None => 0
      case Some(i) => records[i].messageCount
    }

    /**
     * `increment_session_messages`: one more message on the first record of the session, and the
     * new count; nothing (Python's `False`) and no change when the session is unknown.
     */
    method IncrementSessionMessages(sessionId: string) returns (newCount: Option<int>)
      requires Valid()
      modifies this
      ensures Valid()
      ensures FindSession(old(records), sessionId).None? ==> newCount.None? && records == old(records)
      ensures FindSession(old(records), sessionId).Some? ==>
                var i := FindSession(old(records), sessionId).value;
                records == old(records)[i := old(records)[i].(messageCount := old(records)[i].messageCount + 1)] &&
                newCount == Some(old(records)[i].messageCount + 1)
      ensures GetSessionMessageCount(sessionId) ==
              old(GetSessionMessageCount(sessionId)) + (if newCount.Some? then 1 else 0)
    {
      var found := FindSession(records, sessionId);
      if found.None? {
        return None;
      }
      var i := found.value;
      records := records[i := records[i].(messageCount := records[i].messageCount + 1)];
      newCount := Some(records[i].messageCount);
      SessionStaysFirst(old(records), i, records[i], sessionId);
    }

    /**
     * `end_session`: the first record of the session becomes inactive with `now` as its end date,
     * and the result says whether one was found; nothing else changes.
     */
    method EndSession(sessionId: string, now: int) returns (ended: bool)
      requires Valid()
      modifies this
      ensures Valid()
      ensures ended <==> FindSession(old(records), sessionId).Some?
      ensures !ended ==> records == old(records)
      ensures ended ==>
                var i := FindSession(old(records), sessionId).value;
                records == old(records)[i := old(records)[i].(isActive := false, sessionEndDate := Some(now))]
    {
      var found := FindSession(records, sessionId);
      if found.None? {
        return false;
      }
      var i := found.value;
      records := records[i := records[i].(isActive := false, sessionEndDate := Some(now))];
      ended := true;
    }
  }

  /** Updating the first record of a session with one of the same session keeps it first. */
  lemma {:induction false} SessionStaysFirst(records: seq<AgentUsageRecord>, i: nat, r: AgentUsageRecord, sessionId: string)
    requires FindSession(records, sessionId) == Some(i)
    requires r.sessionId == sessionId
    ensures FindSession(records[i := r], sessionId) == Some(i)
  {
    if i > 0 {
      assert records[i := r][1..] == records[1..][i - 1 := r];
      SessionStaysFirst(records[1..], i - 1, r, sessionId);
    }
  }

  /**
   * An ended session's messages stop counting: after `end_session` the daily and global totals
   * drop by exactly what its record contributed, and everything else stays as it was.
   */
  lemma EndedSessionStopsCounting(records: seq<AgentUsageRecord>, sessionId: string, now: int,
                                  dayStart: int, owner: Option<Owner>)
    requires FindSession(records, sessionId).Some?
    ensures var i := FindSession(records, sessionId).value;
            var ended := records[i := records[i].(isActive := false, sessionEndDate := Some(now))];
            Total(ended, dayStart, owner) == Total(records, dayStart, owner) - Contribution(records[i], dayStart, owner)
  {
    var i := FindSession(records, sessionId).value;
    TotalAfterUpdate(records, i, records[i].(isActive := false, sessionEndDate := Some(now)), dayStart, owner);
  }

  /**
   * A new message on a session adds one to every total that counts its record and leaves the
   * others unchanged.
   */
  lemma IncrementCountsOnce(records: seq<AgentUsageRecord>, sessionId: string, dayStart: int, owner: Option<Owner>)
    requires FindSession(records, sessionId).Some?
    ensures var i := FindSession(records, sessionId).value;
            var incremented := records[i := records[i].(messageCount := records[i].messageCount + 1)];
            Total(incremented, dayStart, owner) ==
            Total(records, dayStart, owner) + (if Counted(records[i], dayStart, owner) then 1 else 0)
  {
    var i := FindSession(records, sessionId).value;
    TotalAfterUpdate(records, i, records[i].(messageCount := records[i].messageCount + 1), dayStart, owner);
  }
}
