/**
  The warning store of warnings_.py: one record per violator, keyed by the
  decimal rendering of the user id, kept in insertion order (a Python dict
  iterates in that order, which the admin lookup and the logs export see),
  and written out as a whole after every change.
 */
module Warnings {
  import opened Text

  /** One violator's record: the five fields of the stored dictionary. */
  datatype UserRecord = UserRecord(
    username: string,
    banned: bool,
    messages: seq<string>,
    count: int,
    maxWarnings: int)

  /** The store's whole content: its keys in insertion order and the records. */
  datatype Snapshot = Snapshot(order: seq<string>, records: map<string, UserRecord>)

  /** A dictionary: every key listed once, and exactly the keys that have a record. */
  ghost predicate WellFormed(s: Snapshot) {
    && (forall k :: k in s.records <==> k in s.order)
    && (forall i, j :: 0 <= i < j < |s.order| ==> s.order[i] != s.order[j])
  }

  /** The record handed out for an id that has none. */
  function DefaultRecord(standardCount: int): UserRecord {
    UserRecord("unknown", false, [], 0, standardCount)
  }

  /** `str(user_id)`: the key a user's record is stored under. */
  function Key(userId: int): string {
    IntToString(userId)
  }

  /** `username or "unknown"`. */
  function NameOrUnknown(username: string): (r: string)
    ensures r != ""
    ensures username != "" ==> r == username
    ensures username == "" ==> r == "unknown"
  {
    if username == "" then "unknown" else username
  }

  /** `dict.get(key, default record)`. */
  function Lookup(records: map<string, UserRecord>, key: string, standardCount: int): UserRecord {
    if key in records then records[key] else DefaultRecord(standardCount)
  }

  /** The records after one more violation is logged under `key`. */
  function WithViolation(records: map<string, UserRecord>, key: string, username: string,
                         message: string, standardCount: int): (r: map<string, UserRecord>)
    ensures r.Keys == records.Keys + {key}
    ensures var before := Lookup(records, key, standardCount);
      && r[key].count == before.count + 1
      && r[key].messages == before.messages + [message]
      && r[key].username == NameOrUnknown(username)
      && r[key].banned == before.banned
      && r[key].maxWarnings == before.maxWarnings
    ensures forall k :: k in records && k != key ==> r[k] == records[k]
  {
    var before := Lookup(records, key, standardCount);
    records[key := before.(username := NameOrUnknown(username),
                           messages := before.messages + [message],
                           count := before.count + 1)]
  }

  /** A first violation creates the default record with one message, a count of one and the standard threshold. */
  lemma FirstViolation(records: map<string, UserRecord>, key: string, username: string,
                       message: string, standardCount: int)
    requires key !in records
    ensures WithViolation(records, key, username, message, standardCount)[key]
            == UserRecord(NameOrUnknown(username), false, [message], 1, standardCount)
  {
  }

  /** The records after the count under `key` is reset (nothing happens to an absent key). */
  function WithCountReset(records: map<string, UserRecord>, key: string): (r: map<string, UserRecord>)
    ensures r.Keys == records.Keys
    ensures key in records ==> r[key] == records[key].(count := 0)
    ensures forall k :: k in records && k != key ==> r[k] == records[k]
  {
    if key in records then records[key := records[key].(count := 0)] else records
  }

  /** The records after the ban flag under an existing `key` is set to `banned`. */
  function WithBanFlag(records: map<string, UserRecord>, key: string, banned: bool): (r: map<string, UserRecord>)
    requires key in records
    ensures r.Keys == records.Keys
    ensures r[key].banned == banned
    ensures r[key].(banned := records[key].banned) == records[key]
    ensures forall k :: k in records && k != key ==> r[k] == records[k]
  {
    records[key := records[key].(banned := banned)]
  }

  /** Setting the ban flag twice leaves what setting it once left. */
  lemma BanFlagIdempotent(records: map<string, UserRecord>, key: string, banned: bool)
    requires key in records
    ensures WithBanFlag(WithBanFlag(records, key, banned), key, banned) == WithBanFlag(records, key, banned)
  {
  }

  /** Logging a violation under a canonical key keeps every key canonical. */
  lemma ViolationKeepsKeysCanonical(records: map<string, UserRecord>, userId: int, username: string,
                                    message: string, standardCount: int)
    requires forall k :: k in records ==> Canonical(k)
    ensures forall k :: k in WithViolation(records, Key(userId), username, message, standardCount) ==> Canonical(k)
  {
    RenderedIsCanonical(userId);
  }

  /**
    `WarningManager`: the records in memory and, as a ghost, the last
    snapshot written to the backing file.
   */
  class WarningManager {
    /** STANDART_COUNT: the threshold given to records created here. */
    const standardCount: int
    var records: map<string, UserRecord>
    /** The keys in insertion order. */
    var order: seq<string>
    /** What the last `Save` wrote (at start: what was loaded). */
    ghost var saved: Snapshot

    /**
      The object invariant: the records form a dictionary, and the last
      snapshot written is what is in memory (every change is saved).
     */
    ghost predicate Valid()
      reads this
    {
      WellFormed(Snapshot(order, records)) && saved == Snapshot(order, records)
    }

    /**
      `_load`: `loaded` is the decoded file, or `None` when the file is
      missing or cannot be read, which leaves the store empty.
     */
    constructor (loaded: Option<Snapshot>, standardCount: int)
      requires loaded.Some? ==> WellFormed(loaded.value)
      ensures Valid()
      ensures this.standardCount == standardCount
      ensures loaded.Some? ==> order == loaded.value.order && records == loaded.value.records
      ensures loaded.None? ==> order == [] && records == map[]
    {
      this.standardCount := standardCount;
      if loaded.Some? {
        order := loaded.value.order;
        records := loaded.value.records;
      } else {
        order := [];
        records := map[];
      }
      saved := if loaded.Some? then loaded.value else Snapshot([], map[]);
    }

    /** `_save`: the whole content is written as one snapshot. */
    method Save()
      modifies this`saved
      ensures saved == Snapshot(order, records)
    {
      saved := Snapshot(order, records);
    }

    /** `get_user`: the stored record, or the default one; never inserts. */
    function GetUser(userId: int): (r: UserRecord)
      reads this
      ensures Key(userId) in records ==> r == records[Key(userId)]
      ensures Key(userId) !in records ==>
        r.username == "unknown" && !r.banned && r.messages == [] && r.count == 0
        && r.maxWarnings == standardCount
    {
      Lookup(records, Key(userId), standardCount)
    }

    /** `is_banned`: false for an id with no record. */
    function IsBanned(userId: int): (b: bool)
      reads this
      ensures b <==> Key(userId) in records && records[Key(userId)].banned
    {
      GetUser(userId).banned
    }

    /** `get_warning_status`: the count and the threshold of the user's record or of the default one. */
    function GetWarningStatus(userId: int): (r: (int, int))
      reads this
      ensures Key(userId) !in records ==> r == (0, standardCount)
      ensures Key(userId) in records ==> r == (records[Key(userId)].count, records[Key(userId)].maxWarnings)
    {
      (GetUser(userId).count, GetUser(userId).maxWarnings)
    }

    /** `get_logs`: the store's own dictionary, in insertion order. */
    function GetLogs(): (r: Snapshot)
      reads this
      requires Valid()
      ensures WellFormed(r)
      ensures r.records == records && r.order == order
    {
      Snapshot(order, records)
    }

    /**
      `log_violation`: creates the record if missing, records the latest
      name, appends the message, increments the count, saves, and returns
      the new count.
     */
    method LogViolation(userId: int, username: string, message: string) returns (count: int)
      requires Valid()
      modifies this
      ensures Valid()
      ensures records == WithViolation(old(records), Key(userId), username, message, standardCount)
      ensures order == if Key(userId) in old(records) then old(order) else old(order) + [Key(userId)]
      ensures count == old(GetUser(userId)).count + 1 == records[Key(userId)].count
    {
      var key := Key(userId);
      if key !in records {
        order := order + [key];
      }
      records := WithViolation(records, key, username, message, standardCount);
      Save();
      count := records[key].count;
    }

    /** `reset_count`: zero the count of an existing record and save; otherwise do nothing. */
    method ResetCount(userId: int)
      requires Valid()
      modifies this
      ensures Valid() && order == old(order)
      ensures records == WithCountReset(old(records), Key(userId))
      ensures Key(userId) !in old(records) ==> unchanged(this)
    {
      var key := Key(userId);
      if key in records {
        records := WithCountReset(records, key);
        Save();
      }
    }

    /** `ban_user`: indexes the dictionary directly, so the record must exist. */
    method BanUser(userId: int)
      requires Valid() && Key(userId) in records
      modifies this
      ensures Valid() && order == old(order)
      ensures records == WithBanFlag(old(records), Key(userId), true)
      ensures IsBanned(userId)
    {
      records := WithBanFlag(records, Key(userId), true);
      Save();
    }

    /** `unban_user`: clear the ban of an existing record and save; otherwise do nothing. */
    method UnbanUser(userId: int)
      requires Valid()
      modifies this
      ensures Valid() && order == old(order)
      ensures Key(userId) in old(records) ==> records == WithBanFlag(old(records), Key(userId), false)
      ensures Key(userId) !in old(records) ==> unchanged(this)
      ensures !IsBanned(userId)
    {
      var key := Key(userId);
      if key in records {
        records := WithBanFlag(records, key, false);
        Save();
      }
    }
  }

}
