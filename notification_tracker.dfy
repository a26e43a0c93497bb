/**
 * Rate limiting of desktop notifications: a history of what was sent, keyed
 * by notification type and message, and a cooldown per type. Times are
 * microsecond instants and cooldowns microsecond durations.
 */
module NotificationTracker {
  import opened Wrappers
  import opened Timestamps

  /**
   * `NotificationType`. Its members are told apart by value only, and
   * TIME_WARNING and INACTIVITY_ALERT share the value "normal", so Python makes
   * the second an alias of the first: there are exactly two types.
   */
  datatype NotificationType = Normal | Critical

  const TIME_WARNING: NotificationType := Normal
  const INACTIVITY_ALERT: NotificationType := Normal
  const ERROR: NotificationType := Critical

  /** `notification_type.name`: an alias reports the name of the member it aliases. */
  function Name(t: NotificationType): string
  {
    match t
    case Normal => "TIME_WARNING"
    case Critical => "ERROR"
  }

  /** A history key, `(notification_type, message)`. */
  datatype Key = Key(kind: NotificationType, message: string)

  /** A history entry, `(timestamp, count)`. */
  datatype Entry = Entry(lastSent: int, count: nat)

  type History = map<Key, Entry>
  type Cooldowns = map<NotificationType, int>

  const DEFAULT_COOLDOWN: int := 300 * SECOND

  /**
   * The default cooldown table, written as the source writes its dict
   * literal. Since the first two keys are one and the same, the later entry
   * wins: both "normal" types wait ten minutes.
   */
  function DefaultCooldowns(): (r: Cooldowns)
    ensures r.Keys == {Normal, Critical}
    ensures r[TIME_WARNING] == 600 * SECOND && r[INACTIVITY_ALERT] == 600 * SECOND
    ensures r[ERROR] == 180 * SECOND
  {
    map[TIME_WARNING := 300 * SECOND, INACTIVITY_ALERT := 600 * SECOND, ERROR := 180 * SECOND]
  }

  /** `get_cooldown_period` over a table: the configured value, else the default. */
  function CooldownOf(cooldowns: Cooldowns, default: int, kind: NotificationType): int
  {
    if kind in cooldowns then cooldowns[kind] else default
  }

  /** An entry has expired once strictly more than its cooldown has passed. */
  predicate Expired(e: Entry, cooldown: int, now: int)
  {
    now - e.lastSent > cooldown
  }

  /** The history that `_cleanup_expired_entries` leaves: every entry that has not expired. */
  function Live(h: History, cooldowns: Cooldowns, default: int, now: int): (r: History)
    ensures forall k :: k in r <==> k in h && !Expired(h[k], CooldownOf(cooldowns, default, k.kind), now)
    ensures forall k | k in r :: r[k] == h[k]
  {
    map k | k in h && !Expired(h[k], CooldownOf(cooldowns, default, k.kind), now) :: h[k]
  }

  /** The rate-limiting rule: an entry for `key` whose cooldown has not fully passed blocks it. */
  predicate Blocks(h: History, cooldowns: Cooldowns, default: int, key: Key, now: int)
  {
    key in h && now - h[key].lastSent < CooldownOf(cooldowns, default, key.kind)
  }

  /** `record_notification_sent` on a history value. */
  function Recorded(h: History, key: Key, now: int): (r: History)
    ensures r.Keys == h.Keys + {key}
    ensures r[key].lastSent == now
    ensures r[key].count == if key in h then h[key].count + 1 else 1
    ensures forall k | k in h && k != key :: r[k] == h[k]
  {
    h[key := Entry(now, if key in h then h[key].count + 1 else 1)]
  }

  /** Cleaning up first never changes the answer: whatever blocks has not expired. */
  lemma CleanupKeepsBlocks(h: History, cooldowns: Cooldowns, default: int, key: Key, now: int)
    ensures Blocks(Live(h, cooldowns, default, now), cooldowns, default, key, now)
        <==> Blocks(h, cooldowns, default, key, now)
  {
    if Blocks(h, cooldowns, default, key, now) {
      assert key in Live(h, cooldowns, default, now);
    }
  }

  /** Right after a send is recorded, the same notification is blocked iff its cooldown is positive. */
  lemma RecordedBlocks(h: History, cooldowns: Cooldowns, default: int, key: Key, now: int)
    ensures Blocks(Recorded(h, key, now), cooldowns, default, key, now)
        <==> CooldownOf(cooldowns, default, key.kind) > 0
  {
  }

  /** Tracking is per message: recording one key never changes whether another is blocked. */
  lemma RecordedIsolated(h: History, cooldowns: Cooldowns, default: int, key: Key, other: Key, now: int, later: int)
    requires other != key
    ensures Blocks(Recorded(h, key, now), cooldowns, default, other, later)
        <==> Blocks(h, cooldowns, default, other, later)
  {
  }

  /** Once a key is forced through, it is not blocked at any time. */
  lemma ForcedNotBlocked(h: History, cooldowns: Cooldowns, default: int, key: Key, now: int)
    ensures !Blocks(h - {key}, cooldowns, default, key, now)
  {
  }

  /** What `get_notification_status` reports. */
  datatype NotificationStatus = NotificationStatus(
    typeName: string,
    message: string,
    isAllowed: bool,
    lastSentTime: Option<int>,
    timeSinceLast: Option<int>,
    cooldownPeriod: int,
    timeRemaining: int,
    sendCount: nat,
    status: string)

  /** `message[:100]`. */
  function Clip(message: string): (r: string)
    ensures |r| <= 100 && |r| <= |message| && r == message[..|r|]
    ensures |message| <= 100 ==> r == message
  {
    if |message| <= 100 then message else message[..100]
  }

  /** `get_notification_status` over a history and a cooldown table; it reads without cleaning up. */
  function StatusOf(h: History, cooldowns: Cooldowns, default: int, kind: NotificationType, message: string, now: int)
    : (r: NotificationStatus)
    ensures r.cooldownPeriod == CooldownOf(cooldowns, default, kind)
    ensures r.timeRemaining >= 0
    ensures r.isAllowed <==> r.timeRemaining == 0
    ensures r.status == (if r.isAllowed then "allowed" else "blocked")
    ensures Key(kind, message) !in h ==> r.isAllowed && r.sendCount == 0 && r.lastSentTime.None?
    ensures Key(kind, message) in h ==>
      && r.sendCount == h[Key(kind, message)].count
      && r.timeSinceLast == Some(now - h[Key(kind, message)].lastSent)
      && (r.timeRemaining == 0 || r.timeRemaining == r.cooldownPeriod - r.timeSinceLast.value)
      && r.timeRemaining >= r.cooldownPeriod - r.timeSinceLast.value
  {
    var key := Key(kind, message);
    var cooldown := CooldownOf(cooldowns, default, kind);
    if key in h then
      var since := now - h[key].lastSent;
      var remaining := if cooldown - since > 0 then cooldown - since else 0;
      NotificationStatus(Name(kind), Clip(message), remaining == 0, Some(h[key].lastSent), Some(since),
                         cooldown, remaining, h[key].count, if remaining > 0 then "blocked" else "allowed")
    else
      NotificationStatus(Name(kind), Clip(message), true, None, None, cooldown, 0, 0, "allowed")
  }

  /** The status report agrees with the rate-limiting decision, before or after cleanup. */
  lemma StatusAgreesWithBlocks(h: History, cooldowns: Cooldowns, default: int, kind: NotificationType, message: string, now: int)
    ensures StatusOf(h, cooldowns, default, kind, message, now).isAllowed
        <==> !Blocks(h, cooldowns, default, Key(kind, message), now)
    ensures StatusOf(h, cooldowns, default, kind, message, now).isAllowed
        <==> !Blocks(Live(h, cooldowns, default, now), cooldowns, default, Key(kind, message), now)
  {
    CleanupKeepsBlocks(h, cooldowns, default, Key(kind, message), now);
  }

  /** `NotificationTracker`: the sent-notification history and the cooldown table. */
  class Tracker {
    const defaultCooldown: int
    var cooldowns: Cooldowns
    var history: History

    /** An empty custom table counts as none: the defaults apply. */
    constructor(defaultCooldown: int, custom: Cooldowns)
      ensures this.defaultCooldown == defaultCooldown
      ensures cooldowns == if custom == map[] then DefaultCooldowns() else custom
      ensures history == map[]
    {
      this.defaultCooldown := defaultCooldown;
      cooldowns := if custom == map[] then DefaultCooldowns() else custom;
      history := map[];
    }

    /** `get_cooldown_period`. */
    function Cooldown(kind: NotificationType): (r: int)
      reads this
      ensures kind in cooldowns ==> r == cooldowns[kind]
      ensures kind !in cooldowns ==> r == defaultCooldown
    {
      CooldownOf(cooldowns, defaultCooldown, kind)
    }

    /** `_cleanup_expired_entries`: collect the expired keys, then delete them one by one. */
    method CleanupExpiredEntries(now: int)
      modifies this`history
      ensures history == Live(old(history), cooldowns, defaultCooldown, now)
    {
      var expired: seq<Key> := [];
      var pending := history.Keys;
      while pending != {}
        invariant pending <= history.Keys
        invariant forall k | k in expired :: k in history && Expired(history[k], Cooldown(k.kind), now)
        invariant forall k | k in history && k !in pending && Expired(history[k], Cooldown(k.kind), now) :: k in expired
        invariant history == old(history)
        decreases |pending|
      {
        var k :| k in pending;
        if now - history[k].lastSent > Cooldown(k.kind) {
          expired := expired + [k];
        }
        pending := pending - {k};
      }
      var i := 0;
      while i < |expired|
        invariant 0 <= i <= |expired|
        invariant forall k :: k in history <==> k in old(history) && k !in expired[..i]
        invariant forall k | k in history :: history[k] == old(history)[k]
      {
        assert expired[..i + 1] == expired[..i] + [expired[i]];
        history := history - {expired[i]};
        i := i + 1;
      }
      assert expired[..i] == expired;
      assert history.Keys == Live(old(history), cooldowns, defaultCooldown, now).Keys;
    }

    /** `should_send_notification`: clean up, then answer; nothing is recorded. */
    method ShouldSendNotification(kind: NotificationType, message: string, now: int) returns (ok: bool)
      modifies this`history
      ensures history == Live(old(history), cooldowns, defaultCooldown, now)
      ensures ok <==> !Blocks(old(history), cooldowns, defaultCooldown, Key(kind, message), now)
    {
      CleanupKeepsBlocks(history, cooldowns, defaultCooldown, Key(kind, message), now);
      CleanupExpiredEntries(now);
      var key := Key(kind, message);
      var cooldown := Cooldown(kind);
      if key in history {
        if now - history[key].lastSent < cooldown {
          return false;
        }
      }
      return true;
    }

    /** `record_notification_sent`: stamp the key with `now` and count one more send. */
    method RecordNotificationSent(kind: NotificationType, message: string, now: int)
      modifies this`history
      ensures history == Recorded(old(history), Key(kind, message), now)
    {
      var key := Key(kind, message);
      if key in history {
        history := history[key := Entry(now, history[key].count + 1)];
      } else {
        history := history[key := Entry(now, 1)];
      }
    }

    /** `clear_history`. */
    method ClearHistory()
      modifies this`history
      ensures history == map[]
    {
      history := map[];
    }

    /** `set_cooldown_period`: only the given type's cooldown changes. */
    method SetCooldownPeriod(kind: NotificationType, cooldown: int)
      modifies this`cooldowns
      ensures cooldowns == old(cooldowns)[kind := cooldown]
      ensures Cooldown(kind) == cooldown
      ensures forall t | t != kind :: Cooldown(t) == old(Cooldown(t))
    {
      cooldowns := cooldowns[kind := cooldown];
    }

    /** `force_allow_notification`: forget this one key. */
    method ForceAllowNotification(kind: NotificationType, message: string)
      modifies this`history
      ensures history == old(history) - {Key(kind, message)}
      ensures !Blocks(history, cooldowns, defaultCooldown, Key(kind, message), 0)
    {
      var key := Key(kind, message);
      if key in history {
        history := history - {key};
      }
    }

    /** `get_notification_status`. */
    function Status(kind: NotificationType, message: string, now: int): (r: NotificationStatus)
      reads this
      ensures r.isAllowed <==> !Blocks(history, cooldowns, defaultCooldown, Key(kind, message), now)
    {
      StatusAgreesWithBlocks(history, cooldowns, defaultCooldown, kind, message, now);
      StatusOf(history, cooldowns, defaultCooldown, kind, message, now)
    }

    /** `set_dynamic_cooldown`: the escalation factor and the ceiling are ignored; only the base is set. */
    method SetDynamicCooldown(kind: NotificationType, base: int, escalationFactor: real, maxCooldown: int)
      modifies this`cooldowns
      ensures cooldowns == old(cooldowns)[kind := base]
    {
      SetCooldownPeriod(kind, base);
    }
  }
}
