/**
 * A key-value server of the Redis family as the proxy uses it: string keys and values, each entry
 * with an optional expiry instant, GET and SETEX, and a log of the commands sent to it.
 * Times are milliseconds since the epoch, handed in by the caller.
 */
module KeyValue {
  import opened Wrappers
  import opened Http

  /** A stored value and the instant it expires at, when it has a time to live. */
  datatype Entry = Entry(value: string, expiresAtMs: Option<int>)

  /** The commands the proxy sends. */
  datatype Command = GetCommand(key: string) | SetExCommand(key: string, ttlSeconds: int, value: string)

  /** The value GET answers at `nowMs`: the entry's value until it expires, nothing before it is set or after. */
  function Visible(entries: map<string, Entry>, key: string, nowMs: int): (r: Option<string>)
    ensures r.Some? <==> key in entries && (entries[key].expiresAtMs.None? || nowMs < entries[key].expiresAtMs.value)
    ensures r.Some? ==> r.value == entries[key].value
  {
    if key !in entries then None
    else
      var e := entries[key];
      if e.expiresAtMs.None? || nowMs < e.expiresAtMs.value then Some(e.value) else None
  }

  /** The entries after SETEX: the key holds the value for `ttlSeconds` from now. */
  function Stored(entries: map<string, Entry>, key: string, ttlSeconds: int, value: string, nowMs: int): map<string, Entry> {
    entries[key := Entry(value, Some(nowMs + ttlSeconds * 1000))]
  }

  /**
   * A value stored with SETEX is read back until its time to live has run out, and then no
   * more; every other key reads as before.
   */
  lemma StoredThenVisible(entries: map<string, Entry>, key: string, ttlSeconds: int, value: string, nowMs: int, laterMs: int)
    ensures Visible(Stored(entries, key, ttlSeconds, value, nowMs), key, laterMs)
            == if laterMs < nowMs + ttlSeconds * 1000 then Some(value) else None
    ensures forall other :: other != key ==>
              Visible(Stored(entries, key, ttlSeconds, value, nowMs), other, laterMs) == Visible(entries, other, laterMs)
  {
  }

  /** The error SETEX answers for a time to live that is not positive. */
  const INVALID_EXPIRE := Exception(OtherException, "ERR invalid expire time in 'setex' command")

  /** The error every command meets when the server cannot be reached. */
  const UNREACHABLE := Exception(OtherException, "server unreachable")

  /**
   * A server connection. `reachable` says whether commands reach the server; one that does not
   * throws on every command. `issued` logs every command sent, answered or not.
   */
  class Store {
    const reachable: bool
    var entries: map<string, Entry>
    var issued: seq<Command>

    constructor (reachable: bool, entries: map<string, Entry>)
      ensures this.reachable == reachable && this.entries == entries && issued == []
    {
      this.reachable := reachable;
      this.entries := entries;
      issued := [];
    }

    /** GET: the visible value, or nothing; throws when the server is out of reach. */
    method Get(key: string, nowMs: int) returns (r: Result<Option<string>, Exception>)
      modifies this
      ensures issued == old(issued) + [GetCommand(key)]
      ensures entries == old(entries)
      ensures r == if reachable then Success(Visible(entries, key, nowMs)) else Failure(UNREACHABLE)
    {
      issued := issued + [GetCommand(key)];
      if reachable {
        r := Success(Visible(entries, key, nowMs));
      } else {
        r := Failure(UNREACHABLE);
      }
    }

    /** SETEX: stores the value with a time to live in seconds, which must be positive. */
    method SetEx(key: string, ttlSeconds: int, value: string, nowMs: int) returns (r: Result<(), Exception>)
      modifies this
      ensures issued == old(issued) + [SetExCommand(key, ttlSeconds, value)]
      ensures !reachable ==> r == Failure(UNREACHABLE) && entries == old(entries)
      ensures reachable && ttlSeconds <= 0 ==> r == Failure(INVALID_EXPIRE) && entries == old(entries)
      ensures reachable && ttlSeconds > 0 ==> r == Success(()) && entries == Stored(old(entries), key, ttlSeconds, value, nowMs)
    {
      issued := issued + [SetExCommand(key, ttlSeconds, value)];
      if !reachable {
        r := Failure(UNREACHABLE);
      } else if ttlSeconds <= 0 {
        r := Failure(INVALID_EXPIRE);
      } else {
        entries := Stored(entries, key, ttlSeconds, value, nowMs);
        r := Success(());
      }
    }
  }
}
