/**
 * The proxy's bookkeeping in Valkey: a readiness probe that is remembered once it passes, and
 * the `last_seen:<namespace>:<app>` entries that record when each app was last proxied to.
 */
module Valkey {
  import opened Wrappers
  import opened Text
  import opened Http
  import opened KeyValue

  /** The key the probe reads; its value does not matter. */
  const PROBE_KEY := "dummy"

  /** A probe that answers faster than this many milliseconds passes. */
  const PROBE_LIMIT_MS := 100

  /** The default time to live of a last-seen entry: ninety days, in seconds. */
  const LAST_SEEN_TTL: int := 90 * 24 * 60 * 60

  const LAST_SEEN := "last_seen"

  /** The key that records when an app was last seen. */
  function LastSeenKey(namespace: string, appName: string): string {
    LAST_SEEN + ":" + namespace + ":" + appName
  }

  /**
   * How the scan reads a key back: split at every ':', and with at least three parts the second
   * names the namespace and the third the app (further parts are ignored; the first is not checked).
   */
  function KeyNames(key: string): (r: Option<(string, string)>)
    ensures r.Some? <==> |Split(key, ':')| >= 3
    ensures r.Some? ==> r.value == (Split(key, ':')[1], Split(key, ':')[2])
  {
    var parts := Split(key, ':');
    if |parts| >= 3 then Some((parts[1], parts[2])) else None
  }

  /** A key made of names without ':' reads back as those names. */
  lemma LastSeenKeyRoundTrip(namespace: string, appName: string)
    requires ':' !in namespace && ':' !in appName
    ensures Split(LastSeenKey(namespace, appName), ':') == [LAST_SEEN, namespace, appName]
    ensures KeyNames(LastSeenKey(namespace, appName)) == Some((namespace, appName))
  {
    assert ':' !in LAST_SEEN;
    assert LastSeenKey(namespace, appName) == LAST_SEEN + [':'] + (namespace + [':'] + appName);
    SplitAfterFirst(LAST_SEEN, ':', namespace + [':'] + appName);
    SplitAfterFirst(namespace, ':', appName);
    SplitNoDelimiter(appName, ':');
  }

  /** The timestamp a key holds at `nowMs`: its visible value, when that parses as a Long. */
  function ReadTimestamp(entries: map<string, Entry>, key: string, nowMs: int): Option<int> {
    var v := Visible(entries, key, nowMs);
    if v.None? then None else ParseLong(v.value)
  }

  /** Last-seen timestamps grouped by namespace, then by app. */
  type LastSeen = map<string, map<string, int>>

  /** `result.getOrPut(ns) { mutableMapOf() }[app] = timestamp`. */
  function Put(result: LastSeen, namespace: string, appName: string, timestamp: int): LastSeen {
    var inner := if namespace in result then result[namespace] else map[];
    result[namespace := inner[appName := timestamp]]
  }

  /** One scanned key: recorded when it has three parts and holds a Long, skipped otherwise. */
  function Record(result: LastSeen, key: string, entries: map<string, Entry>, nowMs: int): LastSeen {
    var names := KeyNames(key);
    if names.None? then result
    else
      var ts := ReadTimestamp(entries, key, nowMs);
      if ts.None? then result else Put(result, names.value.0, names.value.1, ts.value)
  }

  /** The keys of the scan pages, in the order the scan returned them. */
  function Flatten(pages: seq<seq<string>>): seq<string> {
    if pages == [] then [] else Flatten(pages[..|pages| - 1]) + pages[|pages| - 1]
  }

  /** What fetchAllLastSeen accumulates over the scanned keys, one key after another. */
  function LastSeenOf(keys: seq<string>, entries: map<string, Entry>, nowMs: int): LastSeen {
    if keys == [] then map[]
    else Record(LastSeenOf(keys[..|keys| - 1], entries, nowMs), keys[|keys| - 1], entries, nowMs)
  }

  /** A key names (namespace, app) and holds a timestamp. */
  predicate Holds(key: string, namespace: string, appName: string, entries: map<string, Entry>, nowMs: int) {
    KeyNames(key) == Some((namespace, appName)) && ReadTimestamp(entries, key, nowMs).Some?
  }

  /** The result holds a timestamp for (namespace, app). */
  predicate Found(r: LastSeen, namespace: string, appName: string) {
    namespace in r && appName in r[namespace]
  }

  /** Put adds one entry, overwrites it when present, and leaves every other entry alone. */
  lemma PutEffect(result: LastSeen, namespace: string, appName: string, timestamp: int, ns: string, app: string)
    ensures var r := Put(result, namespace, appName, timestamp);
            Found(r, ns, app) <==> (ns, app) == (namespace, appName) || Found(result, ns, app)
    ensures var r := Put(result, namespace, appName, timestamp);
            Found(r, namespace, appName) && r[namespace][appName] == timestamp
    ensures var r := Put(result, namespace, appName, timestamp);
            (ns, app) != (namespace, appName) && Found(result, ns, app) ==> r[ns][app] == result[ns][app]
    ensures var r := Put(result, namespace, appName, timestamp);
            (ns in result ==> result[ns] != map[]) ==> (ns in r ==> r[ns] != map[])
  {
  }

  /** Recording a key that does not hold a timestamp for (namespace, app) leaves that entry as it was. */
  lemma RecordOther(result: LastSeen, key: string, entries: map<string, Entry>, nowMs: int, namespace: string, appName: string)
    requires !Holds(key, namespace, appName, entries, nowMs)
    ensures var r := Record(result, key, entries, nowMs);
            (Found(r, namespace, appName) <==> Found(result, namespace, appName))
            && (Found(result, namespace, appName) ==> r[namespace][appName] == result[namespace][appName])
            && ((namespace in result ==> result[namespace] != map[]) ==> (namespace in r ==> r[namespace] != map[]))
  {
    var names := KeyNames(key);
    if names.Some? {
      var ts := ReadTimestamp(entries, key, nowMs);
      if ts.Some? {
        assert names.value != (namespace, appName);
        PutEffect(result, names.value.0, names.value.1, ts.value, namespace, appName);
      }
    }
  }

  /** Recording a key that holds a timestamp for (namespace, app) sets that entry to it. */
  lemma RecordSame(result: LastSeen, key: string, entries: map<string, Entry>, nowMs: int, namespace: string, appName: string)
    requires Holds(key, namespace, appName, entries, nowMs)
    ensures var r := Record(result, key, entries, nowMs);
            Found(r, namespace, appName) && r[namespace][appName] == ReadTimestamp(entries, key, nowMs).value
            && r[namespace] != map[]
  {
    PutEffect(result, namespace, appName, ReadTimestamp(entries, key, nowMs).value, namespace, appName);
  }

  /**
   * The result has an entry for (namespace, app) exactly when some scanned key names them and
   * holds a timestamp; the namespace is then not empty.
   */
  lemma {:induction false} LastSeenOfFound(keys: seq<string>, entries: map<string, Entry>, nowMs: int, namespace: string, appName: string)
    ensures var r := LastSeenOf(keys, entries, nowMs);
            Found(r, namespace, appName) <==> exists i :: 0 <= i < |keys| && Holds(keys[i], namespace, appName, entries, nowMs)
    ensures var r := LastSeenOf(keys, entries, nowMs);
            namespace in r ==> r[namespace] != map[]
  {
    if keys != [] {
      var init := keys[..|keys| - 1];
      var last := keys[|keys| - 1];
      LastSeenOfFound(init, entries, nowMs, namespace, appName);
      var before := LastSeenOf(init, entries, nowMs);
      assert forall i :: 0 <= i < |init| ==> keys[i] == init[i];
      if Holds(last, namespace, appName, entries, nowMs) {
        RecordSame(before, last, entries, nowMs, namespace, appName);
      } else {
        RecordOther(before, last, entries, nowMs, namespace, appName);
      }
    }
  }

  /** A later key for the same app overwrites an earlier one: the entry is the last such key's timestamp. */
  lemma {:induction false} LastSeenOfLatest(keys: seq<string>, entries: map<string, Entry>, nowMs: int, namespace: string, appName: string, i: nat)
    requires i < |keys| && Holds(keys[i], namespace, appName, entries, nowMs)
    requires forall j :: i < j < |keys| ==> !Holds(keys[j], namespace, appName, entries, nowMs)
    ensures var r := LastSeenOf(keys, entries, nowMs);
            Found(r, namespace, appName) && r[namespace][appName] == ReadTimestamp(entries, keys[i], nowMs).value
  {
    var init := keys[..|keys| - 1];
    var last := keys[|keys| - 1];
    var before := LastSeenOf(init, entries, nowMs);
    if i == |keys| - 1 {
      RecordSame(before, last, entries, nowMs, namespace, appName);
    } else {
      assert keys[i] == init[i];
      assert forall j :: i < j < |init| ==> init[j] == keys[j];
      LastSeenOfLatest(init, entries, nowMs, namespace, appName, i);
      RecordOther(before, last, entries, nowMs, namespace, appName);
    }
  }

  /** Extending the key sequence by one key records that key on top of the rest. */
  lemma LastSeenOfSnoc(keys: seq<string>, key: string, entries: map<string, Entry>, nowMs: int)
    ensures LastSeenOf(keys + [key], entries, nowMs) == Record(LastSeenOf(keys, entries, nowMs), key, entries, nowMs)
  {
    assert (keys + [key])[..|keys|] == keys;
  }

  /** The keys read so far, one key further. */
  lemma PrefixStep(seen: seq<string>, keys: seq<string>, k: nat)
    requires k < |keys|
    ensures (seen + keys[..k]) + [keys[k]] == seen + keys[..k + 1]
  {
    assert keys[..k + 1] == keys[..k] + [keys[k]];
  }

  lemma FlattenSnoc(pages: seq<seq<string>>, i: nat)
    requires i < |pages|
    ensures Flatten(pages[..i + 1]) == Flatten(pages[..i]) + pages[i]
  {
    assert pages[..i + 1][..i] == pages[..i];
  }

  /** The GET commands the scan loop sends: one per key of at least three parts. */
  function ReadsFor(keys: seq<string>): seq<Command> {
    if keys == [] then []
    else ReadsFor(keys[..|keys| - 1]) + (if KeyNames(keys[|keys| - 1]).Some? then [GetCommand(keys[|keys| - 1])] else [])
  }

  lemma ReadsForSnoc(keys: seq<string>, key: string)
    ensures ReadsFor(keys + [key]) == ReadsFor(keys) + (if KeyNames(key).Some? then [GetCommand(key)] else [])
  {
    assert (keys + [key])[..|keys|] == keys;
  }

  /**
   * What updateAppLastSeen writes, a scan reads back: a key written at `nowMs` and scanned
   * before it expires records the epoch second it was written at.
   */
  lemma WrittenThenRead(entries: map<string, Entry>, namespace: string, appName: string, ttlSeconds: int, nowMs: nat, laterMs: int)
    requires ':' !in namespace && ':' !in appName
    requires nowMs / 1000 <= LONG_MAX
    requires laterMs < nowMs + ttlSeconds * 1000
    ensures var key := LastSeenKey(namespace, appName);
            var written := Stored(entries, key, ttlSeconds, NatToString(nowMs / 1000), nowMs);
            Record(map[], key, written, laterMs) == map[namespace := map[appName := nowMs / 1000]]
  {
    var key := LastSeenKey(namespace, appName);
    LastSeenKeyRoundTrip(namespace, appName);
    StoredThenVisible(entries, key, ttlSeconds, NatToString(nowMs / 1000), nowMs, laterMs);
    NatToStringParses(nowMs / 1000);
  }

  /** The Valkey object: its connection and the memo of the first successful probe. */
  class Valkey {
    const commands: Store
    var initialCheckPassed: bool

    constructor (commands: Store)
      ensures this.commands == commands && !initialCheckPassed
    {
      this.commands := commands;
      initialCheckPassed := false;
    }

    /**
     * isReady: true without a query once a probe has passed. Otherwise one probe is sent; when
     * it is answered within the limit the flag is set, but this call still answers false.
     * `queryMillis` is how long the probe took.
     */
    method IsReady(nowMs: int, queryMillis: int) returns (ready: bool)
      modifies this, commands
      ensures commands.entries == old(commands.entries)
      ensures old(initialCheckPassed) ==> ready && initialCheckPassed && commands.issued == old(commands.issued)
      ensures !old(initialCheckPassed) ==>
                !ready && commands.issued == old(commands.issued) + [GetCommand(PROBE_KEY)]
                && initialCheckPassed == (commands.reachable && queryMillis < PROBE_LIMIT_MS)
    {
      if initialCheckPassed {
        ready := true;
      } else {
        var answer := commands.Get(PROBE_KEY, nowMs);
        if answer.Success? && queryMillis < PROBE_LIMIT_MS {
          initialCheckPassed := true;
        }
        ready := false;
      }
    }

    /**
     * updateAppLastSeen: SETEX of the current epoch second under the app's key. Every error is
     * swallowed, so a time to live that is not positive, or a server out of reach, writes nothing.
     */
    method UpdateAppLastSeen(appName: string, namespace: string, ttlSeconds: int, nowMs: nat)
      modifies commands
      ensures var key := LastSeenKey(namespace, appName);
              commands.issued == old(commands.issued) + [SetExCommand(key, ttlSeconds, NatToString(nowMs / 1000))]
              && commands.entries == if commands.reachable && ttlSeconds > 0
                                     then Stored(old(commands.entries), key, ttlSeconds, NatToString(nowMs / 1000), nowMs)
                                     else old(commands.entries)
    {
      var key := LastSeenKey(namespace, appName);
      var _ := commands.SetEx(key, ttlSeconds, NatToString(nowMs / 1000), nowMs);
    }

    /** The body of the scan loop for one key: split it, and read and record it when it has three parts. */
    method ReadKey(result: LastSeen, key: string, nowMs: int) returns (r: LastSeen)
      requires commands.reachable
      modifies commands
      ensures commands.entries == old(commands.entries)
      ensures commands.issued == old(commands.issued) + (if KeyNames(key).Some? then [GetCommand(key)] else [])
      ensures r == Record(result, key, commands.entries, nowMs)
    {
      r := result;
      var parts := Split(key, ':');
      if |parts| >= 3 {
        var namespace := parts[1];
        var appName := parts[2];
        var value := commands.Get(key, nowMs);
        var timestamp := if value.value.None? then None else ParseLong(value.value.value);
        if timestamp.Some? {
          r := Put(result, namespace, appName, timestamp.value);
        }
      }
    }

    /** The loop over one scan page: each key in turn, on top of what the pages before it gave. */
    method ReadPage(result: LastSeen, ghost seen: seq<string>, ghost before: seq<Command>, keys: seq<string>, nowMs: int)
      returns (r: LastSeen)
      requires commands.reachable
      requires result == LastSeenOf(seen, commands.entries, nowMs)
      requires commands.issued == before + ReadsFor(seen)
      modifies commands
      ensures commands.entries == old(commands.entries)
      ensures r == LastSeenOf(seen + keys, commands.entries, nowMs)
      ensures commands.issued == before + ReadsFor(seen + keys)
    {
      r := result;
      var k := 0;
      assert seen + keys[..0] == seen;
      while k < |keys|
        invariant 0 <= k <= |keys|
        invariant commands.entries == old(commands.entries)
        invariant r == LastSeenOf(seen + keys[..k], commands.entries, nowMs)
        invariant commands.issued == before + ReadsFor(seen + keys[..k])
      {
        PrefixStep(seen, keys, k);
        LastSeenOfSnoc(seen + keys[..k], keys[k], commands.entries, nowMs);
        ReadsForSnoc(seen + keys[..k], keys[k]);
        r := ReadKey(r, keys[k], nowMs);
        k := k + 1;
      }
      assert keys[..k] == keys;
    }

    /**
     * fetchAllLastSeen over the pages the scan returns (the cursor is finished after the last):
     * every key of at least three parts is read, and those holding a Long are recorded. The
     * first command meets the error of a server out of reach, and it propagates.
     */
    method FetchAllLastSeen(pages: seq<seq<string>>, nowMs: int) returns (r: Result<LastSeen, Exception>)
      modifies commands
      ensures commands.entries == old(commands.entries)
      ensures !commands.reachable ==> r == Failure(UNREACHABLE) && commands.issued == old(commands.issued)
      ensures commands.reachable ==>
                r == Success(LastSeenOf(Flatten(pages), commands.entries, nowMs))
                && commands.issued == old(commands.issued) + ReadsFor(Flatten(pages))
    {
      if !commands.reachable {
        return Failure(UNREACHABLE);
      }
      ghost var before := commands.issued;
      var result: LastSeen := map[];
      var p := 0;
      assert before + ReadsFor([]) == before;
      while p < |pages|
        invariant 0 <= p <= |pages|
        invariant commands.entries == old(commands.entries)
        invariant result == LastSeenOf(Flatten(pages[..p]), commands.entries, nowMs)
        invariant commands.issued == before + ReadsFor(Flatten(pages[..p]))
      {
        FlattenSnoc(pages, p);
        result := ReadPage(result, Flatten(pages[..p]), before, pages[p], nowMs);
        p := p + 1;
      }
      assert pages[..p] == pages;
      r := Success(result);
    }
  }
}
