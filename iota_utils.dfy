/** The io bundle's transport adapter: it builds the command lines of the MAM publish and fetch
    scripts, threads the stream's `start` and `seed` from one publish to the next, and keeps the
    last non-empty fetch result. The scripts themselves are an opaque subprocess: their output
    is a parameter of each call. */
module IotaUtils {
  import opened Common
  import opened MamJson
  import IS = IotaSettings

  const NodeBinary: string := "/usr/local/bin/node"
  const ScriptDir: string := "../../extensions/io/org.eclipse.smarthome.io.iota/lib/mam/example/"
  const PublishScript: string := "publish.js"
  const FetchSyncScript: string := "fetchSync.js"
  const FetchAsyncScript: string := "fetchAsync.js"

  /** The `start` sentinel: no start index is passed, the script works it out from the seed. */
  const RecomputeStart: int := -1

  /** The IOTA node the scripts talk to. */
  datatype Endpoint = Endpoint(protocol: string, host: string, port: int)

  /** "protocol://host:port", the provider handed to every script. */
  function Url(e: Endpoint): string {
    e.protocol + "://" + e.host + ":" + IS.IntToString(e.port)
  }

  /** A key that `publishState` and `fetchFromTangle` accept: non-null and non-empty. */
  predicate HasKey(key: Option<string>) {
    key.Some? && |key.value| > 0
  }

  /** The command line of the publish script, None when no process is launched (restricted mode
      without a key, or an unknown mode). Elements are None where Java passes null. */
  function PublishArgv(url: string, payload: string, mode: string, key: Option<string>,
                       seed: Option<string>, start: int): (r: Option<seq<Option<string>>>)
    ensures r.Some? <==> mode == "public" || mode == "private" || (mode == "restricted" && HasKey(key))
  {
    var head := [Some(NodeBinary), Some(ScriptDir + PublishScript), Some(url), Some(payload), Some(mode)];
    var tail := if start == RecomputeStart then [] else [Some(IS.IntToString(start))];
    if mode == "public" || mode == "private" then Some(head + [seed] + tail)
    else if mode == "restricted" && HasKey(key) then Some(head + [key, seed] + tail)
    else None
  }

  /** A null element makes `Runtime.exec` throw NullPointerException. */
  predicate HasNull(argv: seq<Option<string>>) {
    exists i :: 0 <= i < |argv| && argv[i].None?
  }

  function Strings(argv: seq<Option<string>>): (r: seq<string>)
    requires !HasNull(argv)
    ensures |r| == |argv| && forall i :: 0 <= i < |argv| ==> argv[i] == Some(r[i])
  {
    seq(|argv|, i requires 0 <= i < |argv| => argv[i].value)
  }

  /** What the publish script takes from its command line. */
  datatype PublishCall = PublishCall(provider: string, payload: string, mode: string,
                                     key: Option<string>, seed: Option<string>, start: Option<string>)

  function Arg(argv: seq<string>, i: nat): Option<string> {
    if i < |argv| then Some(argv[i]) else None
  }

  /** The publish script's reading of its arguments (argv[0] is the interpreter): provider at 2,
      payload at 3, mode at 4; in restricted mode key at 5, seed at 6 and start at 7, otherwise
      seed at 5 and start at 6. */
  function PublishScriptReads(argv: seq<string>): PublishCall
    requires |argv| >= 5
  {
    if argv[4] == "restricted" then PublishCall(argv[2], argv[3], argv[4], Arg(argv, 5), Arg(argv, 6), Arg(argv, 7))
    else PublishCall(argv[2], argv[3], argv[4], None, Arg(argv, 5), Arg(argv, 6))
  }

  /** The command line `publishState` builds is read back by the script as intended: the key
      (restricted mode only) before the seed, and the start index present exactly when it is not
      the sentinel, in a form that parses back to the same number. */
  lemma PublishArgvReadBack(url: string, payload: string, mode: string, key: Option<string>, seed: string, start: int)
    requires start == RecomputeStart || IS.Int32Min <= start <= IS.Int32Max
    requires PublishArgv(url, payload, mode, key, Some(seed), start).Some?
    ensures var argv := PublishArgv(url, payload, mode, key, Some(seed), start).value;
      && !HasNull(argv)
      && |argv| >= 5
      && var call := PublishScriptReads(Strings(argv));
      && call.provider == url && call.payload == payload && call.mode == mode
      && call.key == (if mode == "restricted" then key else None)
      && call.seed == Some(seed)
      && (call.start.None? <==> start == RecomputeStart)
      && (call.start.Some? ==> IS.ParseInt(call.start.value) == Some(start))
  {
    var argv := PublishArgv(url, payload, mode, key, Some(seed), start).value;
    forall i | 0 <= i < |argv| ensures argv[i].Some? {
    }
    if start != RecomputeStart {
      IS.ParseIntRoundTrip(start);
    }
  }

  /** A stream without a seed cannot be published to: the launch throws. */
  lemma PublishWithoutSeedThrows(url: string, payload: string, mode: string, key: Option<string>, start: int)
    requires PublishArgv(url, payload, mode, key, None, start).Some?
    ensures HasNull(PublishArgv(url, payload, mode, key, None, start).value)
  {
    var argv := PublishArgv(url, payload, mode, key, None, start).value;
    if mode == "public" || mode == "private" {
      assert argv[5].None?;
    } else {
      assert argv[6].None?;
    }
  }

  /** The command line of the fetch script: the synchronous script for refresh 0, the
      asynchronous one otherwise; the key is appended only when it is non-empty. */
  function FetchCommand(refresh: int, url: string, root: Option<string>, mode: Option<string>,
                        key: Option<string>): (r: seq<Option<string>>)
    ensures |r| == if HasKey(key) then 6 else 5
    ensures r[1] == Some(ScriptDir + if refresh == 0 then FetchSyncScript else FetchAsyncScript)
    ensures r[2] == Some(url) && r[3] == root && r[4] == mode
    ensures HasKey(key) ==> r[5] == key
    ensures HasNull(r) <==> root.None? || mode.None?
  {
    var script := if refresh == 0 then FetchSyncScript else FetchAsyncScript;
    var base := [Some(NodeBinary), Some(ScriptDir + script), Some(url), root, mode];
    var r := if HasKey(key) then base + [key] else base;
    assert r[0].Some? && r[1].Some? && r[2].Some?;
    r
  }

  /** What a fetch returns: the text "" (nothing fetched yet) or a JSON object. */
  datatype Fetched = Blank | Json(obj: JsonObject)

  /** The subprocess's standard output as `fetchFromTangle` sees it. */
  datatype FetchOutput =
    | NoOutput                       // empty output
    | FetchIoFailure                 // IOException or InterruptedException, caught
    | Parsed(obj: JsonObject)        // a JSON object
    | NotAnObject                    // JSON, but not an object: the cast fails
    | Malformed                      // not JSON at all

  /** The object `fetchFromTangle` ends up with, None where the output makes it throw. */
  function Received(out: FetchOutput): Option<JsonObject> {
    match out
    case NoOutput => Some(JsonObject([]))
    case FetchIoFailure => Some(JsonObject([]))
    case Parsed(o) => Some(o)
    case NotAnObject => None
    case Malformed => None
  }

  /** The cache after a fetch that received `o`: an empty object keeps it, anything else replaces it. */
  function Remember(cache: Fetched, o: JsonObject): Fetched {
    if IsEmptyObject(o) then cache else Json(o)
  }

  /** The cache after a sequence of fetches. */
  function Replay(cache: Fetched, objs: seq<JsonObject>): Fetched
    decreases |objs|
  {
    if |objs| == 0 then cache else Replay(Remember(cache, objs[0]), objs[1..])
  }

  /** The last non-empty object of a sequence. */
  function LastNonEmpty(objs: seq<JsonObject>): (r: Option<JsonObject>)
    ensures r.Some? ==> !IsEmptyObject(r.value) && r.value in objs
    ensures r.None? <==> forall i :: 0 <= i < |objs| ==> IsEmptyObject(objs[i])
    decreases |objs|
  {
    if |objs| == 0 then None
    else if !IsEmptyObject(objs[|objs| - 1]) then Some(objs[|objs| - 1])
    else
      var r := LastNonEmpty(objs[..|objs| - 1]);
      assert forall i :: 0 <= i < |objs| - 1 ==> objs[..|objs| - 1][i] == objs[i];
      r
  }

  lemma {:induction false} ReplaySnoc(cache: Fetched, objs: seq<JsonObject>, o: JsonObject)
    ensures Replay(cache, objs + [o]) == Remember(Replay(cache, objs), o)
    decreases |objs|
  {
    if |objs| == 0 {
      assert Replay(Remember(cache, o), []) == Remember(cache, o);
    } else {
      assert (objs + [o])[1..] == objs[1..] + [o];
      ReplaySnoc(Remember(cache, objs[0]), objs[1..], o);
    }
  }

  /** The cache always answers with the last non-empty result ever fetched, and with the
      initial value while every fetch so far came back empty. */
  lemma {:induction false} ReplayReturnsLastNonEmpty(cache: Fetched, objs: seq<JsonObject>)
    ensures Replay(cache, objs) == if LastNonEmpty(objs).Some? then Json(LastNonEmpty(objs).value) else cache
    decreases |objs|
  {
    if |objs| > 0 {
      var prefix := objs[..|objs| - 1];
      assert objs == prefix + [objs[|objs| - 1]];
      ReplaySnoc(cache, prefix, objs[|objs| - 1]);
      ReplayReturnsLastNonEmpty(cache, prefix);
    }
  }

  /** The outcome of one fetch, and the cache after it, given the cache before it and whether
      the launch fails on a null argument. */
  function FetchAnswer(cache: Fetched, launchFails: bool, out: FetchOutput): (r: (Outcome, Fetched))
    ensures r.0.Threw? ==> r.1 == cache
    ensures r.0 == Done ==> !launchFails && Received(out).Some? && r.1 == Replay(cache, [Received(out).value])
  {
    if launchFails then (Threw(NullPointer), cache)
    else match Received(out)
      case None => (if out.NotAnObject? then Threw(ClassCast) else Threw(JsonSyntax), cache)
      case Some(o) => (assert Replay(cache, [o]) == Replay(Remember(cache, o), []); (Done, Remember(cache, o)))
  }

  /** What the publish script's output gives `publishState`. */
  datatype PublishOutput =
    | Silent                                              // empty output
    | PublishIoFailure                                    // IOException or InterruptedException, caught
    | Unparsable                                          // not JSON
    | Reply(start: Option<int>, seed: Option<string>)     // the START and SEED fields, None when absent

  class IotaUtils {
    const endpoint: Endpoint
    var seed: Option<string>
    var start: int
    /** The last non-empty fetch result, Blank ("") before there was one. */
    var oldResult: Fetched

    /** The cache never holds the empty object. */
    predicate Valid()
      reads this
    {
      oldResult.Json? ==> !IsEmptyObject(oldResult.obj)
    }

    /** `IotaUtils(protocol, host, port)`: no seed, start 0, empty cache. */
    constructor (e: Endpoint)
      ensures endpoint == e && seed == None && start == 0 && oldResult == Blank && Valid()
    {
      endpoint := e;
      seed := None;
      start := 0;
      oldResult := Blank;
    }

    /** `IotaUtils(protocol, host, port, seed, start)`. */
    constructor WithSeed(e: Endpoint, seed: Option<string>, start: int)
      ensures endpoint == e && this.seed == seed && this.start == start && oldResult == Blank && Valid()
    {
      endpoint := e;
      this.seed := seed;
      this.start := start;
      oldResult := Blank;
    }

    function GetStart(): int
      reads this
    {
      start
    }

    method SetStart(s: int)
      modifies this`start
      ensures start == s
    {
      start := s;
    }

    /** `publishState(states, mode, key)`: a null mode fails the `switch`; restricted mode without
        a key and unknown modes launch nothing; a launch with a null seed throws; a reply sets
        `start` from START and then `seed` from SEED, so a reply without SEED has already moved
        `start` when it throws. */
    method PublishState(payload: string, mode: Option<string>, key: Option<string>, out: PublishOutput)
      returns (outcome: Outcome)
      modifies this`start, this`seed
      ensures mode.None? ==> outcome == Threw(NullPointer) && start == old(start) && seed == old(seed)
      ensures mode.Some? && PublishArgv(Url(endpoint), payload, mode.value, key, old(seed), old(start)).None? ==>
        outcome == Done && start == old(start) && seed == old(seed)
      ensures mode.Some? && PublishArgv(Url(endpoint), payload, mode.value, key, old(seed), old(start)).Some? ==>
        var argv := PublishArgv(Url(endpoint), payload, mode.value, key, old(seed), old(start)).value;
        if HasNull(argv) then outcome == Threw(NullPointer) && start == old(start) && seed == old(seed)
        else match out
          case Silent => outcome == Done && start == old(start) && seed == old(seed)
          case PublishIoFailure => outcome == Done && start == old(start) && seed == old(seed)
          case Unparsable => outcome == Threw(JsonSyntax) && start == old(start) && seed == old(seed)
          case Reply(st, sd) =>
            if st.None? then outcome == Threw(NullPointer) && start == old(start) && seed == old(seed)
            else if sd.None? then outcome == Threw(NullPointer) && start == st.value && seed == old(seed)
            else outcome == Done && start == st.value && seed == sd
    {
      if mode.None? {
        return Threw(NullPointer);
      }
      var argv := PublishArgv(Url(endpoint), payload, mode.value, key, seed, start);
      if argv.None? {
        return Done;
      }
      if HasNull(argv.value) {
        return Threw(NullPointer);
      }
      outcome := Done;
      match out {
        case Silent =>
        case PublishIoFailure =>
        case Unparsable =>
          outcome := Threw(JsonSyntax);
        case Reply(st, sd) =>
          if st.None? {
            outcome := Threw(NullPointer);
          } else {
            start := st.value;
            if sd.None? {
              outcome := Threw(NullPointer);
            } else {
              seed := sd;
            }
          }
      }
    }

    /** `fetchFromTangle(refresh, root, mode, key)`: a launch with a null root or mode throws, as
        does output that is not a JSON object; otherwise the answer is the cache after this
        fetch: a non-empty object replaces and is returned, an empty one (including a failed
        read) returns the previous non-empty result. */
    method FetchFromTangle(refresh: int, root: Option<string>, mode: Option<string>, key: Option<string>,
                           out: FetchOutput) returns (outcome: Outcome, result: Fetched)
      requires Valid()
      modifies this`oldResult
      ensures Valid()
      ensures HasNull(FetchCommand(refresh, Url(endpoint), root, mode, key)) ==>
        outcome == Threw(NullPointer) && oldResult == old(oldResult)
      ensures !HasNull(FetchCommand(refresh, Url(endpoint), root, mode, key)) ==>
        match out
        case NotAnObject => outcome == Threw(ClassCast) && oldResult == old(oldResult)
        case Malformed => outcome == Threw(JsonSyntax) && oldResult == old(oldResult)
        case _ => outcome == Done && result == oldResult && oldResult == Replay(old(oldResult), [Received(out).value])
      ensures (outcome, oldResult) == FetchAnswer(old(oldResult), HasNull(FetchCommand(refresh, Url(endpoint), root, mode, key)), out)
      ensures outcome == Done ==> result == oldResult
    {
      var cmd := FetchCommand(refresh, Url(endpoint), root, mode, key);
      result := oldResult;
      if HasNull(cmd) {
        return Threw(NullPointer), result;
      }
      match Received(out) {
        case None =>
          outcome := if out.NotAnObject? then Threw(ClassCast) else Threw(JsonSyntax);
        case Some(json) =>
          outcome := Done;
          if !IsEmptyObject(json) {
            oldResult := Json(json);
          }
          result := oldResult;
          assert Replay(old(oldResult), [json]) == Replay(Remember(old(oldResult), json), []);
      }
    }
  }

  /** A client of the class: after a batch was fetched, an empty answer re-delivers that batch. */
  method EmptyFetchRedeliversBatch(e: Endpoint, root: string, batch: JsonObject) returns (first: Fetched, second: Fetched)
    requires !IsEmptyObject(batch)
    ensures first == Json(batch) && second == Json(batch)
  {
    var utils := new IotaUtils(e);
    var o1, o2;
    o1, first := utils.FetchFromTangle(1, Some(root), Some("public"), None, Parsed(batch));
    o2, second := utils.FetchFromTangle(1, Some(root), Some("public"), None, NoOutput);
  }

  /** A client of the class: restricted mode without a key publishes nothing and keeps the
      stream position, whatever the script would have answered. */
  method RestrictedWithoutKeyKeepsPosition(e: Endpoint, payload: string, seed: string, start: int, out: PublishOutput)
    returns (s: Option<string>, n: int, o: Outcome)
    ensures s == Some(seed) && n == start && o == Done
  {
    var utils := new IotaUtils.WithSeed(e, Some(seed), start);
    o := utils.PublishState(payload, Some("restricted"), Some(""), out);
    s, n := utils.seed, utils.GetStart();
  }
}
