/** The store the rate-limit path talks to (database 8 of the metadata
    Redis), reduced to what the path uses: the server-side script cache
    (SCRIPT LOAD, SCRIPT FLUSH, EVAL, EVALSHA), the definitions lists and
    redis-cell's counters. Each command first meets the next connection
    outcome of `faults` (a pool or connection failure, or none), so a
    failure can strike any command of a sequence. Every command is appended
    to `log`, so a caller's contract can say exactly which commands it
    sent. */
module Redis {
  import opened Wrappers
  import opened Selector
  import opened LimitScript

  /** A node_redis error: its class name and its message. */
  datatype Error = Error(name: string, message: string)

  /** The reply EVALSHA gets for a digest the script cache does not hold. */
  const NoScriptMessage: string := "NOSCRIPT No matching script. Please use EVAL."

  function NoScriptError(): Error {
    Error("ReplyError", NoScriptMessage)
  }

  /** The test `getRateLimit` applies to an error: exactly this class and message. */
  predicate IsNoScript(e: Error) {
    e.name == "ReplyError" && e.message == NoScriptMessage
  }

  /** The connection outcome the next command meets: past the end of the
      schedule every command reaches the server. */
  function NextFault(faults: seq<Option<Error>>): Option<Error> {
    if faults == [] then None else faults[0]
  }

  /** The outcomes left for the commands after the next one. */
  function Rest(faults: seq<Option<Error>>): seq<Option<Error>> {
    if faults == [] then [] else faults[1..]
  }

  /** No connection failure is mistaken for a script-cache miss. */
  predicate NoScriptFree(faults: seq<Option<Error>>) {
    forall i :: 0 <= i < |faults| && faults[i].Some? ==> !IsNoScript(faults[i].value)
  }

  /** Sending a command keeps the rest of the schedule free of NOSCRIPT,
      and the outcome it met is not NOSCRIPT either. */
  lemma RestNoScriptFree(faults: seq<Option<Error>>)
    requires NoScriptFree(faults)
    ensures NoScriptFree(Rest(faults))
    ensures NextFault(faults).Some? ==> !IsNoScript(NextFault(faults).value)
  {
    if faults != [] {
      assert forall i :: 0 <= i < |faults| - 1 ==> faults[1..][i] == faults[i + 1];
    }
  }

  datatype Command =
    | ScriptLoad(source: string)
    | ScriptFlush
    | Eval(source: string, numKeys: int, keys: seq<string>)
    | EvalSha(sha: string, numKeys: int, keys: seq<string>)

  /** The multi-bulk reply carrying the script's results: one array per
      CL.THROTTLE reply. */
  function ToReply(results: seq<seq<int>>): Reply {
    Array(seq(|results|, k requires 0 <= k < |results| => Values(results[k])))
  }

  class Store {
    /** SHA1 of a script body, the handle SCRIPT LOAD answers. */
    const digest: string -> string
    /** redis-cell's CL.THROTTLE. */
    const throttle: Throttle
    /** Digests of the scripts in the server's script cache. */
    var scripts: set<string>
    /** List values by key (the limit definitions). */
    var lists: map<string, seq<string>>
    /** redis-cell's counters by key. */
    var cells: map<string, CellState>
    /** The connection outcome of each command still to come, in order. */
    var faults: seq<Option<Error>>
    /** The commands received so far. */
    var log: seq<Command>

    /** A connection failure is never mistaken for a script-cache miss. */
    ghost predicate Valid()
      reads this
    {
      NoScriptFree(faults)
    }

    constructor (digest: string -> string, throttle: Throttle, lists: map<string, seq<string>>,
                 faults: seq<Option<Error>>)
      ensures this.digest == digest && this.throttle == throttle && this.lists == lists
      ensures this.faults == faults && scripts == {} && cells == map[] && log == []
    {
      this.digest := digest;
      this.throttle := throttle;
      this.lists := lists;
      this.faults := faults;
      scripts := {};
      cells := map[];
      log := [];
    }

    /** SCRIPT LOAD: cache the script and answer its digest. */
    method ScriptLoad(source: string) returns (r: Result<string, Error>)
      modifies this
      ensures log == old(log) + [Command.ScriptLoad(source)]
      ensures lists == old(lists) && cells == old(cells) && faults == Rest(old(faults))
      ensures NextFault(old(faults)).Some? ==> r == Failure(NextFault(old(faults)).value) && scripts == old(scripts)
      ensures NextFault(old(faults)).None? ==> r == Success(digest(source)) && scripts == old(scripts) + {digest(source)}
    {
      var fault := NextFault(faults);
      faults := Rest(faults);
      if fault.Some? {
        r := Failure(fault.value);
      } else {
        scripts := scripts + {digest(source)};
        r := Success(digest(source));
      }
      log := log + [Command.ScriptLoad(source)];
    }

    /** SCRIPT FLUSH: empty the script cache. */
    method ScriptFlush()
      modifies this
      ensures log == old(log) + [Command.ScriptFlush]
      ensures lists == old(lists) && cells == old(cells) && faults == Rest(old(faults))
      ensures scripts == if NextFault(old(faults)).Some? then old(scripts) else {}
    {
      var fault := NextFault(faults);
      faults := Rest(faults);
      if fault.None? {
        scripts := {};
      }
      log := log + [Command.ScriptFlush];
    }

    /** Runs the rate-limit script atomically against the current lists and
        counters. */
    method RunScript(keys: seq<string>) returns (reply: Reply)
      requires |keys| == 2
      modifies this`cells
      ensures var run := ScriptRun(lists, old(cells), keys[0], keys[1], throttle);
              reply == ToReply(run.0) && cells == run.1
    {
      var limitsArray := LRange(lists, keys[0]);
      var results, after := RunRateLimitScript(limitsArray, keys[1], cells, throttle);
      cells := after;
      reply := ToReply(results);
    }

    /** EVAL: cache the script sent in full and run it. */
    method Eval(source: string, numKeys: int, keys: seq<string>) returns (r: Result<Reply, Error>)
      requires numKeys == |keys| == 2
      modifies this
      ensures log == old(log) + [Command.Eval(source, numKeys, keys)]
      ensures lists == old(lists) && faults == Rest(old(faults))
      ensures NextFault(old(faults)).Some? ==>
                r == Failure(NextFault(old(faults)).value) && scripts == old(scripts) && cells == old(cells)
      ensures NextFault(old(faults)).None? ==>
                var run := ScriptRun(old(lists), old(cells), keys[0], keys[1], throttle);
                r == Success(ToReply(run.0)) && cells == run.1 && scripts == old(scripts) + {digest(source)}
    {
      var fault := NextFault(faults);
      faults := Rest(faults);
      if fault.Some? {
        r := Failure(fault.value);
      } else {
        scripts := scripts + {digest(source)};
        var reply := RunScript(keys);
        r := Success(reply);
      }
      log := log + [Command.Eval(source, numKeys, keys)];
    }

    /** EVALSHA: run the cached script with this digest, or answer NOSCRIPT. */
    method EvalSha(sha: string, numKeys: int, keys: seq<string>) returns (r: Result<Reply, Error>)
      requires numKeys == |keys| == 2
      modifies this
      ensures log == old(log) + [Command.EvalSha(sha, numKeys, keys)]
      ensures lists == old(lists) && faults == Rest(old(faults)) && scripts == old(scripts)
      ensures NextFault(old(faults)).Some? ==> r == Failure(NextFault(old(faults)).value) && cells == old(cells)
      ensures NextFault(old(faults)).None? && sha !in old(scripts) ==> r == Failure(NoScriptError()) && cells == old(cells)
      ensures NextFault(old(faults)).None? && sha in old(scripts) ==>
                var run := ScriptRun(old(lists), old(cells), keys[0], keys[1], throttle);
                r == Success(ToReply(run.0)) && cells == run.1
    {
      var fault := NextFault(faults);
      faults := Rest(faults);
      if fault.Some? {
        r := Failure(fault.value);
      } else if sha !in scripts {
        r := Failure(NoScriptError());
      } else {
        var reply := RunScript(keys);
        r := Success(reply);
      }
      log := log + [Command.EvalSha(sha, numKeys, keys)];
    }
  }
}
