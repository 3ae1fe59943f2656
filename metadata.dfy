/** The rate-limit entry points of lib/carto_metadata.js: the process-wide
    script handle `rate_limits_sha_script`, `loadRateLimitsScript` and
    `getRateLimit`, which evaluates the limit script by handle when one is
    cached, by full source otherwise, and falls back to the full source once
    the server has forgotten the handle. */
module CartoMetadata {
  import opened Wrappers
  import opened Decimal
  import opened Keys
  import opened Selector
  import opened LimitScript
  import opened Redis

  /** A cached handle counts only when it is a non-empty string (the
      JavaScript truthiness test on `rate_limits_sha_script`). */
  predicate Cached(sha: Option<string>) {
    sha.Some? && sha.value != ""
  }

  /** The two keys `getRateLimit` passes: KEYS[1] names the definitions
      list, KEYS[2] the counters prefix. */
  function RateLimitKeys(username: string, app: string, endpointGroup: string): (keys: seq<string>)
    ensures |keys| == 2
  {
    [RateLimitsStoreKey(username, app, endpointGroup), RateLimitsStatusKey(username, app, endpointGroup)]
  }

  /** Whether EVALSHA with this cached handle is answered NOSCRIPT: the
      handle is cached, the connection is up and the server does not hold
      the script. */
  predicate Forgotten(sha: Option<string>, scripts: set<string>, fault: Option<Error>) {
    Cached(sha) && fault.None? && sha.value !in scripts
  }

  /** The commands one `getRateLimit` call sends, given the handle and the
      store's script cache and connection state when it starts. */
  function SentCommands(sha: Option<string>, scripts: set<string>, fault: Option<Error>, keys: seq<string>): seq<Command> {
    if !Cached(sha) then [Eval(RateLimitLuaScript, 2, keys)]
    else if Forgotten(sha, scripts, fault) then [EvalSha(sha.value, 2, keys), Eval(RateLimitLuaScript, 2, keys)]
    else [EvalSha(sha.value, 2, keys)]
  }

  /** The connection outcome the last command of one call meets: the
      reissued EVAL's when the first command was answered NOSCRIPT, the first
      command's otherwise. */
  function LastFault(sha: Option<string>, scripts: set<string>, faults: seq<Option<Error>>): Option<Error> {
    if Forgotten(sha, scripts, NextFault(faults)) then NextFault(Rest(faults)) else NextFault(faults)
  }

  /** A call sends one or two commands; its first is EVALSHA with the
      handle exactly when one is cached, and it sends a second command only
      after EVALSHA, and that one is EVAL with the full source: there is at
      most one reissue, and it never goes back to EVALSHA. */
  lemma AtMostOneReissue(sha: Option<string>, scripts: set<string>, fault: Option<Error>, keys: seq<string>)
    ensures var sent := SentCommands(sha, scripts, fault, keys);
            && 1 <= |sent| <= 2
            && (Cached(sha) ==> sent[0] == EvalSha(sha.value, 2, keys))
            && (!Cached(sha) <==> sent[0] == Eval(RateLimitLuaScript, 2, keys))
            && (|sent| == 2 <==> Forgotten(sha, scripts, fault))
            && (|sent| == 2 ==> sent[1] == Eval(RateLimitLuaScript, 2, keys))
  {
  }

  class Metadata {
    /** The handle of the loaded limit script, or `None` (`null`). */
    var rateLimitsShaScript: Option<string>
    /** The rate-limits database. */
    const store: Store

    predicate HasSha()
      reads this
    {
      Cached(rateLimitsShaScript)
    }

    constructor (store: Store)
      ensures this.store == store && rateLimitsShaScript == None
    {
      this.store := store;
      rateLimitsShaScript := None;
    }

    /** `loadRateLimitsScript`: SCRIPT LOAD the limit script; remember the
        handle only when the load succeeded with a non-empty handle. */
    method LoadRateLimitsScript() returns (r: Result<string, Error>)
      modifies this, store
      ensures store.log == old(store.log) + [ScriptLoad(RateLimitLuaScript)]
      ensures store.lists == old(store.lists) && store.cells == old(store.cells) && store.faults == Rest(old(store.faults))
      ensures NextFault(old(store.faults)).Some? ==>
                r == Failure(NextFault(old(store.faults)).value) && store.scripts == old(store.scripts)
      ensures NextFault(old(store.faults)).None? ==>
                r == Success(store.digest(RateLimitLuaScript))
                && store.scripts == old(store.scripts) + {store.digest(RateLimitLuaScript)}
      ensures rateLimitsShaScript == if r.Success? && r.value != "" then Some(r.value) else old(rateLimitsShaScript)
      ensures HasSha() ==> rateLimitsShaScript.value in store.scripts || old(HasSha())
    {
      r := store.ScriptLoad(RateLimitLuaScript);
      if r.Success? && r.value != "" {
        rateLimitsShaScript := Some(r.value);
      }
    }

    /** `getRateLimit`: evaluate the limit script for one subject and reduce
        the reply to the strictest limit. On the NOSCRIPT reply the handle is
        dropped and the call reissued, now with the full source; any other
        error, including one the reissued EVAL meets, is passed through. */
    method GetRateLimit(username: string, app: string, endpointGroup: string)
      returns (r: Result<Option<Candidate>, Error>)
      requires store.Valid()
      modifies this, store
      decreases if HasSha() then 1 else 0
      ensures store.Valid()
      ensures store.log == old(store.log) + SentCommands(old(rateLimitsShaScript), old(store.scripts),
                                                         NextFault(old(store.faults)),
                                                         RateLimitKeys(username, app, endpointGroup))
      ensures store.lists == old(store.lists)
      ensures store.faults ==
                if Forgotten(old(rateLimitsShaScript), old(store.scripts), NextFault(old(store.faults)))
                then Rest(Rest(old(store.faults)))
                else Rest(old(store.faults))
      ensures rateLimitsShaScript ==
                if Forgotten(old(rateLimitsShaScript), old(store.scripts), NextFault(old(store.faults))) then None
                else old(rateLimitsShaScript)
      ensures var last := LastFault(old(rateLimitsShaScript), old(store.scripts), old(store.faults));
              store.scripts ==
                if last.Some? || (old(HasSha()) && old(rateLimitsShaScript).value in old(store.scripts))
                then old(store.scripts)
                else old(store.scripts) + {store.digest(RateLimitLuaScript)}
      ensures var last := LastFault(old(rateLimitsShaScript), old(store.scripts), old(store.faults));
              last.Some? ==> r == Failure(last.value) && store.cells == old(store.cells)
      ensures LastFault(old(rateLimitsShaScript), old(store.scripts), old(store.faults)).None? ==>
                var run := ScriptRun(old(store.lists), old(store.cells), RateLimitsStoreKey(username, app, endpointGroup),
                                     RateLimitsStatusKey(username, app, endpointGroup), store.throttle);
                r == Success(LowerRateLimit(ToReply(run.0))) && store.cells == run.1
      ensures r.Failure? ==> !IsNoScript(r.error)
    {
      var keys := RateLimitKeys(username, app, endpointGroup);
      RestNoScriptFree(store.faults);
      var reply: Result<Reply, Error>;
      if HasSha() {
        reply := store.EvalSha(rateLimitsShaScript.value, 2, keys);
      } else {
        reply := store.Eval(RateLimitLuaScript, 2, keys);
      }
      match reply
      case Failure(err) =>
        if IsNoScript(err) {
          rateLimitsShaScript := None;
          r := GetRateLimit(username, app, endpointGroup);
        } else {
          r := Failure(err);
        }
      case Success(rateLimits) =>
        var strictest := GetLowerRateLimit(rateLimits);
        r := Success(strictest);
    }
  }

  /** The scenario of losing the loaded script: load it, flush the server's
      script cache, then ask for the limits, with the connection up for all
      four commands. The call still succeeds, after
      one EVALSHA answered NOSCRIPT and one EVAL, and leaves no handle
      cached. */
  method ReloadAfterFlush(metadata: Metadata, username: string, app: string, endpointGroup: string)
    returns (r: Result<Option<Candidate>, Error>)
    requires metadata.store.Valid()
    requires forall i :: 0 <= i < 4 && i < |metadata.store.faults| ==> metadata.store.faults[i].None?
    requires metadata.store.digest(RateLimitLuaScript) != ""
    modifies metadata, metadata.store
    ensures r.Success?
    ensures metadata.rateLimitsShaScript == None
    ensures var keys := RateLimitKeys(username, app, endpointGroup);
            metadata.store.log == old(metadata.store.log) +
              [ScriptLoad(RateLimitLuaScript), ScriptFlush,
               EvalSha(metadata.store.digest(RateLimitLuaScript), 2, keys), Eval(RateLimitLuaScript, 2, keys)]
  {
    var loaded := metadata.LoadRateLimitsScript();
    metadata.store.ScriptFlush();
    r := metadata.GetRateLimit(username, app, endpointGroup);
  }

  /** The connection fails under the reissued EVAL: the caller gets that
      failure, after two commands, and the handle stays dropped. */
  method ReissueFails(metadata: Metadata, username: string, app: string, endpointGroup: string, err: Error)
    returns (r: Result<Option<Candidate>, Error>)
    requires metadata.store.Valid() && !IsNoScript(err)
    requires metadata.HasSha() && metadata.rateLimitsShaScript.value !in metadata.store.scripts
    requires 2 <= |metadata.store.faults| && metadata.store.faults[0].None? && metadata.store.faults[1] == Some(err)
    modifies metadata, metadata.store
    ensures r == Failure(err)
    ensures metadata.rateLimitsShaScript == None
    ensures |metadata.store.log| == |old(metadata.store.log)| + 2
  {
    r := metadata.GetRateLimit(username, app, endpointGroup);
  }

  /** A subject's definitions list is never overwritten by a counter of any
      subject: every counter key lies under a `limits:rate:status:` prefix. */
  lemma CountersNeverAliasDefinitions(u1: string, a1: string, e1: string, u2: string, a2: string, e2: string, k: nat)
    ensures RateLimitsStoreKey(u1, a1, e1) != CellKey(RateLimitsStatusKey(u2, a2, e2), k)
  {
    StoreKeyIsNotStatusPrefixed(u1, a1, e1, u2, a2, e2, ":" + FromNat(k));
    assert CellKey(RateLimitsStatusKey(u2, a2, e2), k) == RateLimitsStatusKey(u2, a2, e2) + (":" + FromNat(k));
  }
}
