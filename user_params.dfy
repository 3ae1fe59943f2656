/** The reshaping helpers of lib/carto_metadata.js that turn one HMGET reply
    into a parameters object: `getMultipleUserDBParams` (with the check that
    the database host and name are known) and `getMultipleApikeyParams` with
    the grant-flag coercion of `getApikey`. */
module UserParams {
  import opened Wrappers
  import opened Redis

  /** HMGET on a hash: one value per requested field, `None` (nil) for a
      field the hash lacks. A missing hash reads as the empty one. */
  function HmGet(hash: map<string, string>, fields: seq<string>): seq<Option<string>> {
    seq(|fields|, i requires 0 <= i < |fields| => if fields[i] in hash then Some(hash[fields[i]]) else None)
  }

  /** The requested field names, in order (`Object.keys`). */
  function FieldNames(params: seq<(string, string)>): seq<string> {
    seq(|params|, i requires 0 <= i < |params| => params[i].0)
  }

  /** `dbValues[i]`: past the end of the reply a JavaScript array answers
      `undefined`, which the model folds into `None` with `null`. */
  function ValueAt(values: seq<Option<string>>, i: nat): Option<string> {
    if i < |values| then values[i] else None
  }

  /** `paramsMap.name`: a missing property reads as `undefined`, i.e. `None`. */
  function Get(m: map<string, Option<string>>, name: string): Option<string> {
    if name in m then m[name] else None
  }

  /** The object the renaming loop builds, as a reference definition: the
      fields are stored in order under their new names, so a later field
      overwrites an earlier one renamed to the same name. */
  function ParamsMap(params: seq<(string, string)>, values: seq<Option<string>>): map<string, Option<string>>
    decreases |params|
  {
    if params == [] then map[]
    else
      var n := |params| - 1;
      ParamsMap(params[..n], values)[params[n].1 := ValueAt(values, n)]
  }

  /** The object has exactly the new names as its properties. */
  lemma {:induction false} ParamsMapKeys(params: seq<(string, string)>, values: seq<Option<string>>)
    ensures ParamsMap(params, values).Keys == set i | 0 <= i < |params| :: params[i].1
    decreases |params|
  {
    if params != [] {
      var n := |params| - 1;
      ParamsMapKeys(params[..n], values);
      assert forall i :: 0 <= i < n ==> params[..n][i] == params[i];
    }
  }

  /** Each new name holds the value HMGET answered for the last field
      renamed to it. */
  lemma {:induction false} ParamsMapValue(params: seq<(string, string)>, values: seq<Option<string>>, i: nat)
    requires i < |params|
    requires forall j :: i < j < |params| ==> params[j].1 != params[i].1
    ensures params[i].1 in ParamsMap(params, values)
    ensures ParamsMap(params, values)[params[i].1] == ValueAt(values, i)
    decreases |params|
  {
    var n := |params| - 1;
    if i < n {
      assert params[..n][i] == params[i];
      ParamsMapValue(params[..n], values, i);
    }
  }

  /** The loop of `getMultipleUserDBParams` and `getMultipleApikeyParams`:
      `paramsMap[dbParams[dbParamsKeys[i]]] = dbValues[i]` for each i. */
  method BuildParamsMap(params: seq<(string, string)>, values: seq<Option<string>>)
    returns (paramsMap: map<string, Option<string>>)
    ensures paramsMap == ParamsMap(params, values)
  {
    paramsMap := map[];
    var i := 0;
    while i < |params|
      invariant 0 <= i <= |params|
      invariant paramsMap == ParamsMap(params[..i], values)
    {
      assert params[..i + 1][..i] == params[..i];
      paramsMap := paramsMap[params[i].1 := ValueAt(values, i)];
      i := i + 1;
    }
    assert params[..i] == params;
  }

  /** The error reported when the user's hash lacks the database host or name. */
  const DbNotFoundMessage: string := "DB host or name not found in redis (try CARTODB/script/restore_redis)"

  function DbNotFoundError(): Error {
    Error("Error", DbNotFoundMessage)
  }

  /** `getMultipleUserDBParams`, given the HMGET reply for the requested
      fields: a store error is passed through; otherwise the renamed object,
      unless its `dbhost` or `dbname` is null or undefined. */
  method GetMultipleUserDBParams(dbParams: seq<(string, string)>, reply: Result<seq<Option<string>>, Error>)
    returns (r: Result<map<string, Option<string>>, Error>)
    ensures reply.Failure? ==> r == Failure(reply.error)
    ensures reply.Success? ==>
              var m := ParamsMap(dbParams, reply.value);
              if Get(m, "dbhost").None? || Get(m, "dbname").None? then r == Failure(DbNotFoundError())
              else r == Success(m)
    ensures r.Success? ==> Get(r.value, "dbhost").Some? && Get(r.value, "dbname").Some?
  {
    match reply
    case Failure(err) =>
      r := Failure(err);
    case Success(dbValues) =>
      var paramsMap := BuildParamsMap(dbParams, dbValues);
      if Get(paramsMap, "dbhost").None? || Get(paramsMap, "dbname").None? {
        r := Failure(DbNotFoundError());
      } else {
        r := Success(paramsMap);
      }
  }

  /** The fields `getUserDBConnectionParams` requests and their new names. */
  const ConnectionParams: seq<(string, string)> :=
    [("database_host", "dbhost"), ("database_name", "dbname"), ("database_publicuser", "dbuser")]

  /** For a user whose hash holds the three fields, the connection
      parameters are exactly those three values under their new names; the
      host or the name is missing exactly when the hash lacks that field, so
      a user without a hash gets the not-found error. */
  lemma ConnectionParamsOfUser(hash: map<string, string>)
    ensures var values := HmGet(hash, FieldNames(ConnectionParams));
            var m := ParamsMap(ConnectionParams, values);
            && ("database_host" in hash && "database_name" in hash && "database_publicuser" in hash ==>
                  m == map["dbhost" := Some(hash["database_host"]), "dbname" := Some(hash["database_name"]),
                           "dbuser" := Some(hash["database_publicuser"])])
            && (Get(m, "dbhost").None? <==> "database_host" !in hash)
            && (Get(m, "dbname").None? <==> "database_name" !in hash)
  {
    var values := HmGet(hash, FieldNames(ConnectionParams));
    var p := ConnectionParams;
    assert p[..3] == p && p[..3][..2] == p[..2] && p[..2][..1] == p[..1] && p[..1][..0] == [];
    var m := map["dbhost" := values[0], "dbname" := values[1], "dbuser" := values[2]];
    assert ParamsMap(p[..1], values) == map["dbhost" := values[0]];
    assert ParamsMap(p[..2], values) == map["dbhost" := values[0], "dbname" := values[1]];
    assert ParamsMap(p, values) == m;
  }

  /** A grant flag is set only by the exact string `'true'`. */
  predicate GrantFlag(v: Option<string>) {
    v == Some("true")
  }

  /** An API key as `getApikey` hands it on: the stored fields under their
      new names, the two grants coerced to booleans. */
  datatype Apikey = Apikey(
    user: Option<string>,
    keyType: Option<string>,
    grantsSql: bool,
    grantsMaps: bool,
    databaseRole: Option<string>,
    databasePassword: Option<string>)

  /** The fields `getApikey` requests and their new names. */
  const ApikeyParams: seq<(string, string)> :=
    [("user", "user"), ("type", "type"), ("grants_sql", "grantsSql"), ("grants_maps", "grantsMaps"),
     ("database_role", "databaseRole"), ("database_password", "databasePassword")]

  /** `getApikey`, given the HMGET reply for `ApikeyParams`: a store error is
      passed through; otherwise each field is read from the renamed object,
      and a grant is true exactly when its stored value is the string
      `'true'`. */
  method GetApikey(reply: Result<seq<Option<string>>, Error>) returns (r: Result<Apikey, Error>)
    ensures reply.Failure? <==> r.Failure?
    ensures reply.Failure? ==> r == Failure(reply.error)
    ensures reply.Success? ==>
              && r.value.user == ValueAt(reply.value, 0)
              && r.value.keyType == ValueAt(reply.value, 1)
              && (r.value.grantsSql <==> ValueAt(reply.value, 2) == Some("true"))
              && (r.value.grantsMaps <==> ValueAt(reply.value, 3) == Some("true"))
              && r.value.databaseRole == ValueAt(reply.value, 4)
              && r.value.databasePassword == ValueAt(reply.value, 5)
  {
    match reply
    case Failure(err) =>
      r := Failure(err);
    case Success(apikeyValues) =>
      var apikey := BuildParamsMap(ApikeyParams, apikeyValues);
      ApikeyFields(apikeyValues);
      r := Success(Apikey(
        Get(apikey, "user"),
        Get(apikey, "type"),
        GrantFlag(Get(apikey, "grantsSql")),
        GrantFlag(Get(apikey, "grantsMaps")),
        Get(apikey, "databaseRole"),
        Get(apikey, "databasePassword")));
  }

  /** The renamed API key object holds the reply's values position by position. */
  lemma ApikeyFields(values: seq<Option<string>>)
    ensures var m := ParamsMap(ApikeyParams, values);
            && Get(m, "user") == ValueAt(values, 0)
            && Get(m, "type") == ValueAt(values, 1)
            && Get(m, "grantsSql") == ValueAt(values, 2)
            && Get(m, "grantsMaps") == ValueAt(values, 3)
            && Get(m, "databaseRole") == ValueAt(values, 4)
            && Get(m, "databasePassword") == ValueAt(values, 5)
  {
    forall i | 0 <= i < 6
      ensures ApikeyParams[i].1 in ParamsMap(ApikeyParams, values)
      ensures ParamsMap(ApikeyParams, values)[ApikeyParams[i].1] == ValueAt(values, i)
    {
      ParamsMapValue(ApikeyParams, values, i);
    }
  }

  /** Values such as `'True'`, `'1'`, an empty string or a missing field
      grant nothing. */
  lemma OnlyTrueGrants()
    ensures GrantFlag(Some("true"))
    ensures !GrantFlag(Some("True")) && !GrantFlag(Some("1")) && !GrantFlag(Some("")) && !GrantFlag(None)
  {
  }
}
