/** `validate_config`: reports which required environment variables are empty. */
module Config {
  import opened Wrappers
  import opened Strings

  /** The values read from the environment (each defaults to empty, VERIFY_SSL to false). */
  datatype Environment = Environment(
    waldurBaseUrl: string,
    mcpDataPath: string,
    verifySsl: bool,
    clientId: string,
    discoveryUrl: string,
    tokenEndpoint: string,
    deviceEndpoint: string)

  const MissingPrefix := "Missing environment variables: "

  /** The checked variables, by name, in the order they are checked. */
  function Checked(env: Environment): seq<(string, string)> {
    [ ("WALDUR_BASE_URL", env.waldurBaseUrl),
      ("CLIENT_ID", env.clientId),
      ("DISCOVERY_URL", env.discoveryUrl),
      ("TOKEN_ENDPOINT", env.tokenEndpoint),
      ("DEVICE_ENDPOINT", env.deviceEndpoint) ]
  }

  /** The names whose value is empty, keeping their order. */
  function MissingNames(vars: seq<(string, string)>): seq<string> {
    if vars == [] then []
    else (if vars[0].1 == "" then [vars[0].0] else []) + MissingNames(vars[1..])
  }

  lemma {:induction false} MissingNamesExact(vars: seq<(string, string)>, name: string)
    ensures name in MissingNames(vars) <==> exists i :: 0 <= i < |vars| && vars[i] == (name, "")
  {
    if vars != [] {
      MissingNamesExact(vars[1..], name);
      if name in MissingNames(vars[1..]) {
        var i :| 0 <= i < |vars[1..]| && vars[1..][i] == (name, "");
        assert vars[i + 1] == (name, "");
      }
      if exists i :: 0 <= i < |vars| && vars[i] == (name, "") {
        var i :| 0 <= i < |vars| && vars[i] == (name, "");
        if i > 0 { assert vars[1..][i - 1] == (name, ""); }
      }
    }
  }

  lemma {:induction false} MissingNamesSnoc(vars: seq<(string, string)>, v: (string, string))
    ensures MissingNames(vars + [v]) == MissingNames(vars) + (if v.1 == "" then [v.0] else [])
  {
    if vars == [] {
      assert [] + [v] == [v];
    } else {
      assert (vars + [v])[1..] == vars[1..] + [v];
      MissingNamesSnoc(vars[1..], v);
    }
  }

  method ValidateConfig(env: Environment) returns (r: Option<string>)
    ensures r.None? <==>
      env.waldurBaseUrl != "" && env.clientId != "" && env.discoveryUrl != ""
      && env.tokenEndpoint != "" && env.deviceEndpoint != ""
    ensures r.Some? ==> r.value == MissingPrefix + Join(MissingNames(Checked(env)), ", ")
  {
    ghost var vars := Checked(env);
    var missing: seq<string> := [];
    assert vars[..0] == [];
    if env.waldurBaseUrl == "" {
      missing := missing + ["WALDUR_BASE_URL"];
    }
    MissingNamesSnoc(vars[..0], vars[0]);
    assert vars[..1] == vars[..0] + [vars[0]];
    assert missing == MissingNames(vars[..1]);
    if env.clientId == "" {
      missing := missing + ["CLIENT_ID"];
    }
    MissingNamesSnoc(vars[..1], vars[1]);
    assert vars[..2] == vars[..1] + [vars[1]];
    assert missing == MissingNames(vars[..2]);
    if env.discoveryUrl == "" {
      missing := missing + ["DISCOVERY_URL"];
    }
    MissingNamesSnoc(vars[..2], vars[2]);
    assert vars[..3] == vars[..2] + [vars[2]];
    assert missing == MissingNames(vars[..3]);
    if env.tokenEndpoint == "" {
      missing := missing + ["TOKEN_ENDPOINT"];
    }
    MissingNamesSnoc(vars[..3], vars[3]);
    assert vars[..4] == vars[..3] + [vars[3]];
    assert missing == MissingNames(vars[..4]);
    if env.deviceEndpoint == "" {
      missing := missing + ["DEVICE_ENDPOINT"];
    }
    MissingNamesSnoc(vars[..4], vars[4]);
    assert vars == vars[..4] + [vars[4]];
    assert missing == MissingNames(vars);
    if missing != [] {
      r := Some(MissingPrefix + Join(missing, ", "));
    } else {
      r := None;
    }
  }

  /** A name is reported exactly when it is one of the five checked ones and its value is empty. */
  lemma ReportedExactlyWhenEmpty(env: Environment, name: string)
    ensures name in MissingNames(Checked(env)) <==>
      (name == "WALDUR_BASE_URL" && env.waldurBaseUrl == "")
      || (name == "CLIENT_ID" && env.clientId == "")
      || (name == "DISCOVERY_URL" && env.discoveryUrl == "")
      || (name == "TOKEN_ENDPOINT" && env.tokenEndpoint == "")
      || (name == "DEVICE_ENDPOINT" && env.deviceEndpoint == "")
  {
    var vars := Checked(env);
    MissingNamesExact(vars, name);
    if exists i :: 0 <= i < |vars| && vars[i] == (name, "") {
      var i :| 0 <= i < |vars| && vars[i] == (name, "");
      assert i == 0 || i == 1 || i == 2 || i == 3 || i == 4;
    }
    if name == "WALDUR_BASE_URL" && env.waldurBaseUrl == "" { assert vars[0] == (name, ""); }
    if name == "CLIENT_ID" && env.clientId == "" { assert vars[1] == (name, ""); }
    if name == "DISCOVERY_URL" && env.discoveryUrl == "" { assert vars[2] == (name, ""); }
    if name == "TOKEN_ENDPOINT" && env.tokenEndpoint == "" { assert vars[3] == (name, ""); }
    if name == "DEVICE_ENDPOINT" && env.deviceEndpoint == "" { assert vars[4] == (name, ""); }
  }

  /** MCP_DATA_PATH and VERIFY_SSL are read but never reported. */
  lemma OptionalVariablesNeverReported(env: Environment)
    ensures "MCP_DATA_PATH" !in MissingNames(Checked(env))
    ensures "VERIFY_SSL" !in MissingNames(Checked(env))
  {
    ReportedExactlyWhenEmpty(env, "MCP_DATA_PATH");
    ReportedExactlyWhenEmpty(env, "VERIFY_SSL");
  }
}
