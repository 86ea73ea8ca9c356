/**
 * Provider configuration: turn the username and password attributes into the
 * arguments of the client constructor and report a failed construction as a
 * single error diagnostic.
 */
module Provider {
  import opened Wrappers
  import opened Diagnostics

  /** A credential as the client constructor takes it: the empty string means "not provided". */
  function Credential(value: string): (r: Option<string>)
    ensures r.None? <==> value == ""
    ensures r.Some? ==> r.value == value
  {
    if value == "" then None else Some(value)
  }

  /**
   * providerConfigure. newClient stands for hashicups.NewClient(host,
   * username, password); the host is always passed as absent.
   */
  method Configure<C>(
    username: string,
    password: string,
    newClient: (Option<string>, Option<string>, Option<string>) -> Result<C, Err>)
    returns (client: Option<C>, diags: seq<Diagnostic>)
    ensures match newClient(None, Credential(username), Credential(password))
      case Failure(_) =>
        && client == None
        && |diags| == 1
        && diags[0].severity == Error
        && diags[0].summary == "Unable to create HashiCups client"
        && diags[0].detail == "Unable to auth user for authenticated HashiCups client"
      case Success(made) =>
        && client == Some(made)
        && diags == []
  {
    diags := [];

    var up := Some(username);
    if username == "" {
      up := None;
    }

    var pp := Some(password);
    if password == "" {
      pp := None;
    }

    var made := newClient(None, up, pp);
    match made {
      case Failure(_) =>
        diags := diags + [Diagnostic(Error, "Unable to create HashiCups client",
                                     "Unable to auth user for authenticated HashiCups client")];
        return None, diags;
      case Success(c) =>
        return Some(c), diags;
    }
  }
}
