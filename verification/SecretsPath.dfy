/** The way of a repository's secrets: the admin form, the hub's store, the job, the agent's .env file. */
module SecretsPath {
  import opened Previews
  import opened SecretText
  import opened SecretStore
  import opened Dotenv
  import opened Dispatch

  /** Save the form, then build: with a form that parses, a save that succeeds and secrets that can be read, the
      build finds a file exactly when there are secrets, and the file reads back as the form. */
  method SaveThenBuild(d: Dispatcher, repo: string, raw: string, readFails: bool)
    returns (saved: bool, file: Option<string>)
    modifies d.secrets
    ensures Parse(raw).Rejected? ==> !saved && unchanged(d.secrets)
    ensures Parse(raw).Parsed? && old(d.secrets.faults) == [] ==> saved
    ensures saved ==> Parse(raw).Parsed? && d.secrets.Of(repo) == Parse(raw).env
    ensures saved && !readFails ==> (file.Some? <==> Parse(raw).env != map[])
    ensures saved && !readFails && file.Some? ==> Parse(file.value) == Parse(raw)
  {
    hide Parse, ListsEnv, IsDotenv;
    saved, file := false, None;
    var form := ParseSecretsRaw(raw);
    if form.Rejected? { return; }
    var result, done := ApplySecretDiff(d.secrets, repo, form.env);
    if result.Failed? { return; }
    saved := true;
    var env := d.HydrateBuildEnv(repo, readFails);
    var text, wrote := WriteDotenv(env);
    if wrote {
      file := Some(text);
      if !readFails { SecretsSurvive(raw, text); }
    }
  }
}
