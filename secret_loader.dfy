/** utils/secret_loader.py: `get_secret`, which reads a setting from Streamlit's
    secrets file when that file exists and from the process environment when it does
    not. The file system check, the parsed secrets file and the environment are given
    as one value. */
module SecretLoader {
  import opened Py

  /** What `get_secret` can see: whether `.streamlit/secrets.toml` exists under the
      working directory, the secrets it holds, and the environment variables. */
  datatype SecretEnv = SecretEnv(secretsFileExists: bool, secrets: map<string, string>, env: map<string, string>)

  /** `get_secret(key)`: without a secrets file, the environment's value or `KeyError`;
      with one, the secret when present and otherwise `None` (the function falls off
      its end), with no fallback to the environment. */
  function GetSecret(e: SecretEnv, key: string): (r: Result<Option<string>>)
    ensures r.Err? <==> !e.secretsFileExists && key !in e.env
    ensures r.Err? ==> r.error == KeyError(key)
  {
    if !e.secretsFileExists then
      if key in e.env then Ok(Some(e.env[key])) else Err(KeyError(key))
    else if key in e.secrets then Ok(Some(e.secrets[key]))
    else Ok(None)
  }

  /** Without a secrets file the environment decides: its value when set. */
  lemma EnvWithoutFile(e: SecretEnv, key: string)
    requires !e.secretsFileExists && key in e.env
    ensures GetSecret(e, key) == Ok(Some(e.env[key]))
  {
  }

  /** With a secrets file, a key it holds is answered from it, whatever the environment
      says. */
  lemma SecretsWin(e: SecretEnv, key: string)
    requires e.secretsFileExists && key in e.secrets
    ensures GetSecret(e, key) == Ok(Some(e.secrets[key]))
  {
  }

  /** With a secrets file that lacks the key the answer is `None`, even when the
      environment has it. */
  lemma NoEnvFallback(e: SecretEnv, key: string)
    requires e.secretsFileExists && key !in e.secrets
    ensures GetSecret(e, key) == Ok(None)
  {
  }

  /** With a secrets file the environment is never consulted: two environments that
      differ in every variable give the same answer. */
  lemma EnvIgnoredWithFile(secrets: map<string, string>, env1: map<string, string>, env2: map<string, string>, key: string)
    ensures GetSecret(SecretEnv(true, secrets, env1), key) == GetSecret(SecretEnv(true, secrets, env2), key)
  {
  }

  /** Without a secrets file the secrets map is never consulted. */
  lemma SecretsIgnoredWithoutFile(secrets1: map<string, string>, secrets2: map<string, string>, env: map<string, string>, key: string)
    ensures GetSecret(SecretEnv(false, secrets1, env), key) == GetSecret(SecretEnv(false, secrets2, env), key)
  {
  }
}
